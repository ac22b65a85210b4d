/** What the events of one task and tool leave behind: one row for each stretch of events up to a decision. */
module Segments {
  import opened Options
  import opened Ordering
  import opened Approvals
  import opened Replay

  // ----- cutting the events at their decisions -----

  predicate Decided(part: seq<Entry>) { part != [] && part[|part| - 1].event.body.ApprovalResult? }

  /** The events in stretches that end with a decision; the last one may still be open. */
  function Parts(log: seq<Entry>): (r: seq<seq<Entry>>)
    ensures forall i :: 0 <= i < |r| ==> r[i] != [] && (i < |r| - 1 ==> Decided(r[i]))
    ensures log != [] ==> r != []
  {
    if log == [] then []
    else
      var front, e := Parts(log[..|log| - 1]), log[|log| - 1];
      var last := |front| - 1;
      if front == [] || Decided(front[last]) then front + [[e]] else front[..last] + [front[last] + [e]]
  }

  function LastCallback(part: seq<Entry>): Option<Callback> {
    if part == [] then None
    else
      var body := part[|part| - 1].event.body;
      if body.PermissionCallback? then Some(body.callback) else LastCallback(part[..|part| - 1])
  }

  function LastRequest(part: seq<Entry>): Option<Request> {
    if part == [] then None
    else
      var body := part[|part| - 1].event.body;
      if body.ApprovalRequested? then Some(body.request) else LastRequest(part[..|part| - 1])
  }

  /** The preview of the last request that has one. */
  function LastPreview(part: seq<Entry>): Option<string> {
    if part == [] then None
    else
      var body := part[|part| - 1].event.body;
      if body.ApprovalRequested? && body.request.preview != "" then Some(body.request.preview)
      else LastPreview(part[..|part| - 1])
  }

  datatype Decision = Decision(verdict: Verdict, time: int)

  /** All that a stretch of events leaves behind. */
  datatype Segment = Segment(
    first: int, callback: Option<Callback>, request: Option<Request>, preview: Option<string>, decision: Option<Decision>)

  function SegmentOf(part: seq<Entry>): Segment
    requires part != []
  {
    var last := part[|part| - 1].event;
    Segment(part[0].event.time, LastCallback(part), LastRequest(part), LastPreview(part),
            if last.body.ApprovalResult? then Some(Decision(last.body.verdict, last.time)) else None)
  }

  function SegmentsOf(log: seq<Entry>): (r: seq<Segment>)
    ensures |r| == |Parts(log)| && forall i :: 0 <= i < |r| ==> r[i] == SegmentOf(Parts(log)[i])
  {
    seq(|Parts(log)|, i requires 0 <= i < |Parts(log)| => SegmentOf(Parts(log)[i]))
  }

  /** The row a segment is shown as. */
  function Shown(scope: Scope, s: Segment): Row
    requires scope.OfTool?
  {
    var verdict := if s.decision.Some? then Some(s.decision.value.verdict) else None;
    Row(0, scope.task, scope.tool, OPERATOR_APPROVAL,
        if verdict.Some? then VerdictStatus(verdict.value) else Pending,
        s.preview, if verdict.Some? then NonEmpty(verdict.value.reason) else None,
        Metadata(s.callback, s.request, verdict, None),
        s.first, if s.decision.Some? then Some(s.decision.value.time) else None, 0)
  }

  lemma {:induction false} ShownTellsApart(scope: Scope, a: Segment, b: Segment)
    requires scope.OfTool?
    ensures Shown(scope, a) == Shown(scope, b) <==> a == b
  {
  }

  // ----- rows are segments -----

  lemma {:induction false} BeginsSegment(scope: Scope, e: Entry, id: nat)
    requires scope.OfTool? && scope.Sees(e.event)
    ensures Strip(Inserted(id, scope.task, e.event)) == Shown(scope, SegmentOf([e]))
  {
    assert [e][..0] == [] && LastCallback([]) == None && LastRequest([]) == None && LastPreview([]) == None;
  }

  lemma {:induction false} ExtendsSegment(scope: Scope, row: Row, part: seq<Entry>, e: Entry)
    requires scope.OfTool? && scope.Sees(e.event) && part != [] && !Decided(part)
    requires Strip(row) == Shown(scope, SegmentOf(part))
    ensures Strip(Merged(row, e.event)) == Shown(scope, SegmentOf(part + [e]))
  {
    assert (part + [e])[..|part|] == part;
  }

  /** Row by row the rows show the segments, and only the last one may be waiting. */
  ghost predicate ShowsAll(rows: seq<Row>, scope: Scope, segments: seq<Segment>)
    requires scope.OfTool?
  {
    && |rows| == |segments|
    && (forall i :: 0 <= i < |rows| ==> Strip(rows[i]) == Shown(scope, segments[i]))
    && (forall i :: 0 <= i < |rows| - 1 ==> rows[i].status != Pending)
  }

  lemma {:induction false} FoldShowsSegments(log: seq<Entry>, scope: Scope)
    requires scope.OfTool? && forall x :: x in log ==> scope.Sees(x.event)
    ensures ShowsAll(Fold([], log, 0), scope, SegmentsOf(log))
  {
    if log != [] {
      var last := |log| - 1;
      assert log[last] in log && log == log[..last] + [log[last]];
      FoldShowsSegments(log[..last], scope);
      ApplyShowsSegments(Fold([], log[..last], 0), scope, log[..last], log[last], last);
    }
  }

  lemma {:induction false} ApplyShowsSegments(rows: seq<Row>, scope: Scope, front: seq<Entry>, e: Entry, id: nat)
    requires scope.OfTool? && scope.Sees(e.event) && ShowsAll(rows, scope, SegmentsOf(front))
    ensures ShowsAll(Apply(rows, e.event, id), scope, SegmentsOf(front + [e]))
  {
    var parts := Parts(front);
    LastIsOpen(rows, scope, front);
    SegmentsSnoc(front, e);
    if parts == [] || Decided(parts[|parts| - 1]) {
      BeginsSegment(scope, e, id);
      LastIsDecided(rows, scope, front);
      ShowsMore(rows, scope, SegmentsOf(front), Inserted(id, scope.task, e.event), SegmentOf([e]));
    } else {
      var last := |parts| - 1;
      ExtendsSegment(scope, rows[last], parts[last], e);
      ShowsChanged(rows, scope, SegmentsOf(front), Merged(rows[last], e.event), SegmentOf(parts[last] + [e]));
    }
  }

  lemma {:induction false} ShowsMore(rows: seq<Row>, scope: Scope, segments: seq<Segment>, row: Row, segment: Segment)
    requires scope.OfTool? && ShowsAll(rows, scope, segments) && Strip(row) == Shown(scope, segment)
    requires forall i :: 0 <= i < |rows| ==> rows[i].status != Pending
    ensures ShowsAll(rows + [row], scope, segments + [segment])
  {
  }

  lemma {:induction false} ShowsChanged(rows: seq<Row>, scope: Scope, segments: seq<Segment>, row: Row, segment: Segment)
    requires scope.OfTool? && rows != [] && ShowsAll(rows, scope, segments) && Strip(row) == Shown(scope, segment)
    ensures ShowsAll(rows[|rows| - 1 := row], scope, segments[|rows| - 1 := segment])
  {
  }

  /** One more event begins a segment after a decision, and otherwise extends the last one. */
  lemma {:induction false} SegmentsSnoc(front: seq<Entry>, e: Entry)
    ensures var parts, segments := Parts(front), SegmentsOf(front); var last := |parts| - 1;
      SegmentsOf(front + [e])
      == if parts == [] || Decided(parts[last]) then segments + [SegmentOf([e])]
         else segments[last := SegmentOf(parts[last] + [e])]
  {
    assert (front + [e])[..|front|] == front;
  }

  lemma {:induction false} LastIsDecided(rows: seq<Row>, scope: Scope, log: seq<Entry>)
    requires scope.OfTool? && ShowsAll(rows, scope, SegmentsOf(log))
    requires Parts(log) != [] ==> Decided(Parts(log)[|Parts(log)| - 1])
    ensures forall i :: 0 <= i < |rows| ==> rows[i].status != Pending
  {
    if rows != [] {
      var last := |rows| - 1;
      assert Strip(rows[last]) == Shown(scope, SegmentOf(Parts(log)[last]));
    }
  }

  /** The open row is the last one, exactly when the last segment has no decision. */
  lemma {:induction false} LastIsOpen(rows: seq<Row>, scope: Scope, log: seq<Entry>)
    requires scope.OfTool? && ShowsAll(rows, scope, SegmentsOf(log))
    ensures var parts := Parts(log);
      FindOpen(rows, scope.task, scope.tool)
      == if parts == [] || Decided(parts[|parts| - 1]) then None else Some(|parts| - 1)
  {
    var parts, open := Parts(log), FindOpen(rows, scope.task, scope.tool);
    if parts != [] {
      var last := |parts| - 1;
      assert Strip(rows[last]) == Shown(scope, SegmentOf(parts[last]));
      assert rows[last] in rows;
      assert IsOpen(rows[last], scope.task, scope.tool) <==> !Decided(parts[last]);
    }
  }

  lemma {:induction false} ProjectAll(rows: seq<Row>, scope: Scope)
    requires forall row :: row in rows ==> scope.Has(row.task, row.tool)
    ensures |Project(rows, scope)| == |rows| && forall i :: 0 <= i < |rows| ==> Project(rows, scope)[i] == Strip(rows[i])
  {
    if rows != [] {
      var last := |rows| - 1;
      assert rows[last] in rows;
      ProjectAll(rows[..last], scope);
    }
  }

  /** Two logs of a task and tool leave the same rows exactly when they have the same segments. */
  lemma {:induction false} SameRowsIffSameSegments(a: seq<Entry>, b: seq<Entry>, scope: Scope)
    requires scope.OfTool?
    requires (forall x :: x in a ==> scope.Sees(x.event)) && (forall x :: x in b ==> scope.Sees(x.event))
    ensures SameFold(a, b, scope) <==> SegmentsOf(a) == SegmentsOf(b)
  {
    var left, right := Fold([], a, 0), Fold([], b, 0);
    FoldShowsSegments(a, scope);
    FoldShowsSegments(b, scope);
    AllInScope(left, scope, SegmentsOf(a));
    AllInScope(right, scope, SegmentsOf(b));
    ProjectAll(left, scope);
    ProjectAll(right, scope);
    if SegmentsOf(a) == SegmentsOf(b) {
      assert Project(left, scope) == Project(right, scope);
    }
    if SameFold(a, b, scope) {
      forall i | 0 <= i < |left| ensures SegmentsOf(a)[i] == SegmentsOf(b)[i] {
        assert Project(left, scope)[i] == Project(right, scope)[i];
        ShownTellsApart(scope, SegmentsOf(a)[i], SegmentsOf(b)[i]);
      }
    }
  }

  lemma {:induction false} AllInScope(rows: seq<Row>, scope: Scope, segments: seq<Segment>)
    requires scope.OfTool? && ShowsAll(rows, scope, segments)
    ensures forall row :: row in rows ==> scope.Has(row.task, row.tool)
  {
    forall row | row in rows ensures scope.Has(row.task, row.tool) {
      var i :| 0 <= i < |rows| && rows[i] == row;
      assert Strip(rows[i]) == Shown(scope, segments[i]);
    }
  }

  /** On every run the rows of a task and tool are its segments, in order, one row each. */
  lemma {:induction false} LiveRowsAreSegments(changes: seq<Change>, scope: Scope)
    requires scope.OfTool?
    ensures var s := Run(changes); var rows, segments := Project(s.rows, scope), SegmentsOf(Own(s.log, scope));
      |rows| == |segments| && forall i :: 0 <= i < |rows| ==> rows[i] == Shown(scope, segments[i])
  {
    var own := Own(Run(changes).log, scope);
    LiveRowsAreFolded(changes, scope);
    FoldShowsSegments(own, scope);
    AllInScope(Fold([], own, 0), scope, SegmentsOf(own));
    ProjectAll(Fold([], own, 0), scope);
  }

  // ----- when a replay gives back the rows -----

  lemma {:induction false} SortedStrictly(log: seq<Entry>)
    requires DistinctKeys(log)
    ensures StrictlySortedBy(ReplayLeq, Sort(ReplayLeq, log)) && forall x :: x in Sort(ReplayLeq, log) <==> x in log
  {
    var order := Sort(ReplayLeq, log);
    ReplayLeqIsPreorder();
    SortSorted(ReplayLeq, log);
    SortElements(ReplayLeq, log);
    DistinctKeysPermute(log, order);
    forall x ensures x in order <==> x in log {
      assert x in order <==> x in multiset(order);
      assert x in log <==> x in multiset(log);
    }
  }

  lemma {:induction false} OwnDistinct(log: seq<Entry>, scope: Scope)
    requires DistinctKeys(log)
    ensures DistinctKeys(Own(log, scope))
  {
    if log != [] {
      var last := |log| - 1;
      OwnDistinct(log[..last], scope);
      forall x | x in Own(log[..last], scope) ensures x.id != log[last].id {
        assert x in log[..last];
      }
    }
  }

  /**
   * The exact condition, whatever order the events came in: replaying gives back the rows of a task and tool if
   * and only if their events, sorted as the replay reads them, have the segments they had as they came.
   */
  lemma {:induction false} ReplayRebuildsIff(changes: seq<Change>, tasks: set<TaskId>, nextId: nat, scope: Scope)
    requires DistinctKeys(Run(changes).log) && scope.OfTool? && scope.task in tasks
    ensures var s := Run(changes); var own := Own(s.log, scope);
      Project(Rebuilt(s.rows, s.log, tasks, nextId), scope) == Project(s.rows, scope)
      <==> SegmentsOf(Sort(ReplayLeq, own)) == SegmentsOf(own)
  {
    var s := Run(changes);
    var own := Own(s.log, scope);
    var order := Sort(ReplayLeq, own);
    OwnDistinct(s.log, scope);
    SortedStrictly(own);
    ReplayOrderOfScope(s.log, tasks, scope, order);
    RebuiltFromNothing(s.rows, s.log, tasks, nextId, scope);
    LiveRowsAreFolded(changes, scope);
    SameRowsIffSameSegments(order, own, scope);
  }
}
