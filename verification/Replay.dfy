/** Rebuilding approvals from the event log gives back the live rows, task by task and tool by tool. */
module Replay {
  import opened Options
  import opened Ordering
  import opened Approvals

  /** Which rows and events are looked at: those of a task, or those of one of its tools. */
  datatype Scope = OfTask(task: TaskId) | OfTool(task: TaskId, tool: string)
  {
    predicate Has(id: TaskId, name: string) { id == task && (OfTool? ==> name == tool) }

    predicate Sees(e: Event) { !Ignored(e) && Has(e.task.value, e.tool) }
  }

  /** A row without its generated key and without what posting the prompt writes. */
  function Strip(row: Row): Row {
    row.(id := 0, updatedAt := 0, meta := row.meta.(delivery := None))
  }

  /** The rows in a scope, stripped, in creation order. */
  function Project(rows: seq<Row>, scope: Scope): seq<Row> {
    if rows == [] then []
    else
      var last := |rows| - 1;
      if scope.Has(rows[last].task, rows[last].tool) then Project(rows[..last], scope) + [Strip(rows[last])]
      else Project(rows[..last], scope)
  }

  lemma {:induction false} ProjectSnoc(rows: seq<Row>, row: Row, scope: Scope)
    ensures Project(rows + [row], scope)
         == if scope.Has(row.task, row.tool) then Project(rows, scope) + [Strip(row)] else Project(rows, scope)
  {
    assert (rows + [row])[..|rows|] == rows;
  }

  /** Where a row in the scope stands among the rows there. */
  lemma {:induction false} ProjectAt(rows: seq<Row>, scope: Scope, i: nat)
    requires i < |rows| && scope.Has(rows[i].task, rows[i].tool)
    ensures var k := |Project(rows[..i], scope)|; k < |Project(rows, scope)| && Project(rows, scope)[k] == Strip(rows[i])
  {
    var last := |rows| - 1;
    if i < last {
      ProjectAt(rows[..last], scope, i);
      assert rows[..last][..i] == rows[..i];
    }
  }

  lemma {:induction false} ProjectUpdate(rows: seq<Row>, scope: Scope, i: nat, row: Row)
    requires i < |rows| && rows[i].task == row.task && rows[i].tool == row.tool
    ensures !scope.Has(row.task, row.tool) ==> Project(rows[i := row], scope) == Project(rows, scope)
    ensures scope.Has(row.task, row.tool) ==>
      var k := |Project(rows[..i], scope)|;
      k < |Project(rows, scope)| && Project(rows[i := row], scope) == Project(rows, scope)[k := Strip(row)]
  {
    var last := |rows| - 1;
    if i < last {
      ProjectUpdate(rows[..last], scope, i, row);
      assert rows[i := row][..last] == rows[..last][i := row];
      assert rows[..last][..i] == rows[..i];
    } else {
      assert rows[i := row][..last] == rows[..last];
    }
  }

  lemma {:induction false} FindOpenSnoc(rows: seq<Row>, row: Row, task: TaskId, tool: string)
    ensures var before := FindOpen(rows, task, tool);
      FindOpen(rows + [row], task, tool)
      == if IsOpen(row, task, tool) && (before.None? || rows[before.value].requestedAt <= row.requestedAt)
         then Some(|rows|) else before
  {
    assert (rows + [row])[..|rows|] == rows;
  }

  /** Looking for the open row of a task and tool sees only their rows, and not what Strip drops. */
  lemma {:induction false} FindOpenProjects(rows: seq<Row>, scope: Scope, tool: string)
    requires scope.Has(scope.task, tool)
    ensures var r := FindOpen(rows, scope.task, tool);
      FindOpen(Project(rows, scope), scope.task, tool) == if r.Some? then Some(|Project(rows[..r.value], scope)|) else None
  {
    if rows != [] {
      var last := |rows| - 1;
      var front := rows[..last];
      FindOpenProjects(front, scope, tool);
      var r := FindOpen(front, scope.task, tool);
      if r.Some? {
        ProjectAt(front, scope, r.value);
        assert front[..r.value] == rows[..r.value];
      }
      assert rows == front + [rows[last]];
      FindOpenSnoc(front, rows[last], scope.task, tool);
      if scope.Has(rows[last].task, rows[last].tool) {
        FindOpenSnoc(Project(front, scope), Strip(rows[last]), scope.task, tool);
      }
    }
  }

  /** Events outside a scope leave its rows alone; those inside act on its rows only. */
  lemma {:induction false} ApplyProjects(rows: seq<Row>, e: Event, id: nat, scope: Scope)
    ensures Project(Apply(rows, e, id), scope)
         == if scope.Sees(e) then Project(Apply(Project(rows, scope), e, 0), scope) else Project(rows, scope)
  {
    ProjectIdempotent(rows, scope);
    if !Ignored(e) {
      var open := FindOpen(rows, e.task.value, e.tool);
      if open.None? { InsertProjects(rows, e, id, scope); } else { MergeProjects(rows, e, id, open.value, scope); }
    }
  }

  lemma {:induction false} InsertProjects(rows: seq<Row>, e: Event, id: nat, scope: Scope)
    requires !Ignored(e) && FindOpen(rows, e.task.value, e.tool) == None
    ensures Project(Apply(rows, e, id), scope)
         == if scope.Sees(e) then Project(Apply(Project(rows, scope), e, 0), scope) else Project(rows, scope)
  {
    ProjectSnoc(rows, Inserted(id, e.task.value, e), scope);
    if scope.Sees(e) {
      FindOpenProjects(rows, scope, e.tool);
      ProjectIdempotent(rows, scope);
      ProjectSnoc(Project(rows, scope), Inserted(0, e.task.value, e), scope);
    }
  }

  lemma {:induction false} MergeProjects(rows: seq<Row>, e: Event, id: nat, i: nat, scope: Scope)
    requires !Ignored(e) && FindOpen(rows, e.task.value, e.tool) == Some(i)
    ensures Project(Apply(rows, e, id), scope)
         == if scope.Sees(e) then Project(Apply(Project(rows, scope), e, 0), scope) else Project(rows, scope)
  {
    ProjectUpdate(rows, scope, i, Merged(rows[i], e));
    if scope.Sees(e) {
      var mine, k := Project(rows, scope), |Project(rows[..i], scope)|;
      FindOpenProjects(rows, scope, e.tool);
      ProjectAt(rows, scope, i);
      ProjectIdempotent(rows, scope);
      ProjectUpdate(mine, scope, k, Merged(mine[k], e));
      PrefixOfProjection(rows, scope, i);
    }
  }

  lemma {:induction false} ProjectIdempotent(rows: seq<Row>, scope: Scope)
    ensures Project(Project(rows, scope), scope) == Project(rows, scope)
  {
    if rows != [] {
      var last := |rows| - 1;
      ProjectIdempotent(rows[..last], scope);
      if scope.Has(rows[last].task, rows[last].tool) {
        ProjectSnoc(Project(rows[..last], scope), Strip(rows[last]), scope);
        assert Strip(Strip(rows[last])) == Strip(rows[last]);
      }
    }
  }

  lemma {:induction false} PrefixOfProjection(rows: seq<Row>, scope: Scope, i: nat)
    requires i <= |rows|
    ensures var k := |Project(rows[..i], scope)|;
      k <= |Project(rows, scope)| && |Project(Project(rows, scope)[..k], scope)| == k
  {
    if i == |rows| {
      assert rows[..i] == rows;
      ProjectIdempotent(rows, scope);
      assert Project(rows, scope)[..|Project(rows, scope)|] == Project(rows, scope);
    } else {
      var last := |rows| - 1;
      PrefixOfProjection(rows[..last], scope, i);
      assert rows[..last][..i] == rows[..i];
      var k := |Project(rows[..i], scope)|;
      assert Project(rows, scope)[..k] == Project(rows[..last], scope)[..k];
    }
  }

  // ----- folding a log -----

  /** The entries whose events act on rows in the scope. */
  function Own(log: seq<Entry>, scope: Scope): (r: seq<Entry>)
    ensures forall x :: x in r <==> x in log && scope.Sees(x.event)
  {
    if log == [] then []
    else
      var last := |log| - 1;
      if scope.Sees(log[last].event) then Own(log[..last], scope) + [log[last]] else Own(log[..last], scope)
  }

  /** Folding a log shows a task, or one of its tools, only its own events: all others commute with them. */
  lemma {:induction false} FoldProjects(rows: seq<Row>, log: seq<Entry>, nextId: nat, scope: Scope)
    ensures Project(Fold(rows, log, nextId), scope) == Project(Fold(Project(rows, scope), Own(log, scope), 0), scope)
    decreases |log|
  {
    if log == [] {
      ProjectIdempotent(rows, scope);
    } else {
      var last := |log| - 1;
      var a := Fold(rows, log[..last], nextId);
      FoldProjects(rows, log[..last], nextId, scope);
      assert log == log[..last] + [log[last]];
      OwnSnoc(log[..last], log[last], scope);
      if scope.Sees(log[last].event) {
        FoldOwn(a, Project(rows, scope), Own(log[..last], scope), log[last], nextId + last, scope);
      } else {
        OtherEvents(a, log[last].event, nextId + last, scope);
      }
    }
  }

  lemma {:induction false} FoldOwn(a: seq<Row>, mine: seq<Row>, own: seq<Entry>, entry: Entry, id: nat, scope: Scope)
    requires Project(a, scope) == Project(Fold(mine, own, 0), scope) && scope.Sees(entry.event)
    ensures Project(Apply(a, entry.event, id), scope) == Project(Fold(mine, own + [entry], 0), scope)
  {
    var log := own + [entry];
    assert log[..|own|] == own && log[..|own| + 1] == log;
    FoldSnoc(mine, log, |own|, 0);
    OwnEvent(a, Fold(mine, own, 0), entry.event, id, |own|, scope);
  }

  lemma {:induction false} OwnSnoc(front: seq<Entry>, entry: Entry, scope: Scope)
    ensures Own(front + [entry], scope) == if scope.Sees(entry.event) then Own(front, scope) + [entry] else Own(front, scope)
  {
    assert (front + [entry])[..|front|] == front;
  }

  lemma {:induction false} OwnEvent(a: seq<Row>, b: seq<Row>, e: Event, idA: nat, idB: nat, scope: Scope)
    requires Project(a, scope) == Project(b, scope) && scope.Sees(e)
    ensures Project(Apply(a, e, idA), scope) == Project(Apply(b, e, idB), scope)
  {
    ApplyProjects(a, e, idA, scope);
    ApplyProjects(b, e, idB, scope);
  }

  lemma {:induction false} OtherEvents(a: seq<Row>, e: Event, id: nat, scope: Scope)
    requires !scope.Sees(e)
    ensures Project(Apply(a, e, id), scope) == Project(a, scope)
  {
    ApplyProjects(a, e, id, scope);
  }

  lemma {:induction false} KeepOthersProjects(rows: seq<Row>, tasks: set<TaskId>, scope: Scope)
    ensures Project(KeepOthers(rows, tasks), scope) == if scope.task in tasks then [] else Project(rows, scope)
  {
    if rows != [] {
      var last := |rows| - 1;
      KeepOthersProjects(rows[..last], tasks, scope);
      if rows[last].task !in tasks {
        ProjectSnoc(KeepOthers(rows[..last], tasks), rows[last], scope);
      }
    }
  }

  // ----- the replay order -----

  /** The events in a scope were applied in the order the replay will read them. */
  ghost predicate AppliedInOrder(log: seq<Entry>, scope: Scope) {
    StrictlySortedBy(ReplayLeq, Own(log, scope))
  }

  ghost predicate DistinctKeys(log: seq<Entry>) {
    forall i, j :: 0 <= i < j < |log| ==> log[i].id != log[j].id
  }

  lemma {:induction false} ReplayLeqIsPreorder()
    ensures Preorder(ReplayLeq)
  {
  }

  lemma {:induction false} PickedDistinct(log: seq<Entry>, tasks: set<TaskId>)
    requires DistinctKeys(log)
    ensures DistinctKeys(Picked(log, tasks))
  {
    if log != [] {
      var last := |log| - 1;
      PickedDistinct(log[..last], tasks);
      forall x | x in Picked(log[..last], tasks) ensures x.id != log[last].id {
        assert x in log[..last];
      }
    }
  }

  lemma {:induction false} OwnStrictlySorted(log: seq<Entry>, scope: Scope)
    requires StrictlySortedBy(ReplayLeq, log)
    ensures StrictlySortedBy(ReplayLeq, Own(log, scope))
  {
    if log != [] {
      var last := |log| - 1;
      OwnStrictlySorted(log[..last], scope);
      forall x | x in Own(log[..last], scope) ensures ReplayLeq(x, log[last]) && !ReplayLeq(log[last], x) {
        assert x in log[..last];
      }
    }
  }

  /** A key occurs once among entries with distinct keys. */
  lemma {:induction false} DistinctOnce(log: seq<Entry>, x: Entry)
    requires DistinctKeys(log)
    ensures multiset(log)[x] <= 1
  {
    if log != [] {
      var last := |log| - 1;
      DistinctOnce(log[..last], x);
      assert log == log[..last] + [log[last]];
      if x == log[last] {
        assert x !in log[..last];
      }
    }
  }

  lemma {:induction false} TwiceCounted(log: seq<Entry>, i: nat, j: nat)
    requires i < j < |log| && log[i] == log[j]
    ensures multiset(log)[log[i]] >= 2
  {
    assert log == log[..i] + [log[i]] + log[i + 1..j] + [log[j]] + log[j + 1..];
  }

  /** Distinct keys survive sorting, so the replay order is strict. */
  lemma {:induction false} DistinctKeysPermute(a: seq<Entry>, b: seq<Entry>)
    requires multiset(a) == multiset(b) && DistinctKeys(a)
    ensures DistinctKeys(b)
  {
    forall i, j | 0 <= i < j < |b| ensures b[i].id != b[j].id {
      assert b[i] in multiset(a) && b[j] in multiset(a);
      if b[i] == b[j] {
        DistinctOnce(a, b[i]);
        TwiceCounted(b, i, j);
        assert false;
      }
    }
  }

  /** The replay reads the events in a scope in their one strictly sorted order. */
  lemma {:induction false} ReplayOrderOfScope(log: seq<Entry>, tasks: set<TaskId>, scope: Scope, own: seq<Entry>)
    requires DistinctKeys(log) && scope.task in tasks
    requires StrictlySortedBy(ReplayLeq, own) && forall x :: x in own <==> x in Own(log, scope)
    ensures Own(ReplayOrder(log, tasks), scope) == own
  {
    var picked := Picked(log, tasks);
    var order := ReplayOrder(log, tasks);
    ReplayLeqIsPreorder();
    SortSorted(ReplayLeq, picked);
    SortElements(ReplayLeq, picked);
    PickedDistinct(log, tasks);
    DistinctKeysPermute(picked, order);
    OwnStrictlySorted(order, scope);
    forall x ensures x in Own(order, scope) <==> x in own {
      assert x in order <==> x in multiset(order);
      assert x in picked <==> x in multiset(picked);
    }
    StrictlySortedUnique(ReplayLeq, Own(order, scope), own);
  }

  // ----- live runs -----

  /** What changes approvals at run time: a logged event, or the outcome of posting a prompt. */
  datatype Change =
    | Logged(entry: Entry)
    | Delivered(position: nat, delivery: Delivery, time: int)

  datatype Live = Live(rows: seq<Row>, log: seq<Entry>)

  function Step(s: Live, c: Change): Live {
    match c
    case Logged(entry) => Live(Apply(s.rows, entry.event, |s.log|), s.log + [entry])
    case Delivered(i, d, now) =>
      if i < |s.rows| && s.rows[i].status == Pending
      then s.(rows := s.rows[i := s.rows[i].(meta := s.rows[i].meta.(delivery := Some(d)), updatedAt := now)])
      else s
  }

  function Run(changes: seq<Change>): Live {
    if changes == [] then Live([], []) else Step(Run(changes[..|changes| - 1]), changes[|changes| - 1])
  }

  /** Whatever prompts were posted in between, the rows in a scope are the fold of its own events. */
  lemma {:induction false} LiveRowsAreFolded(changes: seq<Change>, scope: Scope)
    ensures var s := Run(changes); Project(s.rows, scope) == Project(Fold([], Own(s.log, scope), 0), scope)
  {
    if changes != [] {
      var front := changes[..|changes| - 1];
      var s := Run(front);
      LiveRowsAreFolded(front, scope);
      match changes[|changes| - 1]
      case Logged(entry) =>
        OwnSnoc(s.log, entry, scope);
        if scope.Sees(entry.event) {
          FoldOwn(s.rows, [], Own(s.log, scope), entry, |s.log|, scope);
        } else {
          OtherEvents(s.rows, entry.event, |s.log|, scope);
        }
      case Delivered(i, d, now) =>
        DeliveryIsNotShown(s, i, d, now, scope);
    }
  }

  lemma {:induction false} DeliveryIsNotShown(s: Live, i: nat, d: Delivery, now: int, scope: Scope)
    ensures Project(Step(s, Delivered(i, d, now)).rows, scope) == Project(s.rows, scope)
  {
    if i < |s.rows| && s.rows[i].status == Pending {
      var row := s.rows[i].(meta := s.rows[i].meta.(delivery := Some(d)), updatedAt := now);
      ProjectUpdate(s.rows, scope, i, row);
      if scope.Has(row.task, row.tool) { ProjectAt(s.rows, scope, i); }
    }
  }

  /**
   * Deleting the approvals of any set of tasks and replaying their events rebuilds exactly the rows that
   * were there, tool by tool: only events of the same task and tool must have been applied in order.
   */
  lemma {:induction false} ReplayRebuildsLiveRows(changes: seq<Change>, tasks: set<TaskId>, nextId: nat, scope: Scope)
    requires DistinctKeys(Run(changes).log)
    requires scope.task in tasks ==> AppliedInOrder(Run(changes).log, scope)
    ensures var s := Run(changes); Project(Rebuilt(s.rows, s.log, tasks, nextId), scope) == Project(s.rows, scope)
  {
    var s := Run(changes);
    if scope.task in tasks {
      ReplayOrderOfScope(s.log, tasks, scope, Own(s.log, scope));
      RebuiltFromNothing(s.rows, s.log, tasks, nextId, scope);
      LiveRowsAreFolded(changes, scope);
    } else {
      FoldProjects(KeepOthers(s.rows, tasks), ReplayOrder(s.log, tasks), nextId, scope);
      KeepOthersProjects(s.rows, tasks, scope);
      ReplayIgnoresOthers(s.log, tasks, scope);
      ProjectIdempotent(s.rows, scope);
    }
  }

  /** The rows of the replayed tasks are rebuilt from the selected events alone. */
  lemma {:induction false} RebuiltFromNothing(rows: seq<Row>, log: seq<Entry>, tasks: set<TaskId>, nextId: nat, scope: Scope)
    requires scope.task in tasks
    ensures Project(Rebuilt(rows, log, tasks, nextId), scope)
         == Project(Fold([], Own(ReplayOrder(log, tasks), scope), 0), scope)
  {
    KeepOthersProjects(rows, tasks, scope);
    FoldProjects(KeepOthers(rows, tasks), ReplayOrder(log, tasks), nextId, scope);
  }

  lemma {:induction false} ReplayIgnoresOthers(log: seq<Entry>, tasks: set<TaskId>, scope: Scope)
    requires scope.task !in tasks
    ensures Own(ReplayOrder(log, tasks), scope) == []
  {
    var picked := Picked(log, tasks);
    SortElements(ReplayLeq, picked);
    var own := Own(ReplayOrder(log, tasks), scope);
    forall x ensures x !in own {
      assert x in ReplayOrder(log, tasks) <==> x in multiset(ReplayOrder(log, tasks));
      assert x in picked <==> x in multiset(picked);
    }
    SomeMember(own);
  }

  // ----- when the order matters -----

  /**
   * Exchanging two adjacent events of one task and tool changes the rows: a decision and anything else; two
   * payloads of one kind; or, when no row is open, two times, since the first event sets the row's time.
   */
  predicate OrderMatters(open: bool, a: Event, b: Event) {
    if a.body.ApprovalResult? || b.body.ApprovalResult? then a != b
    else
      || (!open && a.time != b.time)
      || (a.body.ApprovalRequested? == b.body.ApprovalRequested? && a.body != b.body)
  }

  /** Two events on the open row: the second merges as well, unless the first was a decision. */
  lemma {:induction false} TwoOnOpenRow(rows: seq<Row>, i: nat, a: Event, b: Event, idA: nat, idB: nat)
    requires OnePending(rows) && !Ignored(a) && !Ignored(b) && a.task == b.task && a.tool == b.tool
    requires FindOpen(rows, a.task.value, a.tool) == Some(i)
    ensures Apply(Apply(rows, a, idA), b, idB)
         == var row := Merged(rows[i], a);
            if a.body.ApprovalResult? then rows[i := row] + [Inserted(idB, b.task.value, b)]
            else rows[i := Merged(row, b)]
  {
    ApplyKeepsOnePending(rows, a, idA);
    var once := Apply(rows, a, idA);
    if a.body.ApprovalResult? {
      var found := FindOpen(once, b.task.value, b.tool);
      if found.Some? && found.value != i {
        OpenRowIsUnique(rows, found.value);
        assert false;
      }
    } else {
      OpenRowIsUnique(once, i);
    }
  }

  /** Two events when no row is open: the first inserts one, which the second finds unless it is decided. */
  lemma {:induction false} TwoOnNoRow(rows: seq<Row>, a: Event, b: Event, idA: nat, idB: nat)
    requires !Ignored(a) && !Ignored(b) && a.task == b.task && a.tool == b.tool
    requires FindOpen(rows, a.task.value, a.tool) == None
    ensures Apply(Apply(rows, a, idA), b, idB)
         == var row := Inserted(idA, a.task.value, a);
            if a.body.ApprovalResult? then rows + [row] + [Inserted(idB, b.task.value, b)]
            else rows + [Merged(row, b)]
  {
    var row := Inserted(idA, a.task.value, a);
    FindOpenSnoc(rows, row, a.task.value, a.tool);
    UpdateLast(rows, row, Merged(row, b));
  }

  lemma {:induction false} UpdateLast(rows: seq<Row>, row: Row, now: Row)
    ensures (rows + [row])[|rows| := now] == rows + [now]
  {
  }

  /** Two events on one row commute, as far as the row shows, unless one hides the other. */
  lemma {:induction false} MergedTwiceIff(row: Row, a: Event, b: Event)
    requires !Ignored(a) && !Ignored(b) && a.task == b.task && a.tool == b.tool
    requires !a.body.ApprovalResult? && !b.body.ApprovalResult?
    ensures Strip(Merged(Merged(row, a), b)) == Strip(Merged(Merged(row, b), a)) <==> !OrderMatters(true, a, b)
  {
  }

  lemma {:induction false} InsertedTwiceIff(idA: nat, idB: nat, a: Event, b: Event)
    requires !Ignored(a) && !Ignored(b) && a.task == b.task && a.tool == b.tool
    requires !a.body.ApprovalResult? && !b.body.ApprovalResult?
    ensures Strip(Merged(Inserted(idA, a.task.value, a), b)) == Strip(Merged(Inserted(idB, b.task.value, b), a))
         <==> !OrderMatters(false, a, b)
  {
  }

  lemma {:induction false} DecisionsDiffer(idA: nat, idB: nat, a: Event, b: Event)
    requires a.body.ApprovalResult? && b.body.ApprovalResult? && a.task.Some? && a.task == b.task && a.tool == b.tool
    ensures Strip(Inserted(idA, a.task.value, a)) == Strip(Inserted(idB, b.task.value, b)) <==> a == b
  {
  }

  lemma {:induction false} SameLast(s: seq<Row>, x: Row, t: seq<Row>, y: Row)
    ensures s + [x] == t + [y] <==> s == t && x == y
  {
    assert (s + [x])[..|s|] == s && (t + [y])[..|t|] == t;
    assert |s| == |t| ==> (s + [x])[|s|] == x && (t + [y])[|t|] == y;
  }

  /** What two events leave in the scope, when a row is open there. */
  lemma {:induction false} ShownOnOpenRow(rows: seq<Row>, i: nat, a: Event, b: Event, idA: nat, idB: nat, scope: Scope)
    requires OnePending(rows) && scope.Sees(a) && !Ignored(b) && a.task == b.task && a.tool == b.tool
    requires FindOpen(rows, a.task.value, a.tool) == Some(i)
    ensures var mine, k := Project(rows, scope), |Project(rows[..i], scope)|;
      && k < |mine|
      && Project(Apply(Apply(rows, a, idA), b, idB), scope)
         == if a.body.ApprovalResult? then mine[k := Strip(Merged(rows[i], a))] + [Strip(Inserted(idB, b.task.value, b))]
            else mine[k := Strip(Merged(Merged(rows[i], a), b))]
  {
    TwoOnOpenRow(rows, i, a, b, idA, idB);
    if a.body.ApprovalResult? {
      ProjectUpdate(rows, scope, i, Merged(rows[i], a));
      ProjectSnoc(rows[i := Merged(rows[i], a)], Inserted(idB, b.task.value, b), scope);
    } else {
      ProjectUpdate(rows, scope, i, Merged(Merged(rows[i], a), b));
    }
  }

  lemma {:induction false} ShownOnNoRow(rows: seq<Row>, a: Event, b: Event, idA: nat, idB: nat, scope: Scope)
    requires OnePending(rows) && scope.Sees(a) && !Ignored(b) && a.task == b.task && a.tool == b.tool
    requires FindOpen(rows, a.task.value, a.tool) == None
    ensures var row := Inserted(idA, a.task.value, a);
      Project(Apply(Apply(rows, a, idA), b, idB), scope)
      == if a.body.ApprovalResult? then Project(rows, scope) + [Strip(row)] + [Strip(Inserted(idB, b.task.value, b))]
         else Project(rows, scope) + [Strip(Merged(row, b))]
  {
    TwoOnNoRow(rows, a, b, idA, idB);
    var row := Inserted(idA, a.task.value, a);
    ProjectAdded(rows, row, Inserted(idB, b.task.value, b), scope);
    ProjectAdded(rows, Merged(row, b), row, scope);
  }

  lemma {:induction false} ProjectAdded(rows: seq<Row>, x: Row, y: Row, scope: Scope)
    requires scope.Has(x.task, x.tool) && scope.Has(y.task, y.tool)
    ensures Project(rows + [x], scope) == Project(rows, scope) + [Strip(x)]
    ensures Project(rows + [x] + [y], scope) == Project(rows, scope) + [Strip(x)] + [Strip(y)]
  {
    ProjectSnoc(rows, x, scope);
    ProjectSnoc(rows + [x], y, scope);
  }

  /** Exactly when two adjacent events of one task and tool may not be exchanged. */
  lemma {:induction false} ExchangeIff(rows: seq<Row>, a: Event, b: Event, id: nat, scope: Scope)
    requires OnePending(rows) && scope.Sees(a) && !Ignored(b) && a.task == b.task && a.tool == b.tool
    ensures Project(Apply(Apply(rows, a, id), b, id + 1), scope) == Project(Apply(Apply(rows, b, id), a, id + 1), scope)
         <==> !OrderMatters(FindOpen(rows, a.task.value, a.tool).Some?, a, b)
  {
    var open := FindOpen(rows, a.task.value, a.tool);
    if open.Some? {
      ExchangeOnOpenRow(rows, open.value, a, b, id, scope);
    } else {
      ExchangeOnNoRow(rows, a, b, id, scope);
    }
  }

  lemma {:induction false} ExchangeOnOpenRow(rows: seq<Row>, i: nat, a: Event, b: Event, id: nat, scope: Scope)
    requires OnePending(rows) && scope.Sees(a) && !Ignored(b) && a.task == b.task && a.tool == b.tool
    requires FindOpen(rows, a.task.value, a.tool) == Some(i)
    ensures Project(Apply(Apply(rows, a, id), b, id + 1), scope) == Project(Apply(Apply(rows, b, id), a, id + 1), scope)
         <==> !OrderMatters(true, a, b)
  {
    ShownOnOpenRow(rows, i, a, b, id, id + 1, scope);
    ShownOnOpenRow(rows, i, b, a, id, id + 1, scope);
    if !a.body.ApprovalResult? && !b.body.ApprovalResult? {
      MergedTwiceIff(rows[i], a, b);
      var mine, k := Project(rows, scope), |Project(rows[..i], scope)|;
      assert mine[k := Strip(Merged(Merged(rows[i], a), b))][k] == Strip(Merged(Merged(rows[i], a), b));
    } else if a.body.ApprovalResult? && b.body.ApprovalResult? {
      var mine, k := Project(rows, scope), |Project(rows[..i], scope)|;
      SameLast(mine[k := Strip(Merged(rows[i], a))], Strip(Inserted(id + 1, b.task.value, b)),
               mine[k := Strip(Merged(rows[i], b))], Strip(Inserted(id + 1, a.task.value, a)));
      DecisionsDiffer(id + 1, id + 1, a, b);
    }
  }

  lemma {:induction false} ExchangeOnNoRow(rows: seq<Row>, a: Event, b: Event, id: nat, scope: Scope)
    requires OnePending(rows) && scope.Sees(a) && !Ignored(b) && a.task == b.task && a.tool == b.tool
    requires FindOpen(rows, a.task.value, a.tool) == None
    ensures Project(Apply(Apply(rows, a, id), b, id + 1), scope) == Project(Apply(Apply(rows, b, id), a, id + 1), scope)
         <==> !OrderMatters(false, a, b)
  {
    ShownOnNoRow(rows, a, b, id, id + 1, scope);
    ShownOnNoRow(rows, b, a, id, id + 1, scope);
    var mine := Project(rows, scope);
    if !a.body.ApprovalResult? && !b.body.ApprovalResult? {
      InsertedTwiceIff(id, id, a, b);
      SameLast(mine, Strip(Merged(Inserted(id, a.task.value, a), b)), mine, Strip(Merged(Inserted(id, b.task.value, b), a)));
    } else if a.body.ApprovalResult? && b.body.ApprovalResult? {
      var x, y := Strip(Inserted(id, a.task.value, a)), Strip(Inserted(id, b.task.value, b));
      SameLast(mine + [x], Strip(Inserted(id + 1, b.task.value, b)), mine + [y], Strip(Inserted(id + 1, a.task.value, a)));
      DecisionsDiffer(id + 1, id + 1, a, b);
    }
  }

  lemma {:induction false} FoldKeepsOnePending(log: seq<Entry>, nextId: nat)
    ensures OnePending(Fold([], log, nextId))
  {
    if log != [] {
      var last := |log| - 1;
      FoldKeepsOnePending(log[..last], nextId);
      ApplyKeepsOnePending(Fold([], log[..last], nextId), log[last].event, nextId + last);
    }
  }

  lemma {:induction false} FoldAppend(rows: seq<Row>, u: seq<Entry>, v: seq<Entry>, nextId: nat)
    ensures Fold(rows, u + v, nextId) == Fold(Fold(rows, u, nextId), v, nextId + |u|)
    decreases |v|
  {
    if v == [] {
      assert u + v == u;
    } else {
      var last := |v| - 1;
      FoldAppend(rows, u, v[..last], nextId);
      assert (u + v)[..|u| + last] == u + v[..last] && (u + v)[|u| + last] == v[last];
    }
  }

  lemma {:induction false} FoldPair(rows: seq<Row>, x: Entry, y: Entry, nextId: nat)
    ensures Fold(rows, [x, y], nextId) == Apply(Apply(rows, x.event, nextId), y.event, nextId + 1)
  {
    FoldSnoc(rows, [x, y], 0, nextId);
    FoldSnoc(rows, [x, y], 1, nextId);
    assert [x, y][..0] == [] && [x, y][..2] == [x, y];
  }

  lemma {:induction false} FoldThenTwo(front: seq<Entry>, x: Entry, y: Entry)
    ensures Fold([], front + [x, y], 0)
         == Apply(Apply(Fold([], front, 0), x.event, |front|), y.event, |front| + 1)
  {
    FoldAppend([], front, [x, y], 0);
    FoldPair(Fold([], front, 0), x, y, |front|);
  }

  /** Rows that look alike in a scope still do after the same events. */
  lemma {:induction false} FoldAlike(a: seq<Entry>, b: seq<Entry>, rest: seq<Entry>, scope: Scope)
    requires Project(Fold([], a, 0), scope) == Project(Fold([], b, 0), scope)
    ensures Project(Fold([], a + rest, 0), scope) == Project(Fold([], b + rest, 0), scope)
  {
    FoldAppend([], a, rest, 0);
    FoldAppend([], b, rest, 0);
    FoldProjects(Fold([], a, 0), rest, |a|, scope);
    FoldProjects(Fold([], b, 0), rest, |b|, scope);
  }

  ghost predicate SameFold(a: seq<Entry>, b: seq<Entry>, scope: Scope) {
    Project(Fold([], a, 0), scope) == Project(Fold([], b, 0), scope)
  }

  /** Whether the order of two events matters after the events in front of them. */
  predicate MattersAfter(front: seq<Entry>, x: Event, y: Event) {
    x.task.Some? && OrderMatters(FindOpen(Fold([], front, 0), x.task.value, x.tool).Some?, x, y)
  }

  lemma {:induction false} SwapLastTwoIff(front: seq<Entry>, x: Entry, y: Entry, scope: Scope)
    requires scope.Sees(x.event) && !Ignored(y.event) && x.event.task == y.event.task && x.event.tool == y.event.tool
    ensures SameFold(front + [x, y], front + [y, x], scope) <==> !MattersAfter(front, x.event, y.event)
  {
    FoldKeepsOnePending(front, 0);
    FoldThenTwo(front, x, y);
    FoldThenTwo(front, y, x);
    ExchangeIff(Fold([], front, 0), x.event, y.event, |front|, scope);
  }

  /** What two logs leave in a scope when they differ by the order of two adjacent events. */
  lemma {:induction false} SwapInFold(front: seq<Entry>, x: Entry, y: Entry, rest: seq<Entry>, scope: Scope)
    requires scope.Sees(x.event) && !Ignored(y.event) && x.event.task == y.event.task && x.event.tool == y.event.tool
    ensures !MattersAfter(front, x.event, y.event) ==> SameFold(front + [x, y] + rest, front + [y, x] + rest, scope)
    ensures rest == [] && MattersAfter(front, x.event, y.event)
         ==> !SameFold(front + [x, y] + rest, front + [y, x] + rest, scope)
  {
    SwapLastTwoIff(front, x, y, scope);
    if rest == [] {
      assert front + [x, y] + rest == front + [x, y] && front + [y, x] + rest == front + [y, x];
    } else if !MattersAfter(front, x.event, y.event) {
      FoldAlike(front + [x, y], front + [y, x], rest, scope);
    }
  }

  /**
   * When two adjacent events of one task and tool reached the rows against their timestamps, the replay still
   * rebuilds the rows if their order does not matter; and when they were the last two, only then.
   */
  lemma {:induction false} SwappedReplayIff(
    changes: seq<Change>, tasks: set<TaskId>, nextId: nat, scope: Scope,
    front: seq<Entry>, x: Entry, y: Entry, rest: seq<Entry>)
    requires DistinctKeys(Run(changes).log) && scope.task in tasks
    requires Own(Run(changes).log, scope) == front + [x, y] + rest
    requires StrictlySortedBy(ReplayLeq, front + [y, x] + rest) && x.event.tool == y.event.tool
    ensures var s := Run(changes);
      var matters := MattersAfter(front, x.event, y.event);
      && (!matters ==> Project(Rebuilt(s.rows, s.log, tasks, nextId), scope) == Project(s.rows, scope))
      && (matters && rest == [] ==> Project(Rebuilt(s.rows, s.log, tasks, nextId), scope) != Project(s.rows, scope))
  {
    var s := Run(changes);
    var own, other := front + [x, y] + rest, front + [y, x] + rest;
    assert own[|front|] == x && own[|front| + 1] == y;
    assert x in Own(s.log, scope) && y in Own(s.log, scope);
    assert multiset(own) == multiset(other);
    forall e ensures e in other <==> e in own {
      assert e in other <==> e in multiset(other);
      assert e in own <==> e in multiset(own);
    }
    ReplayOrderOfScope(s.log, tasks, scope, other);
    RebuiltFromNothing(s.rows, s.log, tasks, nextId, scope);
    LiveRowsAreFolded(changes, scope);
    SwapInFold(front, x, y, rest, scope);
  }

  /**
   * So a result stamped earlier than the request it answered is not replayed as it happened, whatever came
   * before and whatever else is in the log.
   */
  lemma {:induction false} EarlyResultReplayDiffers(
    changes: seq<Change>, tasks: set<TaskId>, nextId: nat, scope: Scope, front: seq<Entry>, x: Entry, y: Entry)
    requires DistinctKeys(Run(changes).log) && scope.task in tasks
    requires Own(Run(changes).log, scope) == front + [x, y] && x.event.tool == y.event.tool
    requires StrictlySortedBy(ReplayLeq, front + [y, x])
    requires x.event.body.ApprovalRequested? && y.event.body.ApprovalResult?
    ensures var s := Run(changes); Project(Rebuilt(s.rows, s.log, tasks, nextId), scope) != Project(s.rows, scope)
  {
    assert front + [x, y] + [] == front + [x, y] && front + [y, x] + [] == front + [y, x];
    SwappedReplayIff(changes, tasks, nextId, scope, front, x, y, []);
  }

  /** Such a run exists for every task and tool and any two times. */
  lemma {:induction false} OutOfOrderReplayDiffers(
    task: TaskId, tool: string, request: Request, verdict: Verdict, early: int, late: int, nextId: nat)
    requires tool != "" && early < late
    ensures var x := Entry(0, Event(Some(task), tool, late, ApprovalRequested(request)));
      var y := Entry(1, Event(Some(task), tool, early, ApprovalResult(verdict)));
      var s := Run([Logged(x), Logged(y)]);
      && s.log == [x, y] && DistinctKeys(s.log)
      && Project(Rebuilt(s.rows, s.log, {task}, nextId), OfTask(task)) != Project(s.rows, OfTask(task))
  {
    var x := Entry(0, Event(Some(task), tool, late, ApprovalRequested(request)));
    var y := Entry(1, Event(Some(task), tool, early, ApprovalResult(verdict)));
    LateRequestDiffers(x, y, nextId, task);
  }

  lemma {:induction false} LateRequestDiffers(x: Entry, y: Entry, nextId: nat, task: TaskId)
    requires x.event.body.ApprovalRequested? && y.event.body.ApprovalResult?
    requires x.event.task == y.event.task == Some(task) && x.event.tool == y.event.tool != ""
    requires x.id != y.id && y.event.time < x.event.time
    ensures var s := Run([Logged(x), Logged(y)]);
      && s.log == [x, y] && DistinctKeys(s.log)
      && Project(Rebuilt(s.rows, s.log, {task}, nextId), OfTask(task)) != Project(s.rows, OfTask(task))
  {
    TwoLogged(x, y, OfTask(task));
    TwoStamped(x, y);
    assert [] + [x, y] == [x, y] && [] + [y, x] == [y, x];
    EarlyResultReplayDiffers([Logged(x), Logged(y)], {task}, nextId, OfTask(task), [], x, y);
  }

  lemma {:induction false} TwoLogged(x: Entry, y: Entry, scope: Scope)
    requires scope.Sees(x.event) && scope.Sees(y.event)
    ensures Run([Logged(x), Logged(y)]).log == [x, y] && Own([x, y], scope) == [x, y]
  {
    var changes := [Logged(x), Logged(y)];
    assert changes[..1] == [Logged(x)] && changes[..1][..0] == [];
    assert Run(changes[..1]).log == [x];
    assert [] + [x] == [x] && [x] + [y] == [x, y];
    OwnSnoc([], x, scope);
    OwnSnoc([x], y, scope);
  }

  lemma {:induction false} TwoStamped(x: Entry, y: Entry)
    requires x.id != y.id && x.event.task == y.event.task && y.event.time < x.event.time
    ensures DistinctKeys([x, y]) && StrictlySortedBy(ReplayLeq, [y, x])
  {
  }
}
