/** Approval rows and the events that create, merge and resolve them (shared/lib/approvals.py). */
module Approvals {
  import opened Options
  import opened Ordering

  type TaskId = int

  datatype Status = Pending | Approved | Rejected

  /** Payload of a permission_callback event. */
  datatype Callback = Callback(kind: string, threadPresent: bool)

  /** Payload of an approval_requested event; an absent field is the empty string. */
  datatype Request = Request(requestId: string, preview: string, summary: string)

  /** Payload of an approval_result event. */
  datatype Verdict = Verdict(approved: bool, reason: string, approvedBy: string)

  /** What the gateway remembers about the posted prompt; postId is empty when posting failed. */
  datatype Delivery = Delivery(postId: string, channelId: string, note: string)

  datatype Metadata = Metadata(
    callback: Option<Callback>, requested: Option<Request>, result: Option<Verdict>, delivery: Option<Delivery>)

  datatype Row = Row(
    id: nat, task: TaskId, tool: string, kind: string, status: Status,
    preview: Option<string>, reason: Option<string>, meta: Metadata,
    requestedAt: int, resolvedAt: Option<int>, updatedAt: int)
  {
    function RequestId(): string {
      if meta.requested.Some? then meta.requested.value.requestId else ""
    }
  }

  /** Event types that never touch an approval row. */
  datatype Notice =
    | QuestionRequested | QuestionDeliveryFailed | QuestionResolved | ApprovalWaitResolved
    | SessionComplete | SessionError | SessionTimeout | Unrelated

  /** The three approval events carry a payload; any other event type leaves approvals alone. */
  datatype Body =
    | PermissionCallback(callback: Callback)
    | ApprovalRequested(request: Request)
    | ApprovalResult(verdict: Verdict)
    | OtherEvent(notice: Notice)

  /** tool is the stripped tool name, empty when the payload names none. */
  datatype Event = Event(task: Option<TaskId>, tool: string, time: int, body: Body)

  const OPERATOR_APPROVAL := "operator_approval"

  function NonEmpty(text: string): Option<string> {
    if text == "" then None else Some(text)
  }

  function VerdictStatus(verdict: Verdict): Status {
    if verdict.approved then Approved else Rejected
  }

  predicate IsOpen(row: Row, task: TaskId, tool: string) {
    row.task == task && row.tool == tool && row.status == Pending
  }

  predicate HasRequest(row: Row, task: TaskId, tool: string, requestId: string) {
    row.task == task && row.tool == tool && row.RequestId() == requestId
  }

  /** Position of the most recently requested row satisfying p, later rows winning ties. */
  function Latest(rows: seq<Row>, p: Row -> bool): (r: Option<nat>)
    ensures r.Some? ==> r.value < |rows| && p(rows[r.value])
    ensures r.None? ==> forall row :: row in rows ==> !p(row)
  {
    if rows == [] then None
    else
      var last := |rows| - 1;
      var before := Latest(rows[..last], p);
      if p(rows[last]) && (before.None? || rows[before.value].requestedAt <= rows[last].requestedAt)
      then Some(last) else before
  }

  function FindOpen(rows: seq<Row>, task: TaskId, tool: string): (r: Option<nat>)
    ensures r.Some? ==> r.value < |rows| && IsOpen(rows[r.value], task, tool)
    ensures r.None? ==> forall row :: row in rows ==> !IsOpen(row, task, tool)
  {
    Latest(rows, row => IsOpen(row, task, tool))
  }

  function FindByRequest(rows: seq<Row>, task: TaskId, tool: string, requestId: string): (r: Option<nat>)
    ensures r.Some? ==> r.value < |rows| && HasRequest(rows[r.value], task, tool, requestId)
    ensures r.None? ==> forall row :: row in rows ==> !HasRequest(row, task, tool, requestId)
  {
    Latest(rows, row => HasRequest(row, task, tool, requestId))
  }

  function Opened(
    id: nat, task: TaskId, tool: string, kind: string, preview: Option<string>, meta: Metadata, time: int): Row {
    Row(id, task, tool, kind, Pending, preview, None, meta, time, None, time)
  }

  /** The row an event inserts when no open row waits for its task and tool. */
  function Inserted(id: nat, task: TaskId, e: Event): Row
    requires !e.body.OtherEvent?
  {
    match e.body
    case PermissionCallback(cb) =>
      Opened(id, task, e.tool, cb.kind, None, Metadata(Some(cb), None, None, None), e.time)
    case ApprovalRequested(rq) =>
      Opened(id, task, e.tool, OPERATOR_APPROVAL, NonEmpty(rq.preview), Metadata(None, Some(rq), None, None), e.time)
    case ApprovalResult(v) =>
      Row(id, task, e.tool, OPERATOR_APPROVAL, VerdictStatus(v), None, NonEmpty(v.reason),
          Metadata(None, None, Some(v), None), e.time, Some(e.time), e.time)
  }

  /** What an event does to the open row it finds. */
  function Merged(row: Row, e: Event): Row
    requires !e.body.OtherEvent?
  {
    match e.body
    case PermissionCallback(cb) =>
      row.(kind := cb.kind, meta := row.meta.(callback := Some(cb)), updatedAt := e.time)
    case ApprovalRequested(rq) =>
      row.(preview := if rq.preview != "" then Some(rq.preview) else row.preview,
           meta := row.meta.(requested := Some(rq)), updatedAt := e.time)
    case ApprovalResult(v) =>
      row.(status := VerdictStatus(v), reason := NonEmpty(v.reason),
           meta := row.meta.(result := Some(v)), resolvedAt := Some(e.time), updatedAt := e.time)
  }

  /** Events that apply_approval_event returns from without touching a row. */
  predicate Ignored(e: Event) {
    || e.task.None?
    || e.tool == ""
    || e.body.OtherEvent?
    || (e.body.PermissionCallback? && e.body.callback.kind != OPERATOR_APPROVAL)
  }

  /** Position of the row an event creates or changes. */
  function Touched(rows: seq<Row>, e: Event): (r: Option<nat>)
    ensures r.None? <==> Ignored(e)
    ensures r.Some? && r.value < |rows| ==> IsOpen(rows[r.value], e.task.value, e.tool)
    ensures r.Some? && r.value >= |rows| ==>
      r.value == |rows| && forall row :: row in rows ==> !IsOpen(row, e.task.value, e.tool)
  {
    if Ignored(e) then None
    else
      var open := FindOpen(rows, e.task.value, e.tool);
      if open.Some? then open else Some(|rows|)
  }

  /** apply_approval_event on the rows; id names the row if one is inserted. */
  function Apply(rows: seq<Row>, e: Event, id: nat): seq<Row> {
    if Ignored(e) then rows
    else
      var open := FindOpen(rows, e.task.value, e.tool);
      if open.Some? then rows[open.value := Merged(rows[open.value], e)]
      else rows + [Inserted(id, e.task.value, e)]
  }

  /** Apply changes or adds exactly the row that Touched names, which then is of the event's task, tool and time. */
  lemma {:induction false} TouchedIsTheChange(rows: seq<Row>, e: Event, id: nat)
    ensures var now, r := Apply(rows, e, id), Touched(rows, e);
      && (r.None? ==> now == rows)
      && (r.Some? ==>
            && |now| == (if r.value < |rows| then |rows| else |rows| + 1)
            && now[r.value].task == e.task.value && now[r.value].tool == e.tool && now[r.value].updatedAt == e.time
            && (forall i :: 0 <= i < |rows| && i != r.value ==> now[i] == rows[i])
            && (now[r.value].status == Pending <==> !e.body.ApprovalResult?))
  {
    var r := Touched(rows, e);
    assert r.Some? && r.value < |rows| ==> FindOpen(rows, e.task.value, e.tool) == r;
  }

  // ----- what every event keeps -----

  /** No two rows wait for the same task and tool. */
  ghost predicate OnePending(rows: seq<Row>) {
    forall i, j :: 0 <= i < j < |rows| && rows[i].status == Pending && rows[j].status == Pending
      ==> rows[i].task != rows[j].task || rows[i].tool != rows[j].tool
  }

  /** The row an operator looks at while it waits is the only row the next result can resolve. */
  lemma {:induction false} OpenRowIsUnique(rows: seq<Row>, i: nat)
    requires OnePending(rows) && i < |rows| && rows[i].status == Pending
    ensures FindOpen(rows, rows[i].task, rows[i].tool) == Some(i)
  {
    var r := FindOpen(rows, rows[i].task, rows[i].tool);
    assert IsOpen(rows[i], rows[i].task, rows[i].tool);
    assert rows[i] in rows;
    assert r.Some?;
  }

  lemma {:induction false} ApplyKeepsOnePending(rows: seq<Row>, e: Event, id: nat)
    requires OnePending(rows)
    ensures OnePending(Apply(rows, e, id))
  {
    var out := Apply(rows, e, id);
    if !Ignored(e) {
      var open := FindOpen(rows, e.task.value, e.tool);
      forall i, j | 0 <= i < j < |out| && out[i].status == Pending && out[j].status == Pending
        ensures out[i].task != out[j].task || out[i].tool != out[j].tool
      {
        assert rows[i].status == Pending && out[i].task == rows[i].task && out[i].tool == rows[i].tool;
        if open.None? && j == |rows| {
          assert rows[i] in rows;
        }
      }
    }
  }

  /** A resolved row never changes again, and no event removes or reorders rows. */
  lemma {:induction false} ResolvedRowsAreFinal(rows: seq<Row>, e: Event, id: nat, i: nat)
    requires i < |rows| && rows[i].status != Pending
    ensures i < |Apply(rows, e, id)| && Apply(rows, e, id)[i] == rows[i]
  {
  }

  /** The id, task and tool of a row are fixed when it is inserted. */
  lemma {:induction false} ApplyKeepsIdentity(rows: seq<Row>, e: Event, id: nat, i: nat)
    requires i < |rows|
    ensures i < |Apply(rows, e, id)|
    ensures var row := Apply(rows, e, id)[i]; row.id == rows[i].id && row.task == rows[i].task && row.tool == rows[i].tool
  {
  }

  // ----- the table itself -----

  /** One entry of the session event log; id is the random key that breaks timestamp ties. */
  datatype Entry = Entry(id: int, event: Event)

  function Fold(rows: seq<Row>, log: seq<Entry>, nextId: nat): seq<Row>
    decreases |log|
  {
    if log == [] then rows
    else
      var last := |log| - 1;
      Apply(Fold(rows, log[..last], nextId), log[last].event, nextId + last)
  }

  function Effective(log: seq<Entry>): nat {
    if log == [] then 0 else Effective(log[..|log| - 1]) + (if Ignored(log[|log| - 1].event) then 0 else 1)
  }

  predicate InReplay(tasks: set<TaskId>, entry: Entry) {
    entry.event.task.Some? && entry.event.task.value in tasks && !entry.event.body.OtherEvent?
  }

  /** The order the replay reads the log in: task, then timestamp, then key. */
  predicate ReplayLeq(a: Entry, b: Entry) {
    var ta := if a.event.task.Some? then a.event.task.value else 0;
    var tb := if b.event.task.Some? then b.event.task.value else 0;
    ta < tb || (ta == tb && (a.event.time < b.event.time || (a.event.time == b.event.time && a.id <= b.id)))
  }

  /** The log entries the replay selects. */
  function Picked(log: seq<Entry>, tasks: set<TaskId>): (r: seq<Entry>)
    ensures forall x :: x in r <==> x in log && InReplay(tasks, x)
  {
    if log == [] then []
    else
      var last := |log| - 1;
      if InReplay(tasks, log[last]) then Picked(log[..last], tasks) + [log[last]] else Picked(log[..last], tasks)
  }

  function ReplayOrder(log: seq<Entry>, tasks: set<TaskId>): seq<Entry> {
    Sort(ReplayLeq, Picked(log, tasks))
  }

  function KeepOthers(rows: seq<Row>, tasks: set<TaskId>): seq<Row> {
    if rows == [] then []
    else
      var last := |rows| - 1;
      if rows[last].task in tasks then KeepOthers(rows[..last], tasks) else KeepOthers(rows[..last], tasks) + [rows[last]]
  }

  function Rebuilt(rows: seq<Row>, log: seq<Entry>, tasks: set<TaskId>, nextId: nat): seq<Row> {
    Fold(KeepOthers(rows, tasks), ReplayOrder(log, tasks), nextId)
  }

  class ApprovalTable {
    var rows: seq<Row>
    var nextId: nat

    constructor ()
      ensures rows == [] && nextId == 0
    {
      rows, nextId := [], 0;
    }

    method FindOpenApproval(task: TaskId, tool: string) returns (found: Option<nat>)
      ensures found == FindOpen(rows, task, tool)
    {
      found := None;
      var i := 0;
      while i < |rows|
        invariant i <= |rows|
        invariant found == FindOpen(rows[..i], task, tool)
      {
        assert rows[..i + 1][..i] == rows[..i];
        if IsOpen(rows[i], task, tool) && (found.None? || rows[found.value].requestedAt <= rows[i].requestedAt) {
          found := Some(i);
        }
        i := i + 1;
      }
      assert rows[..i] == rows;
    }

    method FindApprovalByRequest(task: TaskId, tool: string, requestId: string) returns (found: Option<nat>)
      ensures found == FindByRequest(rows, task, tool, requestId)
    {
      found := None;
      var i := 0;
      while i < |rows|
        invariant i <= |rows|
        invariant found == FindByRequest(rows[..i], task, tool, requestId)
      {
        assert rows[..i + 1][..i] == rows[..i];
        if HasRequest(rows[i], task, tool, requestId)
           && (found.None? || rows[found.value].requestedAt <= rows[i].requestedAt) {
          found := Some(i);
        }
        i := i + 1;
      }
      assert rows[..i] == rows;
    }

    method ApplyApprovalEvent(e: Event) returns (touched: Option<nat>)
      modifies this
      ensures rows == Apply(old(rows), e, old(nextId)) && nextId == old(nextId) + 1
      ensures touched == Touched(old(rows), e)
    {
      touched := None;
      if !Ignored(e) {
        touched := FindOpenApproval(e.task.value, e.tool);
        if touched.None? {
          touched := Some(|rows|);
          rows := rows + [Inserted(nextId, e.task.value, e)];
        } else {
          rows := rows[touched.value := Merged(rows[touched.value], e)];
        }
      }
      nextId := nextId + 1;
    }

    /** Deletes the tasks' rows and replays their events from the log. */
    method BackfillApprovals(log: seq<Entry>, tasks: set<TaskId>) returns (applied: nat)
      modifies this
      ensures tasks == {} ==> rows == old(rows) && applied == 0
      ensures tasks != {} ==>
        && rows == Rebuilt(old(rows), log, tasks, old(nextId))
        && applied == Effective(ReplayOrder(log, tasks))
    {
      if tasks == {} { return 0; }
      rows := KeepOthers(rows, tasks);
      applied := ApplyInOrder(ReplayOrder(log, tasks));
    }

    method ApplyInOrder(events: seq<Entry>) returns (applied: nat)
      modifies this
      ensures rows == Fold(old(rows), events, old(nextId)) && nextId == old(nextId) + |events|
      ensures applied == Effective(events)
    {
      applied := 0;
      var i := 0;
      while i < |events|
        invariant i <= |events| && nextId == old(nextId) + i
        invariant rows == Fold(old(rows), events[..i], old(nextId))
        invariant applied == Effective(events[..i])
      {
        FoldSnoc(old(rows), events, i, old(nextId));
        var touched := ApplyApprovalEvent(events[i].event);
        if touched.Some? { applied := applied + 1; }
        i := i + 1;
      }
      assert events[..i] == events;
    }
  }

  lemma {:induction false} FoldSnoc(rows: seq<Row>, log: seq<Entry>, i: nat, nextId: nat)
    requires i < |log|
    ensures Fold(rows, log[..i + 1], nextId) == Apply(Fold(rows, log[..i], nextId), log[i].event, nextId + i)
    ensures Effective(log[..i + 1]) == Effective(log[..i]) + (if Ignored(log[i].event) then 0 else 1)
  {
    assert log[..i + 1][..i] == log[..i];
  }
}
