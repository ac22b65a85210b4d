/**
 * The approval protocol: runtimes ask, the gateway merges requests and posts prompts, operators click,
 * runtimes poll and wait to be re-admitted. Every action is one database transaction or one awaited call.
 */
module Protocol {
  import opened Options
  import opened Approvals

  datatype TaskStatus =
    | Queued | Running | WaitingApproval | WaitingUserInput | ResumePending | Succeeded | Failed | TimedOut | Lost

  /** A posted message with Approve and Reject buttons; the buttons carry the row and request they were made for. */
  datatype Prompt = Prompt(rowId: nat, requestId: string, postId: string, channelId: string)

  /** ResponseLost: the message is there, but its post id never reached the gateway. */
  datatype PostOutcome =
    | CannotDeliver
    | PostFailed(error: string)
    | ResponseLost(postId: string, channelId: string, error: string)
    | Posted(postId: string, channelId: string)

  predicate LeavesPrompt(post: PostOutcome) { post.Posted? || post.ResponseLost? }

  datatype Store = Store(rows: seq<Row>, nextId: nat, statuses: map<TaskId, TaskStatus>, prompts: set<Prompt>)

  // ----- the gateway -----

  function PostId(row: Row): string {
    if row.meta.delivery.Some? then row.meta.delivery.value.postId else ""
  }

  function ChannelId(row: Row): string {
    if row.meta.delivery.Some? then row.meta.delivery.value.channelId else ""
  }

  predicate NeedsPrompt(row: Row) {
    row.status == Pending && PostId(row) == ""
  }

  function WithDelivery(row: Row, d: Delivery, now: int): Row {
    row.(meta := row.meta.(delivery := Some(d)), updatedAt := now)
  }

  /** ensure_approval_prompt_posted on row i. */
  function EnsurePosted(s: Store, i: nat, post: PostOutcome, now: int): Store
    requires i < |s.rows|
  {
    var row := s.rows[i];
    if !NeedsPrompt(row) then s
    else match post
      case CannotDeliver => s
      case PostFailed(error) => s.(rows := s.rows[i := WithDelivery(row, Delivery("", "", error), now)])
      case ResponseLost(postId, channelId, error) =>
        s.(rows := s.rows[i := WithDelivery(row, Delivery("", "", error), now)],
           prompts := s.prompts + {Prompt(row.id, row.RequestId(), postId, channelId)})
      case Posted(postId, channelId) =>
        s.(rows := s.rows[i := WithDelivery(row, Delivery(postId, channelId, ""), now)],
           prompts := s.prompts + {Prompt(row.id, row.RequestId(), postId, channelId)})
  }

  /** The status an event moves its task to, once approvals have been updated. */
  function StatusAfter(status: TaskStatus, e: Event, waiting: bool): TaskStatus {
    match e.body
    case ApprovalRequested(_) => if waiting then WaitingApproval else status
    case OtherEvent(notice) => (
      match notice
      case QuestionRequested | QuestionDeliveryFailed => WaitingUserInput
      case QuestionResolved | ApprovalWaitResolved => ResumePending
      case SessionComplete => if status == WaitingApproval || status == WaitingUserInput then status else Succeeded
      case SessionError => Failed
      case SessionTimeout => TimedOut
      case Unrelated => status)
    case _ => status
  }

  function Recorded(s: Store, e: Event): Store {
    s.(rows := Apply(s.rows, e, s.nextId), nextId := s.nextId + 1)
  }

  /** receive_event: an event naming no known task changes nothing. */
  function Receive(s: Store, e: Event, post: PostOutcome, now: int): Store {
    if e.task.None? || e.task.value !in s.statuses then s
    else
      var touched := Touched(s.rows, e);
      var applied := Recorded(s, e);
      var posted := if e.body.ApprovalRequested? && touched.Some? then EnsurePosted(applied, touched.value, post, now) else applied;
      var waiting := touched.Some? && posted.rows[touched.value].status == Pending;
      posted.(statuses := posted.statuses[e.task.value := StatusAfter(posted.statuses[e.task.value], e, waiting)])
  }

  datatype Decision = Approve | Reject | Unsupported

  datatype Refusal =
    | UnsupportedAction | ApprovalNotFound | TaskNotFound | NoLongerMatches | WrongPrompt | WrongChannel

  datatype Outcome = Refused(why: Refusal) | AlreadyResolved(status: Status) | Resolved(approved: bool)

  function FindById(rows: seq<Row>, id: nat): (r: Option<nat>)
    ensures r.Some? ==> r.value < |rows| && rows[r.value].id == id
    ensures r.None? ==> forall row :: row in rows ==> row.id != id
  {
    if rows == [] then None
    else
      var last := |rows| - 1;
      if rows[last].id == id then Some(last) else FindById(rows[..last], id)
  }

  function VerdictEvent(row: Row, approve: bool, user: string, now: int): Event {
    Event(Some(row.task), row.tool, now,
          ApprovalResult(Verdict(approve, if approve then "" else "Approval rejected in message provider by " + user, user)))
  }

  /** The checks of resolve_approval_action, in order; None means the click goes through. */
  function ClickProblem(
    s: Store, rowId: nat, requestId: string, decision: Decision, postId: string, channelId: string): (r: Option<Outcome>)
    ensures r.None? ==> FindById(s.rows, rowId).Some? && decision != Unsupported
  {
    if decision == Unsupported then Some(Refused(UnsupportedAction))
    else
      var at := FindById(s.rows, rowId);
      if at.None? then Some(Refused(ApprovalNotFound))
      else
        var row := s.rows[at.value];
        if row.task !in s.statuses then Some(Refused(TaskNotFound))
        else
          var matched := FindByRequest(s.rows, row.task, row.tool, requestId);
          if requestId != "" && (matched.None? || s.rows[matched.value].id != row.id) then Some(Refused(NoLongerMatches))
          else if PostId(row) != "" && postId != "" && PostId(row) != postId then Some(Refused(WrongPrompt))
          else if ChannelId(row) != "" && channelId != "" && ChannelId(row) != channelId then Some(Refused(WrongChannel))
          else if row.status != Pending then Some(AlreadyResolved(row.status))
          else None
  }

  function ClickOutcome(
    s: Store, rowId: nat, requestId: string, decision: Decision, postId: string, channelId: string): Outcome {
    var problem := ClickProblem(s, rowId, requestId, decision, postId, channelId);
    if problem.Some? then problem.value else Resolved(decision == Approve)
  }

  /** resolve_approval_action: note that the result is applied by task and tool, not by row. */
  function ClickResult(
    s: Store, rowId: nat, requestId: string, decision: Decision, user: string, postId: string, channelId: string, now: int): Store
  {
    if ClickProblem(s, rowId, requestId, decision, postId, channelId).Some? then s
    else Recorded(s, VerdictEvent(s.rows[FindById(s.rows, rowId).value], decision == Approve, user, now))
  }

  /** The gateway's database, updated in place. */
  class Gateway {
    const table: ApprovalTable
    var statuses: map<TaskId, TaskStatus>
    var prompts: set<Prompt>

    function State(): Store
      reads this, table
    {
      Store(table.rows, table.nextId, statuses, prompts)
    }

    constructor (statuses: map<TaskId, TaskStatus>)
      ensures State() == Store([], 0, statuses, {}) && fresh(table)
    {
      table := new ApprovalTable();
      this.statuses := statuses;
      prompts := {};
    }

    method EnsureApprovalPromptPosted(i: nat, post: PostOutcome, now: int)
      requires i < |table.rows|
      modifies this, table
      ensures State() == EnsurePosted(old(State()), i, post, now)
    {
      var row := table.rows[i];
      if row.status != Pending || PostId(row) != "" { return; }
      match post
      case CannotDeliver =>
      case PostFailed(error) =>
        table.rows := table.rows[i := WithDelivery(row, Delivery("", "", error), now)];
      case ResponseLost(postId, channelId, error) =>
        table.rows := table.rows[i := WithDelivery(row, Delivery("", "", error), now)];
        prompts := prompts + {Prompt(row.id, row.RequestId(), postId, channelId)};
      case Posted(postId, channelId) =>
        table.rows := table.rows[i := WithDelivery(row, Delivery(postId, channelId, ""), now)];
        prompts := prompts + {Prompt(row.id, row.RequestId(), postId, channelId)};
    }

    method ReceiveEvent(e: Event, post: PostOutcome, now: int)
      modifies this, table
      ensures State() == Receive(old(State()), e, post, now)
    {
      if e.task.None? || e.task.value !in statuses { return; }
      var task := e.task.value;
      var touched := table.ApplyApprovalEvent(e);
      if e.body.ApprovalRequested? && touched.Some? {
        EnsureApprovalPromptPosted(touched.value, post, now);
      }
      var waiting := touched.Some? && table.rows[touched.value].status == Pending;
      statuses := statuses[task := StatusAfter(statuses[task], e, waiting)];
    }

    method FindRow(id: nat) returns (found: Option<nat>)
      ensures found == FindById(table.rows, id)
    {
      found := None;
      var i := 0;
      while i < |table.rows|
        invariant i <= |table.rows|
        invariant found == FindById(table.rows[..i], id)
      {
        assert table.rows[..i + 1][..i] == table.rows[..i];
        if table.rows[i].id == id { found := Some(i); }
        i := i + 1;
      }
      assert table.rows[..i] == table.rows;
    }

    method CheckClick(rowId: nat, requestId: string, decision: Decision, postId: string, channelId: string)
      returns (problem: Option<Outcome>, at: nat)
      ensures problem == ClickProblem(State(), rowId, requestId, decision, postId, channelId)
      ensures problem.None? ==> FindById(table.rows, rowId) == Some(at)
    {
      at := 0;
      if decision == Unsupported { return Some(Refused(UnsupportedAction)), 0; }
      var found := FindRow(rowId);
      if found.None? { return Some(Refused(ApprovalNotFound)), 0; }
      at := found.value;
      var row := table.rows[at];
      if row.task !in statuses { return Some(Refused(TaskNotFound)), at; }
      if requestId != "" {
        var matched := table.FindApprovalByRequest(row.task, row.tool, requestId);
        if matched.None? || table.rows[matched.value].id != row.id { return Some(Refused(NoLongerMatches)), at; }
      }
      if PostId(row) != "" && postId != "" && PostId(row) != postId { return Some(Refused(WrongPrompt)), at; }
      if ChannelId(row) != "" && channelId != "" && ChannelId(row) != channelId {
        return Some(Refused(WrongChannel)), at;
      }
      problem := if row.status != Pending then Some(AlreadyResolved(row.status)) else None;
    }

    method ResolveApprovalAction(
      rowId: nat, requestId: string, decision: Decision, user: string, postId: string, channelId: string, now: int)
      returns (outcome: Outcome)
      modifies this, table
      ensures outcome == ClickOutcome(old(State()), rowId, requestId, decision, postId, channelId)
      ensures State() == ClickResult(old(State()), rowId, requestId, decision, user, postId, channelId, now)
    {
      var problem, at := CheckClick(rowId, requestId, decision, postId, channelId);
      if problem.Some? { return problem.value; }
      var touched := table.ApplyApprovalEvent(VerdictEvent(table.rows[at], decision == Approve, user, now));
      outcome := Resolved(decision == Approve);
    }
  }

  // ----- runtimes -----

  type CallId = nat

  /** One gated tool call inside a runtime. */
  datatype Call =
    | Gated(task: TaskId, tool: string)
    | Polling(task: TaskId, tool: string, requestId: string)
    | Resuming(task: TaskId, tool: string, requestId: string, approved: bool)
    | Returned(task: TaskId, tool: string, requestId: string, approved: bool)
    | Raised

  datatype Click = Click(rowId: nat, requestId: string, approve: bool)

  /** clicks and used only record history: the accepted clicks and the request ids handed out. */
  datatype World = World(store: Store, calls: map<CallId, Call>, clicks: seq<Click>, used: set<string>)

  datatype Action =
    | Gate(call: CallId, task: TaskId, tool: string, delivered: bool, time: int)
    | Ask(call: CallId, requestId: string, preview: string, delivered: bool, post: PostOutcome, time: int)
    | Press(prompt: Prompt, decision: Decision, user: string, postId: string, channelId: string, time: int)
    | Poll(call: CallId, delivered: bool, time: int)
    | GiveUp(call: CallId)
    | Admit(call: CallId)
    | AdmissionTimeout(call: CallId)
    | Readmit(task: TaskId)
    | Elsewhere(task: TaskId, notice: Notice, time: int)

  function Delivered(s: Store, delivered: bool, e: Event, post: PostOutcome, now: int): Store {
    if delivered then Receive(s, e, post, now) else s
  }

  predicate Ended(status: TaskStatus) {
    status == Failed || status == Lost || status == TimedOut || status == Succeeded
  }

  /** One action; an action whose guard does not hold changes nothing. */
  function Next(w: World, a: Action): World {
    match a
    case Gate(c, task, tool, delivered, time) =>
      if c in w.calls || tool == "" then w
      else
        var e := Event(Some(task), tool, time, PermissionCallback(Callback(OPERATOR_APPROVAL, true)));
        w.(store := Delivered(w.store, delivered, e, CannotDeliver, time), calls := w.calls[c := Gated(task, tool)])
    case Ask(c, requestId, preview, delivered, post, time) =>
      if c !in w.calls || !w.calls[c].Gated? || requestId == "" || requestId in w.used then w
      else
        var call := w.calls[c];
        var e := Event(Some(call.task), call.tool, time, ApprovalRequested(Request(requestId, preview, "")));
        w.(store := Delivered(w.store, delivered, e, post, time),
           calls := w.calls[c := Polling(call.task, call.tool, requestId)],
           used := w.used + {requestId})
    case Press(p, decision, user, postId, channelId, time) =>
      if p !in w.store.prompts then w
      else
        var outcome := ClickOutcome(w.store, p.rowId, p.requestId, decision, postId, channelId);
        w.(store := ClickResult(w.store, p.rowId, p.requestId, decision, user, postId, channelId, time),
           clicks := if outcome.Resolved? then w.clicks + [Click(p.rowId, p.requestId, decision == Approve)] else w.clicks)
    case Poll(c, delivered, time) =>
      if c !in w.calls || !w.calls[c].Polling? then w
      else
        var call := w.calls[c];
        var at := FindByRequest(w.store.rows, call.task, call.tool, call.requestId);
        if at.None? || w.store.rows[at.value].status == Pending then w
        else
          var e := Event(Some(call.task), call.tool, time, OtherEvent(ApprovalWaitResolved));
          w.(store := Delivered(w.store, delivered, e, CannotDeliver, time),
             calls := w.calls[c := Resuming(call.task, call.tool, call.requestId, w.store.rows[at.value].status == Approved)])
    case GiveUp(c) =>
      if c !in w.calls || !w.calls[c].Polling? then w
      else w.(calls := w.calls[c := Returned(w.calls[c].task, w.calls[c].tool, w.calls[c].requestId, false)])
    case Admit(c) =>
      if c !in w.calls || !w.calls[c].Resuming? || w.calls[c].task !in w.store.statuses then w
      else
        var call := w.calls[c];
        var status := w.store.statuses[call.task];
        if status == Running then w.(calls := w.calls[c := Returned(call.task, call.tool, call.requestId, call.approved)])
        else if Ended(status) then w.(calls := w.calls[c := Raised])
        else w
    case AdmissionTimeout(c) =>
      if c !in w.calls || !w.calls[c].Resuming? then w else w.(calls := w.calls[c := Raised])
    case Readmit(task) =>
      if task in w.store.statuses && w.store.statuses[task] == ResumePending
      then w.(store := w.store.(statuses := w.store.statuses[task := Running])) else w
    case Elsewhere(task, notice, time) =>
      w.(store := Receive(w.store, Event(Some(task), "", time, OtherEvent(notice)), CannotDeliver, time))
  }

  function Run(w: World, actions: seq<Action>): World
    decreases |actions|
  {
    if actions == [] then w else Next(Run(w, actions[..|actions| - 1]), actions[|actions| - 1])
  }

  function Start(statuses: map<TaskId, TaskStatus>): World {
    World(Store([], 0, statuses, {}), map[], [], {})
  }

  // ----- what every action keeps -----

  ghost predicate RowsOk(s: Store, used: set<string>) {
    && OnePending(s.rows)
    && (forall i, j :: 0 <= i < j < |s.rows| ==> s.rows[i].id != s.rows[j].id)
    && (forall i :: 0 <= i < |s.rows| ==> s.rows[i].id < s.nextId && s.rows[i].tool != "" && s.rows[i].task in s.statuses)
    && (forall i :: 0 <= i < |s.rows| && s.rows[i].RequestId() != "" ==> s.rows[i].RequestId() in used)
    && (forall i, j :: 0 <= i < j < |s.rows| && s.rows[i].RequestId() != "" ==> s.rows[i].RequestId() != s.rows[j].RequestId())
  }

  /** A resolved row was resolved by an accepted click on a prompt naming its row and its request. */
  ghost predicate Witnessed(row: Row, clicks: seq<Click>) {
    row.status != Pending ==> row.RequestId() != "" && Click(row.id, row.RequestId(), row.status == Approved) in clicks
  }

  ghost predicate RowsWitnessed(rows: seq<Row>, clicks: seq<Click>) {
    forall i :: 0 <= i < |rows| ==> Witnessed(rows[i], clicks)
  }

  ghost predicate DecidedBy(rows: seq<Row>, task: TaskId, tool: string, requestId: string, approved: bool) {
    exists i :: 0 <= i < |rows| && HasRequest(rows[i], task, tool, requestId)
      && rows[i].status == (if approved then Approved else Rejected)
  }

  ghost predicate CallOk(call: Call, rows: seq<Row>, used: set<string>) {
    match call
    case Gated(_, tool) => tool != ""
    case Polling(_, _, requestId) => requestId != "" && requestId in used
    case Resuming(task, tool, requestId, approved) =>
      requestId != "" && requestId in used && DecidedBy(rows, task, tool, requestId, approved)
    case Returned(task, tool, requestId, approved) =>
      requestId != "" && requestId in used && (approved ==> DecidedBy(rows, task, tool, requestId, true))
    case Raised => true
  }

  function Token(call: Call): string {
    match call
    case Polling(_, _, requestId) => requestId
    case Resuming(_, _, requestId, _) => requestId
    case Returned(_, _, requestId, _) => requestId
    case _ => ""
  }

  ghost predicate PromptsOk(prompts: set<Prompt>, used: set<string>) {
    forall p :: p in prompts ==> p.requestId != "" && p.requestId in used
  }

  ghost predicate CallsOk(calls: map<CallId, Call>, rows: seq<Row>, used: set<string>) {
    forall c :: c in calls ==> CallOk(calls[c], rows, used)
  }

  ghost predicate TokensDiffer(calls: map<CallId, Call>) {
    forall c, d :: c in calls && d in calls && c != d && Token(calls[c]) != "" ==> Token(calls[c]) != Token(calls[d])
  }

  ghost predicate Inv(w: World) {
    && RowsOk(w.store, w.used)
    && RowsWitnessed(w.store.rows, w.clicks)
    && PromptsOk(w.store.prompts, w.used)
    && CallsOk(w.calls, w.store.rows, w.used)
    && TokensDiffer(w.calls)
  }

  /** Rows only ever grow, keep their key, task and tool, and are frozen once resolved. */
  ghost predicate Extends(before: seq<Row>, after: seq<Row>) {
    && |before| <= |after|
    && forall i :: 0 <= i < |before| ==>
      && after[i].id == before[i].id && after[i].task == before[i].task && after[i].tool == before[i].tool
      && (before[i].status != Pending ==> after[i] == before[i])
  }

  lemma {:induction false} ExtendsKeepsDecision(
    before: seq<Row>, after: seq<Row>, task: TaskId, tool: string, requestId: string, approved: bool)
    requires Extends(before, after) && DecidedBy(before, task, tool, requestId, approved)
    ensures DecidedBy(after, task, tool, requestId, approved)
  {
    var i :| 0 <= i < |before| && HasRequest(before[i], task, tool, requestId)
      && before[i].status == (if approved then Approved else Rejected);
    assert after[i] == before[i];
  }

  lemma {:induction false} ExtendsKeepsCalls(
    before: seq<Row>, after: seq<Row>, calls: map<CallId, Call>, used: set<string>, more: set<string>)
    requires Extends(before, after) && used <= more
    requires CallsOk(calls, before, used)
    ensures CallsOk(calls, after, more)
  {
    forall c | c in calls ensures CallOk(calls[c], after, more) {
      assert CallOk(calls[c], before, used);
      match calls[c]
      case Resuming(task, tool, requestId, approved) =>
        ExtendsKeepsDecision(before, after, task, tool, requestId, approved);
      case Returned(task, tool, requestId, approved) =>
        if approved { ExtendsKeepsDecision(before, after, task, tool, requestId, true); }
      case _ =>
    }
  }

  // ----- one event at the gateway -----

  lemma {:induction false} RecordedExtends(s: Store, e: Event)
    ensures Extends(s.rows, Recorded(s, e).rows)
  {
  }

  /** Where an event touches the rows, and what it leaves of the row it finds. */
  lemma {:induction false} RecordedAt(s: Store, e: Event) returns (at: nat)
    requires !Ignored(e)
    ensures at <= |s.rows| && |Recorded(s, e).rows| == (if at < |s.rows| then |s.rows| else |s.rows| + 1)
    ensures forall i :: 0 <= i < |s.rows| && i != at ==> Recorded(s, e).rows[i] == s.rows[i]
    ensures var row := Recorded(s, e).rows[at];
      && row.task == e.task.value && row.tool == e.tool
      && row.id == (if at < |s.rows| then s.rows[at].id else s.nextId)
      && row.RequestId() == (if e.body.ApprovalRequested? then e.body.request.requestId
                             else if at < |s.rows| then s.rows[at].RequestId() else "")
  {
    var open := FindOpen(s.rows, e.task.value, e.tool);
    at := if open.Some? then open.value else |s.rows|;
  }

  /** An event about no request, or about a request id nobody has used, keeps the rows well formed. */
  lemma {:induction false} RecordedOk(s: Store, e: Event, used: set<string>, more: set<string>)
    requires RowsOk(s, used) && used <= more
    requires e.task.Some? && e.task.value in s.statuses
    requires e.body.ApprovalRequested? ==> e.body.request.requestId !in used && e.body.request.requestId in more
    ensures RowsOk(Recorded(s, e), more)
  {
    ApplyKeepsOnePending(s.rows, e, s.nextId);
    if !Ignored(e) {
      var at := RecordedAt(s, e);
      RowsStayOk(s, Recorded(s, e), at, used, more);
    }
  }

  lemma {:induction false} RowsStayOk(s: Store, out: Store, at: nat, used: set<string>, more: set<string>)
    requires RowsOk(s, used) && used <= more && OnePending(out.rows)
    requires out.nextId == s.nextId + 1 && out.statuses == s.statuses
    requires at <= |s.rows| && |out.rows| == (if at < |s.rows| then |s.rows| else |s.rows| + 1)
    requires forall i :: 0 <= i < |s.rows| && i != at ==> out.rows[i] == s.rows[i]
    requires out.rows[at].id == (if at < |s.rows| then s.rows[at].id else s.nextId)
    requires out.rows[at].tool != "" && out.rows[at].task in s.statuses
    requires var id := out.rows[at].RequestId();
      id == "" || (id !in used && id in more) || (at < |s.rows| && id == s.rows[at].RequestId())
    ensures RowsOk(out, more)
  {
  }

  lemma {:induction false} PostedOk(s: Store, i: nat, post: PostOutcome, now: int, used: set<string>)
    requires i < |s.rows| && RowsOk(s, used)
    ensures var out := EnsurePosted(s, i, post, now);
      && RowsOk(out, used) && Extends(s.rows, out.rows) && out.statuses == s.statuses
      && (forall k :: 0 <= k < |out.rows| ==>
            && out.rows[k].status == s.rows[k].status && out.rows[k].RequestId() == s.rows[k].RequestId())
      && (forall p :: p in out.prompts && p !in s.prompts ==> p.requestId == s.rows[i].RequestId())
  {
    var out := EnsurePosted(s, i, post, now);
    assert |out.rows| == |s.rows|;
    assert forall k :: 0 <= k < |s.rows| ==>
      && out.rows[k].id == s.rows[k].id && out.rows[k].task == s.rows[k].task && out.rows[k].tool == s.rows[k].tool
      && out.rows[k].status == s.rows[k].status && out.rows[k].RequestId() == s.rows[k].RequestId();
  }

  /** What a store step that resolves nothing keeps. */
  ghost predicate Keeps(s: Store, out: Store, more: set<string>, clicks: seq<Click>) {
    && RowsOk(out, more) && Extends(s.rows, out.rows) && RowsWitnessed(out.rows, clicks)
    && (PromptsOk(s.prompts, more) ==> PromptsOk(out.prompts, more))
  }

  lemma {:induction false} RecordedKeeps(s: Store, e: Event, used: set<string>, more: set<string>, clicks: seq<Click>)
    requires RowsOk(s, used) && RowsWitnessed(s.rows, clicks) && used <= more
    requires e.task.Some? && e.task.value in s.statuses && !e.body.ApprovalResult?
    requires e.body.ApprovalRequested? ==> e.body.request.requestId !in used && e.body.request.requestId in more
    ensures Keeps(s, Recorded(s, e), more, clicks)
  {
    RecordedOk(s, e, used, more);
    RecordedExtends(s, e);
    var out := Recorded(s, e);
    forall i | 0 <= i < |out.rows| ensures Witnessed(out.rows[i], clicks) {
      if i < |s.rows| { assert Witnessed(s.rows[i], clicks); }
    }
  }

  lemma {:induction false} PostedKeeps(s: Store, i: nat, post: PostOutcome, now: int, used: set<string>, clicks: seq<Click>)
    requires i < |s.rows| && RowsOk(s, used) && RowsWitnessed(s.rows, clicks) && s.rows[i].RequestId() != ""
    ensures Keeps(s, EnsurePosted(s, i, post, now), used, clicks)
  {
    PostedOk(s, i, post, now, used);
    var out := EnsurePosted(s, i, post, now);
    forall k | 0 <= k < |out.rows| ensures Witnessed(out.rows[k], clicks) {
      assert Witnessed(s.rows[k], clicks);
    }
  }

  lemma {:induction false} KeepsTransitive(a: Store, b: Store, c: Store, more: set<string>, clicks: seq<Click>)
    requires Keeps(a, b, more, clicks) && Keeps(b, c, more, clicks)
    ensures Keeps(a, c, more, clicks)
  {
  }

  /** Asking and gating never resolve a row. */
  lemma {:induction false} ReceiveKeeps(
    s: Store, e: Event, post: PostOutcome, now: int, used: set<string>, more: set<string>, clicks: seq<Click>)
    requires RowsOk(s, used) && RowsWitnessed(s.rows, clicks) && used <= more
    requires !e.body.ApprovalResult?
    requires e.body.ApprovalRequested? ==>
      e.tool != "" && e.body.request.requestId != "" && e.body.request.requestId !in used && e.body.request.requestId in more
    ensures Keeps(s, Receive(s, e, post, now), more, clicks)
  {
    if e.task.Some? && e.task.value in s.statuses {
      var applied := Recorded(s, e);
      RecordedKeeps(s, e, used, more, clicks);
      if e.body.ApprovalRequested? {
        var at := Touched(s.rows, e).value;
        assert applied.rows[at].RequestId() == e.body.request.requestId;
        PostedKeeps(applied, at, post, now, more, clicks);
        KeepsTransitive(s, applied, EnsurePosted(applied, at, post, now), more, clicks);
      }
    }
  }

  /** Changing one call, to one with the same request id or with a new one. */
  lemma {:induction false} CallStep(calls: map<CallId, Call>, c: CallId, call: Call, rows: seq<Row>, used: set<string>)
    requires CallsOk(calls, rows, used) && TokensDiffer(calls) && CallOk(call, rows, used)
    requires Token(call) == "" || (c in calls && Token(call) == Token(calls[c]))
             || (forall d :: d in calls ==> Token(calls[d]) != Token(call))
    ensures CallsOk(calls[c := call], rows, used) && TokensDiffer(calls[c := call])
  {
  }

  /** The row a click names is the row its result resolves. */
  lemma {:induction false} ClickResolvesNamedRow(
    s: Store, rowId: nat, requestId: string, decision: Decision, user: string, postId: string, channelId: string, now: int,
    used: set<string>)
    requires RowsOk(s, used) && ClickProblem(s, rowId, requestId, decision, postId, channelId).None?
    ensures var at := FindById(s.rows, rowId).value;
      var e := VerdictEvent(s.rows[at], decision == Approve, user, now);
      && ClickResult(s, rowId, requestId, decision, user, postId, channelId, now).rows
         == s.rows[at := Merged(s.rows[at], e)]
      && (requestId != "" ==> s.rows[at].RequestId() == requestId)
  {
    var at := FindById(s.rows, rowId).value;
    OpenRowIsUnique(s.rows, at);
    var row := s.rows[at];
    if requestId != "" {
      var matched := FindByRequest(s.rows, row.task, row.tool, requestId).value;
      assert matched == at;
    }
  }

  lemma {:induction false} PressKeepsInv(
    w: World, p: Prompt, decision: Decision, user: string, postId: string, channelId: string, now: int)
    requires Inv(w) && p in w.store.prompts
    ensures Inv(Next(w, Press(p, decision, user, postId, channelId, now)))
    ensures Extends(w.store.rows, Next(w, Press(p, decision, user, postId, channelId, now)).store.rows)
  {
    var out := Next(w, Press(p, decision, user, postId, channelId, now));
    if ClickProblem(w.store, p.rowId, p.requestId, decision, postId, channelId).None? {
      ClickResolvesNamedRow(w.store, p.rowId, p.requestId, decision, user, postId, channelId, now, w.used);
      var at := FindById(w.store.rows, p.rowId).value;
      var e := VerdictEvent(w.store.rows[at], decision == Approve, user, now);
      RecordedOk(w.store, e, w.used, w.used);
      RecordedExtends(w.store, e);
      forall i | 0 <= i < |out.store.rows| ensures Witnessed(out.store.rows[i], out.clicks) {
        if i == at {
          assert out.clicks[|w.clicks|] == Click(p.rowId, p.requestId, decision == Approve);
        } else {
          assert Witnessed(w.store.rows[i], w.clicks);
        }
      }
      ExtendsKeepsCalls(w.store.rows, out.store.rows, w.calls, w.used, w.used);
    }
  }

  lemma {:induction false} GateKeepsInv(w: World, c: CallId, task: TaskId, tool: string, delivered: bool, time: int)
    requires Inv(w)
    ensures var out := Next(w, Gate(c, task, tool, delivered, time)); Inv(out) && Extends(w.store.rows, out.store.rows)
  {
    var out := Next(w, Gate(c, task, tool, delivered, time));
    if c !in w.calls && tool != "" {
      var e := Event(Some(task), tool, time, PermissionCallback(Callback(OPERATOR_APPROVAL, true)));
      ReceiveKeeps(w.store, e, CannotDeliver, time, w.used, w.used, w.clicks);
      ExtendsKeepsCalls(w.store.rows, out.store.rows, w.calls, w.used, w.used);
      CallStep(w.calls, c, Gated(task, tool), out.store.rows, w.used);
    }
  }

  lemma {:induction false} AskKeepsInv(
    w: World, c: CallId, requestId: string, preview: string, delivered: bool, post: PostOutcome, time: int)
    requires Inv(w)
    ensures var out := Next(w, Ask(c, requestId, preview, delivered, post, time));
      Inv(out) && Extends(w.store.rows, out.store.rows)
  {
    var out := Next(w, Ask(c, requestId, preview, delivered, post, time));
    if c in w.calls && w.calls[c].Gated? && requestId != "" && requestId !in w.used {
      var call := w.calls[c];
      assert CallOk(call, w.store.rows, w.used);
      var e := Event(Some(call.task), call.tool, time, ApprovalRequested(Request(requestId, preview, "")));
      ReceiveKeeps(w.store, e, post, time, w.used, out.used, w.clicks);
      AskedStoreKeeps(w.store, delivered, e, post, time, w.used, out.used, w.clicks);
      ExtendsKeepsCalls(w.store.rows, out.store.rows, w.calls, w.used, out.used);
      AskedTokensDiffer(w, c, requestId);
      CallStep(w.calls, c, Polling(call.task, call.tool, requestId), out.store.rows, out.used);
    }
  }

  /** Handing out a request id keeps the store in order even when the event never reaches the gateway. */
  lemma {:induction false} AskedStoreKeeps(
    s: Store, delivered: bool, e: Event, post: PostOutcome, now: int, used: set<string>, more: set<string>, clicks: seq<Click>)
    requires RowsOk(s, used) && RowsWitnessed(s.rows, clicks) && used <= more
    requires Keeps(s, Receive(s, e, post, now), more, clicks)
    ensures Keeps(s, Delivered(s, delivered, e, post, now), more, clicks)
  {
  }

  lemma {:induction false} CallResumes(
    before: seq<Row>, after: seq<Row>, calls: map<CallId, Call>, used: set<string>, c: CallId, approved: bool)
    requires Extends(before, after) && CallsOk(calls, before, used) && TokensDiffer(calls)
    requires c in calls && calls[c].Polling?
    requires DecidedBy(before, calls[c].task, calls[c].tool, calls[c].requestId, approved)
    ensures var now := calls[c := Resuming(calls[c].task, calls[c].tool, calls[c].requestId, approved)];
      CallsOk(now, after, used) && TokensDiffer(now)
  {
    var call := calls[c];
    assert CallOk(call, before, used);
    ExtendsKeepsDecision(before, after, call.task, call.tool, call.requestId, approved);
    ExtendsKeepsCalls(before, after, calls, used, used);
    CallStep(calls, c, Resuming(call.task, call.tool, call.requestId, approved), after, used);
  }

  lemma {:induction false} PollKeepsInv(w: World, c: CallId, delivered: bool, time: int)
    requires Inv(w)
    ensures var out := Next(w, Poll(c, delivered, time)); Inv(out) && Extends(w.store.rows, out.store.rows)
  {
    var out := Next(w, Poll(c, delivered, time));
    if c in w.calls && w.calls[c].Polling? {
      var call := w.calls[c];
      assert CallOk(call, w.store.rows, w.used);
      var at := FindByRequest(w.store.rows, call.task, call.tool, call.requestId);
      if at.Some? && w.store.rows[at.value].status != Pending {
        var approved := w.store.rows[at.value].status == Approved;
        assert DecidedBy(w.store.rows, call.task, call.tool, call.requestId, approved);
        var e := Event(Some(call.task), call.tool, time, OtherEvent(ApprovalWaitResolved));
        ReceiveKeeps(w.store, e, CannotDeliver, time, w.used, w.used, w.clicks);
        AskedStoreKeeps(w.store, delivered, e, CannotDeliver, time, w.used, w.used, w.clicks);
        CallResumes(w.store.rows, out.store.rows, w.calls, w.used, c, approved);
      }
    }
  }

  lemma {:induction false} ElsewhereKeepsInv(w: World, task: TaskId, notice: Notice, time: int)
    requires Inv(w)
    ensures var out := Next(w, Elsewhere(task, notice, time)); Inv(out) && Extends(w.store.rows, out.store.rows)
  {
    var out := Next(w, Elsewhere(task, notice, time));
    ReceiveKeeps(w.store, Event(Some(task), "", time, OtherEvent(notice)), CannotDeliver, time, w.used, w.used, w.clicks);
    ExtendsKeepsCalls(w.store.rows, out.store.rows, w.calls, w.used, w.used);
  }

  /** A call that moves on keeps the invariant if it is right about its request and keeps or drops the request id. */
  lemma {:induction false} CallKeepsInv(w: World, c: CallId, call: Call)
    requires Inv(w) && c in w.calls && CallOk(call, w.store.rows, w.used)
    requires Token(call) == "" || Token(call) == Token(w.calls[c])
    ensures Inv(w.(calls := w.calls[c := call]))
  {
  }

  lemma {:induction false} LocalKeepsInv(w: World, a: Action)
    requires Inv(w) && (a.GiveUp? || a.Admit? || a.AdmissionTimeout? || a.Readmit?)
    ensures Inv(Next(w, a)) && Next(w, a).store.rows == w.store.rows
  {
    if !a.Readmit? && a.call in w.calls && Next(w, a) != w {
      assert CallOk(w.calls[a.call], w.store.rows, w.used);
      CallKeepsInv(w, a.call, Next(w, a).calls[a.call]);
      assert Next(w, a) == w.(calls := w.calls[a.call := Next(w, a).calls[a.call]]);
    }
  }

  lemma {:induction false} NextKeepsInv(w: World, a: Action)
    requires Inv(w)
    ensures Inv(Next(w, a)) && Extends(w.store.rows, Next(w, a).store.rows)
  {
    match a
    case Gate(c, task, tool, delivered, time) => GateKeepsInv(w, c, task, tool, delivered, time);
    case Ask(c, requestId, preview, delivered, post, time) =>
      AskKeepsInv(w, c, requestId, preview, delivered, post, time);
    case Press(p, decision, user, postId, channelId, time) =>
      if p in w.store.prompts { PressKeepsInv(w, p, decision, user, postId, channelId, time); }
    case Poll(c, delivered, time) => PollKeepsInv(w, c, delivered, time);
    case Elsewhere(task, notice, time) => ElsewhereKeepsInv(w, task, notice, time);
    case _ => LocalKeepsInv(w, a);
  }

  lemma {:induction false} AskedTokensDiffer(w: World, c: CallId, requestId: string)
    requires Inv(w) && c in w.calls && requestId !in w.used
    ensures forall d :: d in w.calls ==> Token(w.calls[d]) != requestId || requestId == ""
  {
    forall d | d in w.calls ensures Token(w.calls[d]) != requestId || requestId == "" {
      assert CallOk(w.calls[d], w.store.rows, w.used);
    }
  }

  lemma {:induction false} RunKeepsInv(w: World, actions: seq<Action>)
    requires Inv(w)
    ensures Inv(Run(w, actions)) && Extends(w.store.rows, Run(w, actions).store.rows)
    decreases |actions|
  {
    if actions != [] {
      var front := actions[..|actions| - 1];
      RunKeepsInv(w, front);
      NextKeepsInv(Run(w, front), actions[|actions| - 1]);
    }
  }

  lemma {:induction false} StartOk(statuses: map<TaskId, TaskStatus>)
    ensures Inv(Start(statuses))
  {
  }

  // ----- main results -----

  /**
   * Safety of the whole protocol: whatever requests, merges, clicks, polls and timeouts interleave, a gated
   * call that returns approved did so on a row carrying its own request id, which an accepted "approve"
   * click on a prompt naming that row and that request id resolved.
   */
  lemma {:induction false} ApprovedOnlyByItsOwnClick(statuses: map<TaskId, TaskStatus>, actions: seq<Action>, c: CallId)
    requires var w := Run(Start(statuses), actions);
      c in w.calls && w.calls[c].Returned? && w.calls[c].approved
    ensures var w := Run(Start(statuses), actions);
      var call := w.calls[c];
      exists i :: 0 <= i < |w.store.rows| && HasRequest(w.store.rows[i], call.task, call.tool, call.requestId)
        && w.store.rows[i].status == Approved && Click(w.store.rows[i].id, call.requestId, true) in w.clicks
  {
    StartOk(statuses);
    RunKeepsInv(Start(statuses), actions);
    var w := Run(Start(statuses), actions);
    var call := w.calls[c];
    assert CallOk(call, w.store.rows, w.used);
    var i :| 0 <= i < |w.store.rows| && HasRequest(w.store.rows[i], call.task, call.tool, call.requestId)
      && w.store.rows[i].status == Approved;
    assert Witnessed(w.store.rows[i], w.clicks);
  }

  /** In every reachable state at most one approval per task and tool is waiting. */
  lemma {:induction false} AtMostOneWaiting(statuses: map<TaskId, TaskStatus>, actions: seq<Action>)
    ensures OnePending(Run(Start(statuses), actions).store.rows)
  {
    StartOk(statuses);
    RunKeepsInv(Start(statuses), actions);
  }

  /** The first accepted decision wins: a resolved row is the same row after any further run. */
  lemma {:induction false} FirstDecisionWins(
    statuses: map<TaskId, TaskStatus>, before: seq<Action>, after: seq<Action>, i: nat)
    requires var w := Run(Start(statuses), before); i < |w.store.rows| && w.store.rows[i].status != Pending
    ensures var w := Run(Start(statuses), before);
      var later := Run(w, after);
      i < |later.store.rows| && later.store.rows[i] == w.store.rows[i]
  {
    StartOk(statuses);
    RunKeepsInv(Start(statuses), before);
    RunKeepsInv(Run(Start(statuses), before), after);
  }

  /** A decision on a request reaches its caller: whenever it polls next, it reads that decision. */
  lemma {:induction false} DecisionReachesCaller(
    statuses: map<TaskId, TaskStatus>, before: seq<Action>, after: seq<Action>, i: nat, c: CallId, delivered: bool, now: int)
    requires var w := Run(Start(statuses), before); i < |w.store.rows| && w.store.rows[i].status != Pending
    requires var w := Run(Start(statuses), before); var later := Run(w, after);
      && c in later.calls && later.calls[c].Polling? && later.calls[c].requestId == w.store.rows[i].RequestId()
      && later.calls[c].task == w.store.rows[i].task && later.calls[c].tool == w.store.rows[i].tool
    ensures var w := Run(Start(statuses), before); var later := Run(w, after);
      var polled := Next(later, Poll(c, delivered, now)).calls[c];
      polled.Resuming? && polled.approved == (w.store.rows[i].status == Approved)
  {
    StartOk(statuses);
    var w := Run(Start(statuses), before);
    var later := Run(w, after);
    RunKeepsInv(Start(statuses), before);
    RunKeepsInv(w, after);
    assert CallOk(later.calls[c], later.store.rows, later.used);
    assert later.store.rows[i] == w.store.rows[i];
    RequestFindsItsRow(later.store, later.used, i);
  }

  lemma {:induction false} RequestFindsItsRow(s: Store, used: set<string>, i: nat)
    requires RowsOk(s, used) && i < |s.rows| && s.rows[i].RequestId() != ""
    ensures FindByRequest(s.rows, s.rows[i].task, s.rows[i].tool, s.rows[i].RequestId()) == Some(i)
  {
    assert HasRequest(s.rows[i], s.rows[i].task, s.rows[i].tool, s.rows[i].RequestId());
    assert s.rows[i] in s.rows;
  }
}
