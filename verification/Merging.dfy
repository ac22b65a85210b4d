/** Which requests can still be answered: what merging a second request into an open row does to both. */
module Merging {
  import opened Options
  import opened Approvals
  import opened Protocol

  // ----- a call can be approved exactly when its row is approved, or waits with a prompt naming its request -----

  /** A row has that request and is approved, or is waiting with a posted prompt that names the row and the request. */
  ghost predicate Answerable(s: Store, task: TaskId, tool: string, r: string) {
    exists i :: 0 <= i < |s.rows| && HasRequest(s.rows[i], task, tool, r) && AnswerableRow(s, s.rows[i])
  }

  ghost predicate AnswerableRow(s: Store, row: Row) {
    row.status == Approved
    || (row.status == Pending && exists p :: p in s.prompts && p.rowId == row.id && p.requestId == row.RequestId())
  }

  predicate ReturnedApproved(w: World, c: CallId) { c in w.calls && w.calls[c].Returned? && w.calls[c].approved }

  ghost predicate CanBeApproved(w: World, c: CallId) {
    exists actions: seq<Action> :: ReturnedApproved(Run(w, actions), c)
  }

  lemma {:induction false} RunSnoc(w: World, actions: seq<Action>, a: Action)
    ensures Run(w, actions + [a]) == Next(Run(w, actions), a)
  {
    assert (actions + [a])[..|actions|] == actions;
  }

  /** Once the row is approved: the call polls, its task is re-admitted, and the call returns. */
  lemma {:induction false} ApprovedRowIsReported(w: World, before: seq<Action>, c: CallId, i: nat)
    requires var v := Run(w, before);
      && Inv(v) && i < |v.store.rows| && v.store.rows[i].status == Approved && c in v.calls && v.calls[c].Polling?
      && HasRequest(v.store.rows[i], v.calls[c].task, v.calls[c].tool, v.calls[c].requestId)
    ensures CanBeApproved(w, c)
  {
    var v := Run(w, before);
    var task := v.calls[c].task;
    assert CallOk(v.calls[c], v.store.rows, v.used);
    RequestFindsItsRow(v.store, v.used, i);
    var polled, admitted := before + [Poll(c, true, 0)], before + [Poll(c, true, 0)] + [Readmit(task)];
    RunSnoc(w, before, Poll(c, true, 0));
    RunSnoc(w, polled, Readmit(task));
    RunSnoc(w, admitted, Admit(c));
    assert Run(w, polled).calls[c] == Resuming(task, v.calls[c].tool, v.calls[c].requestId, true);
    assert Run(w, polled).store.statuses[task] == ResumePending;
    assert Run(w, admitted).store.statuses[task] == Running;
    assert ReturnedApproved(Run(w, admitted + [Admit(c)]), c);
  }

  /** While the row waits: the operator presses Approve first. */
  lemma {:induction false} PromptedRowIsReported(w: World, c: CallId, i: nat, p: Prompt)
    requires Inv(w) && c in w.calls && w.calls[c].Polling?
    requires i < |w.store.rows| && HasRequest(w.store.rows[i], w.calls[c].task, w.calls[c].tool, w.calls[c].requestId)
    requires w.store.rows[i].status == Pending
    requires p in w.store.prompts && p.rowId == w.store.rows[i].id && p.requestId == w.calls[c].requestId
    ensures CanBeApproved(w, c)
  {
    var press := Press(p, Approve, "", "", "", 0);
    assert CallOk(w.calls[c], w.store.rows, w.used);
    RequestFindsItsRow(w.store, w.used, i);
    assert w.store.rows[i] in w.store.rows;
    assert FindById(w.store.rows, p.rowId) == Some(i);
    assert ClickProblem(w.store, p.rowId, p.requestId, Approve, "", "").None?;
    ClickResolvesNamedRow(w.store, p.rowId, p.requestId, Approve, "", "", "", 0, w.used);
    PressKeepsInv(w, p, Approve, "", "", "", 0);
    RunSnoc(w, [], press);
    assert Run(w, [] + [press]) == Next(w, press);
    ApprovedRowIsReported(w, [] + [press], c, i);
  }

  lemma {:induction false} ReceiveKeepsUnanswerable(
    s: Store, e: Event, post: PostOutcome, now: int, task: TaskId, tool: string, r: string)
    requires !Answerable(s, task, tool, r) && r != "" && !e.body.ApprovalResult?
    requires e.body.ApprovalRequested? ==> e.body.request.requestId != r
    ensures !Answerable(Receive(s, e, post, now), task, tool, r)
  {
    if e.task.Some? && e.task.value in s.statuses && !Ignored(e) {
      var applied, out := Recorded(s, e), Receive(s, e, post, now);
      var at := Touched(s.rows, e).value;
      forall i | 0 <= i < |out.rows| && HasRequest(out.rows[i], task, tool, r) ensures !AnswerableRow(out, out.rows[i]) {
        assert i < |s.rows| && HasRequest(s.rows[i], task, tool, r) && out.rows[i].id == s.rows[i].id;
        assert out.rows[i].status == s.rows[i].status;
        assert !AnswerableRow(s, s.rows[i]);
        forall p | out.rows[i].status == Pending && p in out.prompts && p.rowId == out.rows[i].id
          ensures p.requestId != out.rows[i].RequestId()
        {
          assert p !in s.prompts ==> p.requestId == applied.rows[at].RequestId() != r;
        }
      }
    }
  }

  lemma {:induction false} PressKeepsUnanswerable(
    w: World, p: Prompt, decision: Decision, user: string, postId: string, channelId: string, now: int,
    task: TaskId, tool: string, r: string)
    requires Inv(w) && !Answerable(w.store, task, tool, r) && p in w.store.prompts
    ensures !Answerable(Next(w, Press(p, decision, user, postId, channelId, now)).store, task, tool, r)
  {
    var out := Next(w, Press(p, decision, user, postId, channelId, now)).store;
    if ClickProblem(w.store, p.rowId, p.requestId, decision, postId, channelId).None? {
      ClickResolvesNamedRow(w.store, p.rowId, p.requestId, decision, user, postId, channelId, now, w.used);
      var at := FindById(w.store.rows, p.rowId).value;
      assert AnswerableRow(w.store, w.store.rows[at]);
      forall i | 0 <= i < |out.rows| && HasRequest(out.rows[i], task, tool, r) ensures !AnswerableRow(out, out.rows[i]) {
        assert !AnswerableRow(w.store, w.store.rows[i]);
      }
    }
  }

  /** A request that cannot be answered now never can: only its own prompt resolves its row, and no prompt is posted for it later. */
  lemma {:induction false} NextKeepsUnanswerable(w: World, a: Action, task: TaskId, tool: string, r: string)
    requires Inv(w) && !Answerable(w.store, task, tool, r) && r in w.used && r != ""
    ensures !Answerable(Next(w, a).store, task, tool, r) && r in Next(w, a).used
  {
    match a
    case Gate(c, t, name, delivered, time) =>
      ReceiveKeepsUnanswerable(
        w.store, Event(Some(t), name, time, PermissionCallback(Callback(OPERATOR_APPROVAL, true))), CannotDeliver, time,
        task, tool, r);
    case Ask(c, requestId, preview, delivered, post, time) =>
      if Next(w, a) != w {
        var e := Event(Some(w.calls[c].task), w.calls[c].tool, time, ApprovalRequested(Request(requestId, preview, "")));
        ReceiveKeepsUnanswerable(w.store, e, post, time, task, tool, r);
      }
    case Press(p, decision, user, postId, channelId, time) =>
      if p in w.store.prompts { PressKeepsUnanswerable(w, p, decision, user, postId, channelId, time, task, tool, r); }
    case Poll(c, delivered, time) =>
      if c in w.calls && w.calls[c].Polling? {
        var e := Event(Some(w.calls[c].task), w.calls[c].tool, time, OtherEvent(ApprovalWaitResolved));
        ReceiveKeepsUnanswerable(w.store, e, CannotDeliver, time, task, tool, r);
      }
    case Elsewhere(t, notice, time) =>
      ReceiveKeepsUnanswerable(w.store, Event(Some(t), "", time, OtherEvent(notice)), CannotDeliver, time, task, tool, r);
    case _ =>
  }

  lemma {:induction false} RunKeepsUnanswerable(w: World, actions: seq<Action>, task: TaskId, tool: string, r: string)
    requires Inv(w) && !Answerable(w.store, task, tool, r) && r in w.used && r != ""
    ensures !Answerable(Run(w, actions).store, task, tool, r)
    ensures r in Run(w, actions).used
    decreases |actions|
  {
    if actions != [] {
      var front := actions[..|actions| - 1];
      RunKeepsInv(w, front);
      RunKeepsUnanswerable(w, front, task, tool, r);
      NextKeepsUnanswerable(Run(w, front), actions[|actions| - 1], task, tool, r);
    }
  }

  /** A call never changes what it is for, and keeps its request id until it raises. */
  lemma {:induction false} CallsKeepTheirRequest(w: World, actions: seq<Action>, c: CallId)
    requires c in w.calls && w.calls[c].Polling?
    ensures var later := Run(w, actions);
      c in later.calls && (later.calls[c].Raised? || (!later.calls[c].Gated? && later.calls[c].task == w.calls[c].task
      && later.calls[c].tool == w.calls[c].tool && later.calls[c].requestId == w.calls[c].requestId))
    decreases |actions|
  {
    if actions != [] { CallsKeepTheirRequest(w, actions[..|actions| - 1], c); }
  }

  /**
   * The exact condition on a polling call: some continuation returns it approved if and only if its request
   * is answerable now.
   */
  lemma {:induction false} CanBeApprovedIff(w: World, c: CallId)
    requires Inv(w) && c in w.calls && w.calls[c].Polling?
    ensures CanBeApproved(w, c) <==> Answerable(w.store, w.calls[c].task, w.calls[c].tool, w.calls[c].requestId)
  {
    var call := w.calls[c];
    assert CallOk(call, w.store.rows, w.used);
    if Answerable(w.store, call.task, call.tool, call.requestId) {
      var i :| 0 <= i < |w.store.rows| && HasRequest(w.store.rows[i], call.task, call.tool, call.requestId)
        && AnswerableRow(w.store, w.store.rows[i]);
      if w.store.rows[i].status == Approved {
        assert Run(w, []) == w;
        ApprovedRowIsReported(w, [], c, i);
      } else {
        var p :| p in w.store.prompts && p.rowId == w.store.rows[i].id && p.requestId == w.store.rows[i].RequestId();
        PromptedRowIsReported(w, c, i, p);
      }
    } else {
      forall actions: seq<Action> ensures !ReturnedApproved(Run(w, actions), c) {
        NeverApproved(w, actions, c);
      }
    }
  }

  lemma {:induction false} NeverApproved(w: World, actions: seq<Action>, c: CallId)
    requires Inv(w) && c in w.calls && w.calls[c].Polling?
    requires !Answerable(w.store, w.calls[c].task, w.calls[c].tool, w.calls[c].requestId)
    ensures !ReturnedApproved(Run(w, actions), c)
  {
    var call, later := w.calls[c], Run(w, actions);
    assert CallOk(call, w.store.rows, w.used);
    RunKeepsInv(w, actions);
    RunKeepsUnanswerable(w, actions, call.task, call.tool, call.requestId);
    CallsKeepTheirRequest(w, actions, c);
    if ReturnedApproved(later, c) {
      assert CallOk(later.calls[c], later.store.rows, later.used);
      var i :| 0 <= i < |later.store.rows| && HasRequest(later.store.rows[i], call.task, call.tool, call.requestId)
        && later.store.rows[i].status == Approved;
      assert AnswerableRow(later.store, later.store.rows[i]);
    }
  }

  // ----- asking -----

  /** A row waiting for that task and tool whose prompt is already posted. */
  predicate PromptedRow(row: Row, task: TaskId, tool: string) { IsOpen(row, task, tool) && PostId(row) != "" }

  /**
   * The guards on asking: the event arrives, its task is known, no row waits whose prompt is recorded as posted,
   * and a prompt is posted, even if the gateway does not learn of it.
   */
  ghost predicate AskIsPrompted(w: World, c: CallId, delivered: bool, post: PostOutcome)
    requires c in w.calls && w.calls[c].Gated?
  {
    var task, tool := w.calls[c].task, w.calls[c].tool;
    && delivered && task in w.store.statuses && LeavesPrompt(post)
    && forall row :: row in w.store.rows ==> !PromptedRow(row, task, tool)
  }

  /**
   * The exact condition on asking: in every reachable state, some continuation returns the call approved if
   * and only if its request is delivered for a known task, is not merged into a row whose prompt is already
   * posted as far as the gateway knows, and gets its own prompt posted, noticed or not.
   */
  lemma {:induction false} AskCanBeApprovedIff(
    statuses: map<TaskId, TaskStatus>, before: seq<Action>,
    c: CallId, requestId: string, preview: string, delivered: bool, post: PostOutcome, now: int)
    requires var w := Run(Start(statuses), before);
      c in w.calls && w.calls[c].Gated? && requestId != "" && requestId !in w.used
    ensures var w := Run(Start(statuses), before);
      CanBeApproved(Next(w, Ask(c, requestId, preview, delivered, post, now)), c) <==> AskIsPrompted(w, c, delivered, post)
  {
    var w := Run(Start(statuses), before);
    StartOk(statuses);
    RunKeepsInv(Start(statuses), before);
    AskKeepsInv(w, c, requestId, preview, delivered, post, now);
    CanBeApprovedIff(Next(w, Ask(c, requestId, preview, delivered, post, now)), c);
    AskedIsAnswerableIff(w, c, requestId, preview, delivered, post, now);
  }

  lemma {:induction false} AskedIsAnswerableIff(
    w: World, c: CallId, requestId: string, preview: string, delivered: bool, post: PostOutcome, now: int)
    requires Inv(w) && c in w.calls && w.calls[c].Gated? && requestId != "" && requestId !in w.used
    ensures var call := w.calls[c];
      Answerable(Next(w, Ask(c, requestId, preview, delivered, post, now)).store, call.task, call.tool, requestId)
      <==> AskIsPrompted(w, c, delivered, post)
  {
    var call := w.calls[c];
    assert CallOk(call, w.store.rows, w.used);
    var e := Event(Some(call.task), call.tool, now, ApprovalRequested(Request(requestId, preview, "")));
    var out := Next(w, Ask(c, requestId, preview, delivered, post, now)).store;
    forall i | 0 <= i < |w.store.rows| ensures !HasRequest(w.store.rows[i], call.task, call.tool, requestId) {}
    if delivered && call.task in w.store.statuses {
      var at := RecordedAt(w.store, e);
      AskedRow(w.store, e, post, now, at, w.used);
    }
  }

  /** The row a delivered request ends in, and whether a prompt names it. */
  lemma {:induction false} AskedRow(s: Store, e: Event, post: PostOutcome, now: int, at: nat, used: set<string>)
    requires RowsOk(s, used) && PromptsOk(s.prompts, used) && !Ignored(e) && e.body.ApprovalRequested?
    requires e.body.request.requestId != "" && e.body.request.requestId !in used && e.task.value in s.statuses
    requires at == Touched(s.rows, e).value
    ensures var out := Receive(s, e, post, now); var r := e.body.request.requestId;
      && at < |out.rows| && HasRequest(out.rows[at], e.task.value, e.tool, r) && out.rows[at].status == Pending
      && (forall i :: 0 <= i < |out.rows| && i != at ==> !HasRequest(out.rows[i], e.task.value, e.tool, r))
      && (AnswerableRow(out, out.rows[at]) <==>
            LeavesPrompt(post) && forall row :: row in s.rows ==> !PromptedRow(row, e.task.value, e.tool))
  {
    var out, applied, r := Receive(s, e, post, now), Recorded(s, e), e.body.request.requestId;
    forall i | 0 <= i < |s.rows| ensures s.rows[i].RequestId() != r {}
    assert applied.rows[at].RequestId() == r && applied.rows[at].status == Pending;
    PromptedIff(s, e, at);
    assert forall p :: p in s.prompts ==> p.requestId != r;
    var row := applied.rows[at];
    if PostId(row) == "" && LeavesPrompt(post) {
      assert Prompt(row.id, r, post.postId, post.channelId) in out.prompts;
    } else {
      assert out.prompts == s.prompts;
    }
  }

  /** A posted prompt waits for that task and tool exactly when the row the request ends in has one. */
  lemma {:induction false} PromptedIff(s: Store, e: Event, at: nat)
    requires OnePending(s.rows) && !Ignored(e) && e.body.ApprovalRequested? && at == Touched(s.rows, e).value
    ensures at < |Recorded(s, e).rows|
    ensures PostId(Recorded(s, e).rows[at]) == "" <==> forall row :: row in s.rows ==> !PromptedRow(row, e.task.value, e.tool)
  {
    var open := FindOpen(s.rows, e.task.value, e.tool);
    if open.Some? {
      assert s.rows[at] in s.rows;
      forall row | row in s.rows && IsOpen(row, e.task.value, e.tool) ensures row == s.rows[at] {
        var i :| 0 <= i < |s.rows| && s.rows[i] == row;
        OpenRowIsUnique(s.rows, i);
      }
    }
  }

  // ----- a request displaced by a later one -----

  /** The request id was handed out and no row carries it. */
  ghost predicate Gone(s: Store, used: set<string>, r: string) {
    r != "" && r in used && forall i :: 0 <= i < |s.rows| ==> s.rows[i].RequestId() != r
  }

  lemma {:induction false} ReceiveKeepsGone(
    s: Store, e: Event, post: PostOutcome, now: int, used: set<string>, more: set<string>, r: string)
    requires Gone(s, used, r) && used <= more
    requires e.body.ApprovalRequested? ==> e.body.request.requestId != r
    ensures Gone(Receive(s, e, post, now), more, r)
  {
    if e.task.Some? && e.task.value in s.statuses && !Ignored(e) {
      var at := RecordedAt(s, e);
      var out := Receive(s, e, post, now);
      forall i | 0 <= i < |out.rows| ensures out.rows[i].RequestId() != r {
        assert out.rows[i].RequestId() == Recorded(s, e).rows[i].RequestId();
      }
    }
  }

  lemma {:induction false} NextKeepsGone(w: World, a: Action, r: string)
    requires Inv(w) && Gone(w.store, w.used, r)
    ensures Gone(Next(w, a).store, Next(w, a).used, r)
  {
    match a
    case Gate(c, task, tool, delivered, time) =>
      var e := Event(Some(task), tool, time, PermissionCallback(Callback(OPERATOR_APPROVAL, true)));
      ReceiveKeepsGone(w.store, e, CannotDeliver, time, w.used, w.used, r);
    case Ask(c, requestId, preview, delivered, post, time) =>
      if Next(w, a) != w {
        var e := Event(Some(w.calls[c].task), w.calls[c].tool, time, ApprovalRequested(Request(requestId, preview, "")));
        ReceiveKeepsGone(w.store, e, post, time, w.used, w.used + {requestId}, r);
      }
    case Press(_, _, _, _, _, _) =>
      PressKeepsGone(w, a, r);
    case Poll(c, delivered, time) =>
      if c in w.calls && w.calls[c].Polling? {
        var e := Event(Some(w.calls[c].task), w.calls[c].tool, time, OtherEvent(ApprovalWaitResolved));
        ReceiveKeepsGone(w.store, e, CannotDeliver, time, w.used, w.used, r);
      }
    case Elsewhere(task, notice, time) =>
      ReceiveKeepsGone(w.store, Event(Some(task), "", time, OtherEvent(notice)), CannotDeliver, time, w.used, w.used, r);
    case _ =>
  }

  lemma {:induction false} PressKeepsGone(w: World, a: Action, r: string)
    requires Inv(w) && Gone(w.store, w.used, r) && a.Press?
    ensures Gone(Next(w, a).store, Next(w, a).used, r)
  {
    var p := a.prompt;
    if p in w.store.prompts && ClickProblem(w.store, p.rowId, p.requestId, a.decision, a.postId, a.channelId).None? {
      ClickResolvesNamedRow(w.store, p.rowId, p.requestId, a.decision, a.user, a.postId, a.channelId, a.time, w.used);
    }
  }

  lemma {:induction false} RunKeepsGone(w: World, actions: seq<Action>, r: string)
    requires Inv(w) && Gone(w.store, w.used, r)
    ensures Gone(Run(w, actions).store, Run(w, actions).used, r)
    decreases |actions|
  {
    if actions != [] {
      var front := actions[..|actions| - 1];
      RunKeepsInv(w, front);
      RunKeepsGone(w, front, r);
      NextKeepsGone(Run(w, front), actions[|actions| - 1], r);
    }
  }

  /**
   * A delivered request displaces the one its row was waiting for: on every continuation the call with the
   * displaced request is still polling, or gave up and returned unapproved.
   */
  lemma {:induction false} DisplacedRequestTimesOut(
    statuses: map<TaskId, TaskStatus>, before: seq<Action>, after: seq<Action>, i: nat,
    c: CallId, requestId: string, preview: string, post: PostOutcome, now: int, d: CallId)
    requires var w := Run(Start(statuses), before);
      && i < |w.store.rows| && w.store.rows[i].status == Pending
      && c in w.calls && w.calls[c] == Gated(w.store.rows[i].task, w.store.rows[i].tool)
      && requestId != "" && requestId !in w.used
    requires d in Run(Start(statuses), before).calls
    requires Token(Run(Start(statuses), before).calls[d]) == Run(Start(statuses), before).store.rows[i].RequestId() != ""
    ensures var later := Run(Next(Run(Start(statuses), before), Ask(c, requestId, preview, true, post, now)), after);
      d in later.calls && (later.calls[d].Polling? || (later.calls[d].Returned? && !later.calls[d].approved))
  {
    var w := Run(Start(statuses), before);
    var r := w.store.rows[i].RequestId();
    StartOk(statuses);
    RunKeepsInv(Start(statuses), before);
    var merged := Next(w, Ask(c, requestId, preview, true, post, now));
    AskKeepsInv(w, c, requestId, preview, true, post, now);
    AskDisplaces(w, i, c, requestId, preview, post, now);
    WaitsOrGaveUp(w, d, r);
    RunKeepsWaiting(merged, after, d, r);
  }

  lemma {:induction false} AskDisplaces(
    w: World, i: nat, c: CallId, requestId: string, preview: string, post: PostOutcome, now: int)
    requires Inv(w) && i < |w.store.rows| && w.store.rows[i].status == Pending && w.store.rows[i].RequestId() != ""
    requires c in w.calls && w.calls[c] == Gated(w.store.rows[i].task, w.store.rows[i].tool)
    requires requestId != "" && requestId !in w.used
    ensures var merged := Next(w, Ask(c, requestId, preview, true, post, now));
      Gone(merged.store, merged.used, w.store.rows[i].RequestId())
  {
    var merged := Next(w, Ask(c, requestId, preview, true, post, now));
    OpenRowIsUnique(w.store.rows, i);
    assert merged.store.rows[i].RequestId() == requestId;
    assert forall j :: 0 <= j < |w.store.rows| && j != i ==> merged.store.rows[j] == w.store.rows[j];
  }

  /** A call whose request no row carries as decided can only be polling or have given up. */
  lemma {:induction false} WaitsOrGaveUp(w: World, d: CallId, r: string)
    requires Inv(w) && d in w.calls && Token(w.calls[d]) == r != ""
    requires forall i :: 0 <= i < |w.store.rows| && w.store.rows[i].RequestId() == r ==> w.store.rows[i].status == Pending
    ensures w.calls[d].Polling? || (w.calls[d].Returned? && !w.calls[d].approved)
  {
    assert CallOk(w.calls[d], w.store.rows, w.used);
  }

  lemma {:induction false} RunKeepsWaiting(w: World, actions: seq<Action>, d: CallId, r: string)
    requires Inv(w) && Gone(w.store, w.used, r) && d in w.calls && Token(w.calls[d]) == r
    requires w.calls[d].Polling? || (w.calls[d].Returned? && !w.calls[d].approved)
    ensures var later := Run(w, actions);
      && d in later.calls && Token(later.calls[d]) == r
      && (later.calls[d].Polling? || (later.calls[d].Returned? && !later.calls[d].approved))
    decreases |actions|
  {
    if actions != [] {
      var front := actions[..|actions| - 1];
      RunKeepsWaiting(w, front, d, r);
      RunKeepsInv(w, front);
      RunKeepsGone(w, front, r);
      NextKeepsWaiting(Run(w, front), actions[|actions| - 1], d, r);
    }
  }

  lemma {:induction false} NextKeepsWaiting(w: World, a: Action, d: CallId, r: string)
    requires Inv(w) && Gone(w.store, w.used, r) && d in w.calls && Token(w.calls[d]) == r
    requires w.calls[d].Polling? || (w.calls[d].Returned? && !w.calls[d].approved)
    ensures var later := Next(w, a);
      && d in later.calls && Token(later.calls[d]) == r
      && (later.calls[d].Polling? || (later.calls[d].Returned? && !later.calls[d].approved))
  {
    if a.Poll? && a.call == d {
      assert FindByRequest(w.store.rows, w.calls[d].task, w.calls[d].tool, r).None?;
    }
  }

  // ----- a request merged into a delivered prompt -----

  /**
   * A waiting row whose prompt is already posted, while no posted prompt names its current request; and no
   * other row carries the request id r.
   */
  ghost predicate Stranded(s: Store, used: set<string>, i: nat, r: string) {
    && i < |s.rows|
    && s.rows[i].status == Pending && PostId(s.rows[i]) != "" && s.rows[i].RequestId() != ""
    && (forall p :: p in s.prompts && p.rowId == s.rows[i].id ==> p.requestId != s.rows[i].RequestId())
    && r in used
    && (forall j :: 0 <= j < |s.rows| && j != i ==> s.rows[j].RequestId() != r)
  }

  lemma {:induction false} RecordedKeepsStranded(s: Store, e: Event, used: set<string>, more: set<string>, i: nat, r: string)
    requires RowsOk(s, used) && PromptsOk(s.prompts, used) && Stranded(s, used, i, r) && used <= more && r != ""
    requires !e.body.ApprovalResult?
    requires e.body.ApprovalRequested? ==> e.body.request.requestId != "" && e.body.request.requestId !in used
    ensures Stranded(Recorded(s, e), more, i, r)
  {
    var out := Recorded(s, e);
    assert out.rows[i].id == s.rows[i].id;
    assert out.rows[i].meta.delivery == s.rows[i].meta.delivery;
    forall j | 0 <= j < |out.rows| && j != i ensures out.rows[j].RequestId() != r {
      if j < |s.rows| { assert s.rows[j].RequestId() != r; }
    }
  }

  lemma {:induction false} PostedKeepsStranded(
    s: Store, k: nat, post: PostOutcome, now: int, used: set<string>, i: nat, r: string)
    requires RowsOk(s, used) && Stranded(s, used, i, r) && k < |s.rows|
    ensures Stranded(EnsurePosted(s, k, post, now), used, i, r)
  {
    PostedOk(s, k, post, now, used);
    var out := EnsurePosted(s, k, post, now);
    assert k != i ==> out.rows[i] == s.rows[i];
    assert k == i ==> out == s;
    assert forall p :: p in out.prompts && p !in s.prompts ==> p.rowId == s.rows[k].id;
    assert forall j :: 0 <= j < |out.rows| ==> out.rows[j].RequestId() == s.rows[j].RequestId();
  }

  lemma {:induction false} ReceiveKeepsStranded(
    s: Store, e: Event, post: PostOutcome, now: int, used: set<string>, more: set<string>, i: nat, r: string)
    requires RowsOk(s, used) && PromptsOk(s.prompts, used) && Stranded(s, used, i, r) && used <= more && r != ""
    requires !e.body.ApprovalResult?
    requires e.body.ApprovalRequested? ==>
      e.body.request.requestId != "" && e.body.request.requestId !in used && e.body.request.requestId in more
    ensures Stranded(Receive(s, e, post, now), more, i, r)
  {
    if e.task.Some? && e.task.value in s.statuses {
      RecordedKeepsStranded(s, e, used, more, i, r);
      RecordedOk(s, e, used, more);
      var touched := Touched(s.rows, e);
      if e.body.ApprovalRequested? && touched.Some? {
        PostedKeepsStranded(Recorded(s, e), touched.value, post, now, more, i, r);
      }
    }
  }

  lemma {:induction false} PressKeepsStranded(
    w: World, p: Prompt, decision: Decision, user: string, postId: string, channelId: string, now: int, i: nat, r: string)
    requires Inv(w) && Stranded(w.store, w.used, i, r) && p in w.store.prompts
    ensures Stranded(Next(w, Press(p, decision, user, postId, channelId, now)).store, w.used, i, r)
  {
    if ClickProblem(w.store, p.rowId, p.requestId, decision, postId, channelId).None? {
      ClickResolvesNamedRow(w.store, p.rowId, p.requestId, decision, user, postId, channelId, now, w.used);
    }
  }

  lemma {:induction false} NextKeepsStranded(w: World, a: Action, i: nat, r: string)
    requires Inv(w) && Stranded(w.store, w.used, i, r) && r != ""
    ensures Stranded(Next(w, a).store, Next(w, a).used, i, r)
  {
    match a
    case Gate(c, task, tool, delivered, time) =>
      ReceiveKeepsStranded(
        w.store, Event(Some(task), tool, time, PermissionCallback(Callback(OPERATOR_APPROVAL, true))), CannotDeliver, time,
        w.used, w.used, i, r);
    case Ask(c, requestId, preview, delivered, post, time) =>
      if Next(w, a) != w {
        var e := Event(Some(w.calls[c].task), w.calls[c].tool, time, ApprovalRequested(Request(requestId, preview, "")));
        ReceiveKeepsStranded(w.store, e, post, time, w.used, w.used + {requestId}, i, r);
      }
    case Press(p, decision, user, postId, channelId, time) =>
      if p in w.store.prompts { PressKeepsStranded(w, p, decision, user, postId, channelId, time, i, r); }
    case Poll(c, delivered, time) =>
      if c in w.calls && w.calls[c].Polling? {
        var e := Event(Some(w.calls[c].task), w.calls[c].tool, time, OtherEvent(ApprovalWaitResolved));
        ReceiveKeepsStranded(w.store, e, CannotDeliver, time, w.used, w.used, i, r);
      }
    case Elsewhere(task, notice, time) =>
      ReceiveKeepsStranded(
        w.store, Event(Some(task), "", time, OtherEvent(notice)), CannotDeliver, time, w.used, w.used, i, r);
    case _ =>
  }

  lemma {:induction false} RunKeepsStranded(w: World, actions: seq<Action>, i: nat, r: string)
    requires Inv(w) && Stranded(w.store, w.used, i, r) && r != ""
    ensures Stranded(Run(w, actions).store, Run(w, actions).used, i, r)
    decreases |actions|
  {
    if actions != [] {
      var front := actions[..|actions| - 1];
      RunKeepsInv(w, front);
      RunKeepsStranded(w, front, i, r);
      NextKeepsStranded(Run(w, front), actions[|actions| - 1], i, r);
    }
  }

  /**
   * A limit of the protocol: a second request merged into a row whose prompt is already posted is never
   * decided. No later click, on any prompt, resolves the row, and no call with that request id returns approved.
   */
  lemma {:induction false} MergedRequestIsNeverApproved(
    statuses: map<TaskId, TaskStatus>, before: seq<Action>, after: seq<Action>, i: nat,
    c: CallId, requestId: string, preview: string, post: PostOutcome, now: int, d: CallId)
    requires var w := Run(Start(statuses), before);
      && i < |w.store.rows| && w.store.rows[i].status == Pending && PostId(w.store.rows[i]) != ""
      && c in w.calls && w.calls[c] == Gated(w.store.rows[i].task, w.store.rows[i].tool)
      && requestId != "" && requestId !in w.used
    ensures var merged := Next(Run(Start(statuses), before), Ask(c, requestId, preview, true, post, now));
      var later := Run(merged, after);
      && merged.store.rows[i].RequestId() == requestId
      && i < |later.store.rows| && later.store.rows[i].status == Pending
      && (d in later.calls && later.calls[d].Returned? && later.calls[d].requestId == requestId ==> !later.calls[d].approved)
  {
    var w := Run(Start(statuses), before);
    StartOk(statuses);
    RunKeepsInv(Start(statuses), before);
    var merged := Next(w, Ask(c, requestId, preview, true, post, now));
    AskKeepsInv(w, c, requestId, preview, true, post, now);
    OpenRowIsUnique(w.store.rows, i);
    assert merged.store.rows[i].RequestId() == requestId;
    assert merged.store.prompts == w.store.prompts;
    assert forall p :: p in w.store.prompts ==> p.requestId in w.used;
    assert Stranded(merged.store, merged.used, i, requestId);
    RunKeepsStranded(merged, after, i, requestId);
    RunKeepsInv(merged, after);
    var later := Run(merged, after);
    if d in later.calls {
      assert CallOk(later.calls[d], later.store.rows, later.used);
    }
  }
}
