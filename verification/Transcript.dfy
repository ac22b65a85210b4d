/** The transcript batcher of run_agent_session: batches reported while other coroutines keep appending. */
module Transcript {

  /** One conversation_batch report: the slice of the conversation it carries and the index it announces. */
  datatype Batch<M> = Batch(from: nat, messages: seq<M>, turnIndex: nat)
  {
    function Upto(): nat { from + |messages| }
  }

  /** What happens while one report is awaited: messages other coroutines append, and whether the flush is cancelled. */
  datatype Await<M> = Await(appended: seq<M>, cancelled: bool)

  datatype State<M> = State(conversation: seq<M>, flushed: nat, reports: seq<Batch<M>>)

  function Undisturbed<M>(): Await<M> { Await([], false) }

  function FirstAwait<M>(awaits: seq<Await<M>>): Await<M> {
    if awaits == [] then Undisturbed() else awaits[0]
  }

  function LaterAwaits<M>(awaits: seq<Await<M>>): seq<Await<M>> {
    if awaits == [] then [] else awaits[1..]
  }

  /** The report of conversation[flushed..upto], and what was appended before it came back. */
  function Reported<M>(s: State<M>, upto: nat, await: Await<M>): State<M>
    requires s.flushed <= upto <= |s.conversation|
  {
    State(s.conversation + await.appended, s.flushed, s.reports + [Batch(s.flushed, s.conversation[s.flushed..upto], upto)])
  }

  datatype Progress<M> = Progress(state: State<M>, awaits: seq<Await<M>>, cancelled: bool)

  /** The size-triggered loop: the new boundary is fixed before the await. */
  function FlushFull<M>(s: State<M>, size: nat, awaits: seq<Await<M>>): Progress<M>
    requires size > 0 && s.flushed <= |s.conversation|
    decreases |awaits|, |s.conversation| - s.flushed
  {
    if |s.conversation| - s.flushed < size then Progress(s, awaits, false)
    else
      var boundary := s.flushed + size;
      var await := FirstAwait(awaits);
      var out := Reported(s, boundary, await);
      if await.cancelled then Progress(out, LaterAwaits(awaits), true)
      else FlushFull(out.(flushed := boundary), size, LaterAwaits(awaits))
  }

  /** The forced remainder: the length is read again after the await. */
  function FlushRest<M>(s: State<M>, await: Await<M>): State<M>
    requires s.flushed <= |s.conversation|
  {
    if s.flushed == |s.conversation| then s
    else
      var out := Reported(s, |s.conversation|, await);
      if await.cancelled then out else out.(flushed := |out.conversation|)
  }

  function Flush<M>(s: State<M>, size: nat, force: bool, awaits: seq<Await<M>>): State<M>
    requires size > 0 && s.flushed <= |s.conversation|
  {
    FlushFullBounded(s, size, awaits);
    var full := FlushFull(s, size, awaits);
    if full.cancelled || !force then full.state else FlushRest(full.state, FirstAwait(full.awaits))
  }

  lemma {:induction false} FlushFullBounded<M>(s: State<M>, size: nat, awaits: seq<Await<M>>)
    requires size > 0 && s.flushed <= |s.conversation|
    ensures var out := FlushFull(s, size, awaits).state; s.flushed <= out.flushed <= |out.conversation|
    decreases |awaits|, |s.conversation| - s.flushed
  {
    if s.flushed + size <= |s.conversation| {
      var boundary := s.flushed + size;
      var await := FirstAwait(awaits);
      if !await.cancelled {
        FlushFullBounded(Reported(s, boundary, await).(flushed := boundary), size, LaterAwaits(awaits));
      }
    }
  }

  class TranscriptBatcher<M> {
    const size: nat
    var conversation: seq<M>
    var flushed: nat
    var reports: seq<Batch<M>>

    predicate Valid()
      reads this
    {
      size > 0 && flushed <= |conversation|
    }

    function Snapshot(): State<M>
      reads this
    {
      State(conversation, flushed, reports)
    }

    constructor (size: nat)
      requires size > 0
      ensures Valid() && this.size == size && Snapshot() == State([], 0, [])
    {
      this.size := size;
      conversation, flushed, reports := [], 0, [];
    }

    /** report_event on a slice, and the appends that happen before it returns. */
    method Report(upto: nat, await: Await<M>)
      requires Valid() && flushed <= upto <= |conversation|
      modifies this
      ensures Valid() && Snapshot() == Reported(old(Snapshot()), upto, await)
    {
      reports := reports + [Batch(flushed, conversation[flushed..upto], upto)];
      conversation := conversation + await.appended;
    }

    /** Holds the flush lock throughout, so only appends can interleave. */
    method FlushConversationBatches(force: bool, awaits: seq<Await<M>>)
      requires Valid()
      modifies this
      ensures Valid() && Snapshot() == Flush(old(Snapshot()), size, force, awaits)
    {
      var left := awaits;
      while |conversation| - flushed >= size
        invariant Valid()
        invariant FlushFull(Snapshot(), size, left) == FlushFull(old(Snapshot()), size, awaits)
        decreases |left|, |conversation| - flushed
      {
        var await := FirstAwait(left);
        var boundary := flushed + size;
        Report(boundary, await);
        left := LaterAwaits(left);
        if await.cancelled { return; }
        flushed := boundary;
      }
      if force && flushed < |conversation| {
        var await := FirstAwait(left);
        Report(|conversation|, await);
        if await.cancelled { return; }
        flushed := |conversation|;
      }
    }

    method AppendTranscriptMessages(messages: seq<M>, awaits: seq<Await<M>>)
      requires Valid()
      modifies this
      ensures Valid()
      ensures Snapshot() == Perform(old(Snapshot()), size, Append(messages, awaits))
    {
      if messages == [] { return; }
      conversation := conversation + messages;
      FlushConversationBatches(false, awaits);
    }
  }

  // ----- whole runs -----

  datatype Op<M> = Append(messages: seq<M>, awaits: seq<Await<M>>) | ForceFlush(awaits: seq<Await<M>>)

  function Perform<M>(s: State<M>, size: nat, op: Op<M>): (r: State<M>)
    requires size > 0 && s.flushed <= |s.conversation|
    ensures r.flushed <= |r.conversation|
  {
    match op
    case Append(messages, awaits) =>
      if messages == [] then s
      else
        FlushFullBounded(s.(conversation := s.conversation + messages), size, awaits);
        Flush(s.(conversation := s.conversation + messages), size, false, awaits)
    case ForceFlush(awaits) =>
      FlushFullBounded(s, size, awaits);
      Flush(s, size, true, awaits)
  }

  function Run<M>(ops: seq<Op<M>>, size: nat): (r: State<M>)
    requires size > 0
    ensures r.flushed <= |r.conversation|
    decreases |ops|
  {
    if ops == [] then State([], 0, []) else Perform(Run(ops[..|ops| - 1], size), size, ops[|ops| - 1])
  }

  // ----- exactly once -----

  function End<M>(reports: seq<Batch<M>>): nat {
    if reports == [] then 0 else reports[|reports| - 1].Upto()
  }

  /** Each batch starts where the one before it ended. */
  ghost predicate Chained<M>(reports: seq<Batch<M>>) {
    forall i :: 0 <= i < |reports| ==> reports[i].from == End(reports[..i])
  }

  /** The batches tile the flushed part of the conversation, and each announces the running total. */
  ghost predicate ExactlyOnce<M>(s: State<M>) {
    && s.flushed <= |s.conversation|
    && Chained(s.reports) && End(s.reports) == s.flushed
    && (forall i :: 0 <= i < |s.reports| ==>
          && s.reports[i].turnIndex == s.reports[i].Upto() <= s.flushed
          && s.reports[i].messages == s.conversation[s.reports[i].from..s.reports[i].Upto()])
  }

  lemma {:induction false} ChainedSnoc<M>(reports: seq<Batch<M>>, b: Batch<M>)
    ensures Chained(reports + [b]) <==> Chained(reports) && b.from == End(reports)
    ensures End(reports + [b]) == b.Upto()
  {
    var all := reports + [b];
    assert all[..|reports|] == reports;
    assert forall i :: 0 <= i < |reports| ==> all[..i] == reports[..i] && all[i] == reports[i];
    if Chained(all) {
      assert all[|reports|].from == End(all[..|reports|]);
      forall i | 0 <= i < |reports| ensures reports[i].from == End(reports[..i]) {
        assert all[i].from == End(all[..i]);
      }
    }
  }

  lemma {:induction false} SliceOfAppended<M>(a: seq<M>, b: seq<M>, i: nat, j: nat)
    requires i <= j <= |a|
    ensures (a + b)[i..j] == a[i..j]
  {
  }

  /** A report followed by a move of the boundary to its end keeps exactly-once, whatever was appended. */
  lemma {:induction false} ReportKeepsExactlyOnce<M>(s: State<M>, upto: nat, await: Await<M>)
    requires ExactlyOnce(s) && s.flushed <= upto <= |s.conversation|
    ensures ExactlyOnce(Reported(s, upto, await).(flushed := upto))
  {
    var added := Batch(s.flushed, s.conversation[s.flushed..upto], upto);
    ChainedSnoc(s.reports, added);
    var all := s.reports + [added];
    var longer := s.conversation + await.appended;
    forall i | 0 <= i < |all| ensures
      all[i].turnIndex == all[i].Upto() <= upto && all[i].messages == longer[all[i].from..all[i].Upto()]
    {
      if i < |s.reports| {
        assert all[i] == s.reports[i];
      } else {
        assert all[i] == added && added.Upto() == upto;
      }
      SliceOfAppended(s.conversation, await.appended, all[i].from, all[i].Upto());
    }
  }

  /** A report after which the boundary is anywhere else breaks exactly-once. */
  lemma {:induction false} ReportBreaksExactlyOnce<M>(s: State<M>, upto: nat, await: Await<M>, boundary: nat)
    requires s.flushed <= upto <= |s.conversation| && boundary != upto
    ensures !ExactlyOnce(Reported(s, upto, await).(flushed := boundary))
  {
    ChainedSnoc(s.reports, Batch(s.flushed, s.conversation[s.flushed..upto], upto));
  }

  /** Broken for good: no batch can start where the boundary no longer is. */
  ghost predicate Broken<M>(s: State<M>) {
    !Chained(s.reports) || End(s.reports) != s.flushed
  }

  lemma {:induction false} ReportKeepsBroken<M>(s: State<M>, upto: nat, await: Await<M>, boundary: nat)
    requires s.flushed <= upto <= |s.conversation| && Broken(s)
    ensures Broken(Reported(s, upto, await).(flushed := boundary))
  {
    ChainedSnoc(s.reports, Batch(s.flushed, s.conversation[s.flushed..upto], upto));
  }

  lemma {:induction false} ReportTurnsBroken<M>(s: State<M>, upto: nat, await: Await<M>, boundary: nat)
    requires s.flushed <= upto <= |s.conversation| && boundary != upto
    ensures Broken(Reported(s, upto, await).(flushed := boundary))
  {
    ChainedSnoc(s.reports, Batch(s.flushed, s.conversation[s.flushed..upto], upto));
  }

  lemma {:induction false} FlushFullKeeps<M>(s: State<M>, size: nat, awaits: seq<Await<M>>)
    requires size > 0 && s.flushed <= |s.conversation|
    ensures var out := FlushFull(s, size, awaits);
      && (Broken(s) ==> Broken(out.state))
      && (ExactlyOnce(s) ==> if out.cancelled then Broken(out.state) else ExactlyOnce(out.state))
    decreases |awaits|, |s.conversation| - s.flushed
  {
    if |s.conversation| - s.flushed >= size {
      var boundary := s.flushed + size;
      var await := FirstAwait(awaits);
      var out := Reported(s, boundary, await);
      if await.cancelled {
        assert out.(flushed := s.flushed) == out;
        ReportTurnsBroken(s, boundary, await, s.flushed);
      } else {
        if Broken(s) { ReportKeepsBroken(s, boundary, await, boundary); }
        if ExactlyOnce(s) { ReportKeepsExactlyOnce(s, boundary, await); }
        FlushFullKeeps(out.(flushed := boundary), size, LaterAwaits(awaits));
      }
    }
  }

  lemma {:induction false} FlushRestKeeps<M>(s: State<M>, await: Await<M>)
    requires s.flushed <= |s.conversation|
    ensures var out := FlushRest(s, await);
      && (Broken(s) ==> Broken(out))
      && (ExactlyOnce(s) ==>
            if s.flushed == |s.conversation| || (await.appended == [] && !await.cancelled) then ExactlyOnce(out) else Broken(out))
  {
    if s.flushed < |s.conversation| {
      var upto := |s.conversation|;
      var out := Reported(s, upto, await);
      var boundary := if await.cancelled then s.flushed else |out.conversation|;
      assert FlushRest(s, await) == out.(flushed := boundary);
      if Broken(s) { ReportKeepsBroken(s, upto, await, boundary); }
      if boundary == upto {
        if ExactlyOnce(s) { ReportKeepsExactlyOnce(s, upto, await); }
      } else {
        ReportTurnsBroken(s, upto, await, boundary);
      }
    }
  }

  /** No flush is cancelled in mid-report, and nothing is appended while a forced remainder is being reported. */
  predicate CleanFlush<M>(s: State<M>, size: nat, force: bool, awaits: seq<Await<M>>)
    requires size > 0 && s.flushed <= |s.conversation|
  {
    var full := FlushFull(s, size, awaits);
    var await := FirstAwait(full.awaits);
    && !full.cancelled
    && (force && full.state.flushed < |full.state.conversation| ==> await.appended == [] && !await.cancelled)
  }

  predicate CleanOp<M>(s: State<M>, size: nat, op: Op<M>)
    requires size > 0 && s.flushed <= |s.conversation|
  {
    match op
    case Append(messages, awaits) =>
      messages != [] ==> CleanFlush(s.(conversation := s.conversation + messages), size, false, awaits)
    case ForceFlush(awaits) => CleanFlush(s, size, true, awaits)
  }

  predicate CleanRun<M>(ops: seq<Op<M>>, size: nat)
    requires size > 0
    decreases |ops|
  {
    ops == [] || (CleanRun(ops[..|ops| - 1], size) && CleanOp(Run(ops[..|ops| - 1], size), size, ops[|ops| - 1]))
  }

  lemma {:induction false} FlushKeeps<M>(s: State<M>, size: nat, force: bool, awaits: seq<Await<M>>)
    requires size > 0 && s.flushed <= |s.conversation|
    ensures var out := Flush(s, size, force, awaits);
      && (Broken(s) ==> Broken(out))
      && (ExactlyOnce(s) ==> if CleanFlush(s, size, force, awaits) then ExactlyOnce(out) else Broken(out))
  {
    FlushFullKeeps(s, size, awaits);
    FlushFullBounded(s, size, awaits);
    var full := FlushFull(s, size, awaits);
    if !full.cancelled && force {
      FlushRestKeeps(full.state, FirstAwait(full.awaits));
    }
  }

  lemma {:induction false} AppendedStillExact<M>(s: State<M>, messages: seq<M>)
    requires s.flushed <= |s.conversation|
    ensures ExactlyOnce(s) ==> ExactlyOnce(s.(conversation := s.conversation + messages))
    ensures Broken(s) ==> Broken(s.(conversation := s.conversation + messages))
  {
  }

  /**
   * Over whole runs, the reported batches are the flushed messages, each exactly once and in order, if and
   * only if no flush was cancelled in mid-report and nothing was appended during a forced report.
   * Size-triggered reports tolerate any appends.
   */
  lemma {:induction false} ExactlyOnceIffClean<M>(ops: seq<Op<M>>, size: nat)
    requires size > 0
    ensures if CleanRun(ops, size) then ExactlyOnce(Run(ops, size)) else Broken(Run(ops, size))
    ensures ExactlyOnce(Run(ops, size)) <==> CleanRun(ops, size)
    decreases |ops|
  {
    if ops != [] {
      var front := ops[..|ops| - 1];
      var s := Run(front, size);
      ExactlyOnceIffClean(front, size);
      match ops[|ops| - 1]
      case Append(messages, awaits) =>
        AppendedStillExact(s, messages);
        FlushKeeps(s.(conversation := s.conversation + messages), size, false, awaits);
      case ForceFlush(awaits) =>
        FlushKeeps(s, size, true, awaits);
    }
  }

  function Concat<M>(reports: seq<Batch<M>>): seq<M> {
    if reports == [] then [] else Concat(reports[..|reports| - 1]) + reports[|reports| - 1].messages
  }

  /** Exactly-once in the reader's terms: the batches joined are the flushed prefix. */
  lemma {:induction false} ConcatIsPrefix<M>(conversation: seq<M>, reports: seq<Batch<M>>)
    requires Chained(reports) && End(reports) <= |conversation|
    requires forall i :: 0 <= i < |reports| ==>
      reports[i].Upto() <= |conversation| && reports[i].messages == conversation[reports[i].from..reports[i].Upto()]
    ensures Concat(reports) == conversation[..End(reports)]
  {
    if reports != [] {
      var front := reports[..|reports| - 1];
      var last := reports[|reports| - 1];
      assert reports == front + [last];
      ChainedSnoc(front, last);
      assert End(front) <= |conversation|;
      ConcatIsPrefix(conversation, front);
      assert conversation[..last.from] + conversation[last.from..last.Upto()] == conversation[..last.Upto()];
    }
  }

  /** At the end of a session, when nothing else runs, one forced flush leaves nothing unsent. */
  lemma {:induction false} FinalFlushSendsAll<M>(ops: seq<Op<M>>, size: nat)
    requires size > 0 && CleanRun(ops, size)
    ensures var s := Run(ops + [ForceFlush([])], size);
      CleanRun(ops + [ForceFlush([])], size) && Concat(s.reports) == s.conversation == Run(ops, size).conversation
  {
    var all := ops + [ForceFlush([])];
    assert all[..|all| - 1] == ops;
    var before := Run(ops, size);
    QuietFlush(before, size);
    assert CleanRun(all, size);
    ExactlyOnceIffClean(all, size);
    var s := Run(all, size);
    ConcatIsPrefix(s.conversation, s.reports);
    assert s.conversation[..|s.conversation|] == s.conversation;
  }

  lemma {:induction false} QuietFlush<M>(s: State<M>, size: nat)
    requires size > 0 && s.flushed <= |s.conversation|
    ensures CleanFlush(s, size, true, [])
    ensures var out := Flush(s, size, true, []); out.flushed == |out.conversation| && out.conversation == s.conversation
  {
    QuietFlushFull(s, size);
    assert s.conversation + [] == s.conversation;
  }

  lemma {:induction false} QuietFlushFull<M>(s: State<M>, size: nat)
    requires size > 0 && s.flushed <= |s.conversation|
    ensures var full := FlushFull(s, size, []); !full.cancelled && full.awaits == [] && full.state.conversation == s.conversation
    ensures FlushFull(s, size, []).state.flushed <= |s.conversation|
    decreases |s.conversation| - s.flushed
  {
    if |s.conversation| - s.flushed >= size {
      assert s.conversation + [] == s.conversation;
      QuietFlushFull(Reported(s, s.flushed + size, Undisturbed()).(flushed := s.flushed + size), size);
    }
  }

  // ----- what a disturbed forced flush loses -----

  /** No batch carries any of the messages from lo up to hi, and none will: the boundary is past them. */
  ghost predicate Skipped<M>(s: State<M>, lo: nat, hi: nat) {
    s.flushed >= hi && forall i :: 0 <= i < |s.reports| ==> s.reports[i].Upto() <= lo || s.reports[i].from >= hi
  }

  lemma {:induction false} FlushFullKeepsSkipped<M>(s: State<M>, size: nat, awaits: seq<Await<M>>, lo: nat, hi: nat)
    requires size > 0 && s.flushed <= |s.conversation| && Skipped(s, lo, hi)
    ensures Skipped(FlushFull(s, size, awaits).state, lo, hi)
    decreases |awaits|, |s.conversation| - s.flushed
  {
    if |s.conversation| - s.flushed >= size {
      var await := FirstAwait(awaits);
      var out := Reported(s, s.flushed + size, await);
      assert Skipped(out, lo, hi);
      if !await.cancelled {
        FlushFullKeepsSkipped(out.(flushed := s.flushed + size), size, LaterAwaits(awaits), lo, hi);
      }
    }
  }

  lemma {:induction false} PerformKeepsSkipped<M>(s: State<M>, size: nat, op: Op<M>, lo: nat, hi: nat)
    requires size > 0 && s.flushed <= |s.conversation| && Skipped(s, lo, hi)
    ensures Skipped(Perform(s, size, op), lo, hi)
  {
    match op
    case Append(messages, awaits) =>
      FlushFullKeepsSkipped(s.(conversation := s.conversation + messages), size, awaits, lo, hi);
    case ForceFlush(awaits) =>
      FlushFullKeepsSkipped(s, size, awaits, lo, hi);
      FlushFullBounded(s, size, awaits);
  }

  lemma {:induction false} RunKeepsSkipped<M>(ops: seq<Op<M>>, k: nat, size: nat, lo: nat, hi: nat)
    requires size > 0 && k <= |ops| && Skipped(Run(ops[..k], size), lo, hi)
    ensures Skipped(Run(ops, size), lo, hi)
    decreases |ops|
  {
    if k == |ops| {
      assert ops[..k] == ops;
    } else {
      var front := ops[..|ops| - 1];
      assert front[..k] == ops[..k];
      RunKeepsSkipped(front, k, size, lo, hi);
      PerformKeepsSkipped(Run(front, size), size, ops[|ops| - 1], lo, hi);
    }
  }

  /**
   * The messages another coroutine appends while a forced remainder is being reported are never reported,
   * not by that flush and not by any later one.
   */
  lemma {:induction false} AppendsDuringForcedReportAreLost<M>(
    ops: seq<Op<M>>, size: nat, appended: seq<M>, later: seq<Op<M>>)
    requires size > 0 && CleanRun(ops, size)
    requires 0 < |Run(ops, size).conversation| - Run(ops, size).flushed < size
    ensures var lo := |Run(ops, size).conversation|;
      var s := Run(ops + [ForceFlush([Await(appended, false)])] + later, size);
      Skipped(s, lo, lo + |appended|)
  {
    var before := Run(ops, size);
    var flush := ForceFlush([Await(appended, false)]);
    var all := ops + [flush] + later;
    assert (ops + [flush])[..|ops|] == ops && all[..|ops| + 1] == ops + [flush];
    ExactlyOnceIffClean(ops, size);
    var lo := |before.conversation|;
    var after := Run(ops + [flush], size);
    assert after == Perform(before, size, flush);
    assert FlushFull(before, size, [Await(appended, false)]) == Progress(before, [Await(appended, false)], false);
    assert after.flushed == lo + |appended|;
    RunKeepsSkipped(all, |ops| + 1, size, lo, lo + |appended|);
  }
}
