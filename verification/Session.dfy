/** When a session may return: the message loop of run_agent_session (runtime/session_entrypoint.py). */
module Session {
  import opened Options
  import opened Subagents

  /** A message carries the signals of its blocks, in order, or is a coordinator result. */
  datatype Message = Signals(signals: seq<Signal>) | Result(text: string)

  datatype StreamEvent = Arrived(message: Message) | Done | Failure | Silence

  datatype Outcome = Running | Returned(text: string) | Raised

  /** hadSubagents, finalText and accepted are the loop's local variables. */
  datatype Loop = Loop(tracker: Tracker, hadSubagents: bool, finalText: string, accepted: bool)

  const FRESH := Loop(IDLE, false, "", false)

  predicate Launches(s: Signal) {
    s.Started? || (s.Use? && (s.name == AgentTool || s.name == TaskTool))
  }

  predicate AnyLaunch(signals: seq<Signal>) {
    exists i :: 0 <= i < |signals| && Launches(signals[i])
  }

  function Observed(l: Loop, signals: seq<Signal>): Loop {
    l.(tracker := TrackAll(l.tracker, signals), hadSubagents := l.hadSubagents || AnyLaunch(signals))
  }

  /** A result counts as final unless subagents were seen and some are still pending. */
  function ResultTaken(l: Loop, text: string): Loop {
    var waiting := l.hadSubagents && l.tracker.pending != {};
    l.(finalText := if waiting then l.finalText else text, accepted := l.hadSubagents && !waiting)
  }

  /** The text returned after the loop; denied is the explanation recorded when an approval was refused. */
  function FinalText(text: string, denied: Option<string>): string {
    if text == "" && denied.Some? then denied.value else text
  }

  function Continue(l: Loop, events: seq<StreamEvent>, denied: Option<string>): Outcome
    decreases |events|
  {
    if events == [] then Running
    else match events[0]
      case Failure => Raised
      case Silence => Raised
      case Done => if l.hadSubagents && !l.accepted then Raised else Returned(FinalText(l.finalText, denied))
      case Arrived(Signals(signals)) => Continue(Observed(l, signals), events[1..], denied)
      case Arrived(Result(text)) =>
        var next := ResultTaken(l, text);
        if next.accepted then Returned(FinalText(next.finalText, denied)) else Continue(next, events[1..], denied)
  }

  class AgentSession {
    const tracker: SubagentTracker
    var hadSubagents: bool
    var finalText: string

    constructor ()
      ensures tracker.State() == IDLE && !hadSubagents && finalText == "" && fresh(tracker)
    {
      tracker := new SubagentTracker();
      hadSubagents, finalText := false, "";
    }

    method ObserveAll(signals: seq<Signal>)
      modifies this, tracker
      ensures tracker.State() == TrackAll(old(tracker.State()), signals)
      ensures hadSubagents == (old(hadSubagents) || AnyLaunch(signals)) && finalText == old(finalText)
    {
      var i := 0;
      while i < |signals|
        invariant i <= |signals|
        invariant tracker.State() == TrackAll(old(tracker.State()), signals[..i])
        invariant hadSubagents == (old(hadSubagents) || AnyLaunch(signals[..i])) && finalText == old(finalText)
      {
        assert signals[..i + 1][..i] == signals[..i];
        tracker.Observe(signals[i]);
        if Launches(signals[i]) {
          assert signals[..i + 1][i] == signals[i];
          hadSubagents := true;
        } else {
          assert AnyLaunch(signals[..i + 1]) ==> AnyLaunch(signals[..i]) by {
            if AnyLaunch(signals[..i + 1]) {
              var k :| 0 <= k < i + 1 && Launches(signals[..i + 1][k]);
              assert signals[..i][k] == signals[k];
            }
          }
          assert AnyLaunch(signals[..i]) ==> AnyLaunch(signals[..i + 1]) by {
            if AnyLaunch(signals[..i]) {
              var k :| 0 <= k < i && Launches(signals[..i][k]);
              assert signals[..i + 1][k] == signals[k];
            }
          }
        }
        i := i + 1;
      }
      assert signals[..i] == signals;
    }

    /** Consumes the stream until the session returns, raises or the stream so far is used up. */
    method Run(events: seq<StreamEvent>, denied: Option<string>) returns (outcome: Outcome)
      requires tracker.State() == IDLE && !hadSubagents && finalText == ""
      modifies this, tracker
      ensures outcome == Continue(FRESH, events, denied)
    {
      var accepted := false;
      var i := 0;
      while i < |events|
        invariant i <= |events| && !accepted
        invariant Continue(Loop(tracker.State(), hadSubagents, finalText, accepted), events[i..], denied)
               == Continue(FRESH, events, denied)
        decreases |events| - i
      {
        assert events[i..][0] == events[i] && events[i..][1..] == events[i + 1..];
        match events[i] {
          case Failure => return Raised;
          case Silence => return Raised;
          case Done =>
            if hadSubagents && !accepted { return Raised; }
            return Returned(FinalText(finalText, denied));
          case Arrived(Signals(signals)) =>
            ObserveAll(signals);
          case Arrived(Result(text)) =>
            if !(hadSubagents && tracker.pending != {}) { finalText := text; }
            if hadSubagents && tracker.pending == {} { accepted := true; }
            if accepted { return Returned(FinalText(finalText, denied)); }
        }
        i := i + 1;
      }
      outcome := Running;
    }
  }

  // ----- what a returned text rests on -----

  /** All signals of the first k events, in order. */
  function SignalsBefore(events: seq<StreamEvent>, k: nat): seq<Signal>
    requires k <= |events|
  {
    if k == 0 then []
    else
      var front := SignalsBefore(events, k - 1);
      if events[k - 1].Arrived? && events[k - 1].message.Signals? then front + events[k - 1].message.signals else front
  }

  lemma {:induction false} TrackAllAppend(t: Tracker, a: seq<Signal>, b: seq<Signal>)
    ensures TrackAll(t, a + b) == TrackAll(TrackAll(t, a), b)
    decreases |b|
  {
    if b == [] {
      assert a + b == a;
    } else {
      assert (a + b)[..|a + b| - 1] == a + b[..|b| - 1];
      TrackAllAppend(t, a, b[..|b| - 1]);
    }
  }

  lemma {:induction false} AnyLaunchAppend(a: seq<Signal>, b: seq<Signal>)
    ensures AnyLaunch(a + b) <==> AnyLaunch(a) || AnyLaunch(b)
  {
    if AnyLaunch(a) {
      var i :| 0 <= i < |a| && Launches(a[i]);
      assert (a + b)[i] == a[i];
    }
    if AnyLaunch(b) {
      var i :| 0 <= i < |b| && Launches(b[i]);
      assert (a + b)[|a| + i] == b[i];
    }
  }

  /** Event k is a result that arrived with subagents seen and none pending. */
  predicate SettledResult(events: seq<StreamEvent>, k: nat)
    requires k < |events|
  {
    var before := SignalsBefore(events, k);
    events[k].Arrived? && events[k].message.Result? && AnyLaunch(before) && TrackAll(IDLE, before).pending == {}
  }

  /** The last result among the first k events, or the empty text. */
  function LastResult(events: seq<StreamEvent>, k: nat): string
    requires k <= |events|
  {
    if k == 0 then ""
    else if events[k - 1].Arrived? && events[k - 1].message.Result? then events[k - 1].message.text
    else LastResult(events, k - 1)
  }

  /** The loop variables after k events, none of which ended the loop. */
  ghost predicate Reached(l: Loop, events: seq<StreamEvent>, k: nat)
    requires k <= |events|
  {
    && l.tracker == TrackAll(IDLE, SignalsBefore(events, k))
    && l.hadSubagents == AnyLaunch(SignalsBefore(events, k))
    && !l.accepted
    && (!l.hadSubagents ==> l.finalText == LastResult(events, k))
    && (forall j :: 0 <= j < k ==> events[j].Arrived? && !SettledResult(events, j))
  }

  /** How the loop ends, by position: at the first settled result, or at the first event that is not a message. */
  ghost predicate EndsAt(events: seq<StreamEvent>, k: nat, denied: Option<string>, outcome: Outcome)
    requires k < |events|
  {
    && (forall j :: 0 <= j < k ==> events[j].Arrived? && !SettledResult(events, j))
    && (if events[k].Arrived? then SettledResult(events, k) && outcome == Returned(FinalText(events[k].message.text, denied))
        else if events[k].Done? && !AnyLaunch(SignalsBefore(events, k))
        then outcome == Returned(FinalText(LastResult(events, k), denied))
        else outcome == Raised)
  }

  lemma {:induction false} ContinueEnds(l: Loop, events: seq<StreamEvent>, k: nat, denied: Option<string>)
    requires k <= |events| && Reached(l, events, k)
    ensures var outcome := Continue(l, events[k..], denied);
      if outcome == Running then forall j :: k <= j < |events| ==> events[j].Arrived? && !SettledResult(events, j)
      else exists e :: k <= e < |events| && EndsAt(events, e, denied, outcome)
    decreases |events| - k
  {
    if k < |events| {
      assert events[k..][0] == events[k] && events[k..][1..] == events[k + 1..];
      var outcome := Continue(l, events[k..], denied);
      match events[k]
      case Arrived(Signals(signals)) =>
        SignalsReach(l, events, k);
        ContinueEnds(Observed(l, signals), events, k + 1, denied);
      case Arrived(Result(text)) =>
        if ResultTaken(l, text).accepted {
          assert EndsAt(events, k, denied, outcome);
        } else {
          ContinueEnds(ResultTaken(l, text), events, k + 1, denied);
        }
      case _ => assert EndsAt(events, k, denied, outcome);
    }
  }

  /** Signals only move the tracker on. */
  lemma {:induction false} SignalsReach(l: Loop, events: seq<StreamEvent>, k: nat)
    requires k < |events| && Reached(l, events, k) && events[k].Arrived? && events[k].message.Signals?
    ensures Reached(Observed(l, events[k].message.signals), events, k + 1)
  {
    TrackAllAppend(IDLE, SignalsBefore(events, k), events[k].message.signals);
    AnyLaunchAppend(SignalsBefore(events, k), events[k].message.signals);
  }

  /** A stream still running has delivered only messages, none of them a settled result; otherwise it ended at one place. */
  lemma {:induction false} SessionEnds(events: seq<StreamEvent>, denied: Option<string>)
    ensures var outcome := Continue(FRESH, events, denied);
      if outcome == Running then forall j :: 0 <= j < |events| ==> events[j].Arrived? && !SettledResult(events, j)
      else exists e :: 0 <= e < |events| && EndsAt(events, e, denied, outcome)
  {
    assert events[0..] == events;
    ContinueEnds(FRESH, events, 0, denied);
  }

  /** What a session that launched subagents before event e and returned there rests on. */
  ghost predicate RestsOnSettledResult(events: seq<StreamEvent>, e: nat, denied: Option<string>, outcome: Outcome)
    requires e < |events|
  {
    var before := SignalsBefore(events, e);
    && events[e].Arrived? && events[e].message.Result?
    && outcome == Returned(FinalText(events[e].message.text, denied))
    && TrackAll(IDLE, before).pending == {}
    && (FitsAll(before) ==> HappenAll(QUIET, before).live == {} && HappenAll(QUIET, before).unstarted == {})
  }

  /**
   * No premature result. When a session that launched subagents returns, it returns a result that arrived
   * with nothing pending; on a fitting stream that means no task was running and no launch was outstanding.
   */
  lemma {:induction false} NoPrematureResult(events: seq<StreamEvent>, denied: Option<string>) returns (e: nat)
    requires Continue(FRESH, events, denied).Returned?
    ensures e < |events| && EndsAt(events, e, denied, Continue(FRESH, events, denied))
    ensures AnyLaunch(SignalsBefore(events, e)) ==> RestsOnSettledResult(events, e, denied, Continue(FRESH, events, denied))
  {
    SessionEnds(events, denied);
    var outcome := Continue(FRESH, events, denied);
    e :| 0 <= e < |events| && EndsAt(events, e, denied, outcome);
    var before := SignalsBefore(events, e);
    if FitsAll(before) { NothingPendingIff(before); }
  }

  /** A stream that ends after a launch without a settled result raises. */
  lemma {:induction false} UnsettledStreamRaises(events: seq<StreamEvent>, e: nat, denied: Option<string>)
    requires e < |events| && !events[e].Arrived? && AnyLaunch(SignalsBefore(events, e))
    requires forall j :: 0 <= j < e ==> events[j].Arrived? && !SettledResult(events, j)
    ensures Continue(FRESH, events, denied) == Raised
  {
    SessionEnds(events, denied);
    var outcome := Continue(FRESH, events, denied);
    if outcome != Running {
      var k :| 0 <= k < |events| && EndsAt(events, k, denied, outcome);
      assert k == e;
    }
  }
}
