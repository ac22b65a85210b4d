/** Which asynchronous subagents are still running, as run_agent_session tracks it (runtime/session_entrypoint.py). */
module Subagents {
  import opened Options

  datatype ToolName = AgentTool | TaskTool | SendMessageTool | OtherTool

  /**
   * The parts of the message stream the tracker reacts to. Absent ids are empty strings; terminal says
   * whether a notification's status is completed, failed, cancelled or canceled.
   */
  datatype Signal =
    | Use(name: ToolName, id: string, recipient: string)
    | Started(task: string, tool: string)
    | Notified(task: string, tool: string, terminal: bool)
    | ToolResult(id: string, isError: bool)

  datatype Tracker = Tracker(pending: set<string>, owners: map<string, string>, names: map<string, ToolName>)

  const IDLE := Tracker({}, map[], map[])

  function ResumedRecipient(
    name: ToolName, recipient: string, owners: map<string, string>, pending: set<string>): Option<string> {
    if name == SendMessageTool && recipient != "" && recipient in owners && owners[recipient] !in pending
    then Some(recipient) else None
  }

  function SetOwner(t: Tracker, task: string, tool: string): Tracker {
    var previous := if task in t.owners then t.owners[task] else "";
    t.(pending := (if previous != "" && previous != tool then t.pending - {previous} else t.pending) + {tool},
       owners := t.owners[task := tool])
  }

  function Track(t: Tracker, s: Signal): Tracker {
    match s
    case Use(name, id, recipient) =>
      var named := t.(names := t.names[id := name]);
      var resumed := ResumedRecipient(name, recipient, t.owners, t.pending);
      if name == AgentTool || name == TaskTool then named.(pending := t.pending + {id})
      else if resumed.Some? then named.(pending := t.pending + {id}, owners := t.owners[resumed.value := id])
      else named
    case Started(task, tool) =>
      if tool != "" && task != "" then SetOwner(t, task, tool)
      else if tool != "" then t.(pending := t.pending + {tool})
      else t
    case Notified(task, tool, terminal) =>
      var id := if tool != "" then tool else if task in t.owners then t.owners[task] else "";
      var owned := if id != "" && task != "" then t.(owners := t.owners[task := id]) else t;
      if id != "" && terminal then owned.(pending := t.pending - {id}) else owned
    case ToolResult(id, isError) =>
      if id in t.names && t.names[id] == AgentTool && isError then t.(pending := t.pending - {id}) else t
  }

  function TrackAll(t: Tracker, signals: seq<Signal>): Tracker
    decreases |signals|
  {
    if signals == [] then t else Track(TrackAll(t, signals[..|signals| - 1]), signals[|signals| - 1])
  }

  /** The tracker as the session keeps it: two collections changed in place. */
  class SubagentTracker {
    var pending: set<string>
    var owners: map<string, string>
    var names: map<string, ToolName>

    function State(): Tracker
      reads this
    {
      Tracker(pending, owners, names)
    }

    constructor ()
      ensures State() == IDLE
    {
      pending, owners, names := {}, map[], map[];
    }

    method SetPendingOwner(task: string, tool: string)
      modifies this
      ensures State() == SetOwner(old(State()), task, tool)
    {
      var previous := if task in owners then owners[task] else "";
      if previous != "" && previous != tool {
        pending := pending - {previous};
      }
      owners := owners[task := tool];
      pending := pending + {tool};
    }

    method Observe(s: Signal)
      modifies this
      ensures State() == Track(old(State()), s)
    {
      match s
      case Use(name, id, recipient) =>
        names := names[id := name];
        if name == AgentTool || name == TaskTool {
          pending := pending + {id};
        } else {
          var resumed := ResumedRecipient(name, recipient, owners, pending);
          if resumed.Some? {
            pending := pending + {id};
            owners := owners[resumed.value := id];
          }
        }
      case Started(task, tool) =>
        if tool != "" && task != "" {
          SetPendingOwner(task, tool);
        } else if tool != "" {
          pending := pending + {tool};
        }
      case Notified(task, tool, terminal) =>
        var id := if tool != "" then tool else if task in owners then owners[task] else "";
        if id != "" && task != "" {
          owners := owners[task := id];
        }
        if id != "" && terminal {
          pending := pending - {id};
        }
      case ToolResult(id, isError) =>
        if id in names && names[id] == AgentTool && isError {
          pending := pending - {id};
        }
    }
  }

  // ----- what is really running -----

  /**
   * The independent account: which tasks run, under which tool id each task was last known, which launches
   * have not started, and every tool id ever mentioned.
   */
  datatype Truth = Truth(
    live: set<string>, owner: map<string, string>, unstarted: set<string>, seen: set<string>, names: map<string, ToolName>)

  const QUIET := Truth({}, map[], {}, {}, map[])

  /** The tool id has ended: its launch, if it never started, and the task it owns. */
  function Ended(h: Truth, id: string): Truth {
    h.(unstarted := h.unstarted - {id}, live := set t | t in h.live && !(t in h.owner && h.owner[t] == id))
  }

  function Happen(h: Truth, s: Signal): Truth {
    match s
    case Use(name, id, recipient) =>
      var named := h.(seen := h.seen + {id}, names := h.names[id := name]);
      if name == AgentTool || name == TaskTool then named.(unstarted := h.unstarted + {id})
      else if name == SendMessageTool && recipient in h.owner && recipient !in h.live
      then named.(live := h.live + {recipient}, owner := h.owner[recipient := id])
      else named
    case Started(task, tool) =>
      if tool == "" then h
      else if task == "" then h.(unstarted := h.unstarted + {tool}, seen := h.seen + {tool})
      else h.(live := h.live + {task}, owner := h.owner[task := tool], unstarted := h.unstarted - {tool}, seen := h.seen + {tool})
    case Notified(task, tool, terminal) =>
      if task == "" then (if terminal && tool != "" then Ended(h, tool) else h)
      else if task in h.owner then (if terminal then h.(live := h.live - {task}) else h)
      else if tool == "" then h
      else
        // first news of a task: it takes over the launch it names, and runs unless the news is its end
        h.(owner := h.owner[task := tool], unstarted := h.unstarted - {tool}, seen := h.seen + {tool},
           live := if !terminal && tool in h.unstarted then h.live + {task} else h.live)
    case ToolResult(id, isError) =>
      if id in h.names && h.names[id] == AgentTool && isError then Ended(h, id) else h
  }

  function HappenAll(h: Truth, signals: seq<Signal>): Truth
    decreases |signals|
  {
    if signals == [] then h else Happen(HappenAll(h, signals[..|signals| - 1]), signals[|signals| - 1])
  }

  /** Tool uses carry new ids; starts and notifications name the task's own id, a waiting launch or a new id. */
  predicate Fits(h: Truth, s: Signal) {
    match s
    case Use(_, id, _) => id != "" && id !in h.seen
    case Started(task, tool) =>
      tool == "" || tool in h.unstarted || tool !in h.seen || (task in h.owner && h.owner[task] == tool)
    case Notified(task, tool, _) =>
      || tool == ""
      || task == ""
      || (if task in h.owner then h.owner[task] == tool else tool in h.unstarted || tool !in h.seen)
    case ToolResult(_, _) => true
  }

  predicate FitsAll(signals: seq<Signal>)
    decreases |signals|
  {
    signals == [] ||
    var front := signals[..|signals| - 1];
    FitsAll(front) && Fits(HappenAll(QUIET, front), signals[|signals| - 1])
  }

  /** Every known task has its own tool id, which is not also a waiting launch. */
  ghost predicate Sound(h: Truth) {
    && h.live <= h.owner.Keys
    && (forall t :: t in h.owner ==> h.owner[t] != "" && h.owner[t] in h.seen && h.owner[t] !in h.unstarted)
    && (forall t, u :: t in h.owner && u in h.owner && t != u ==> h.owner[t] != h.owner[u])
    && h.unstarted <= h.seen && "" !in h.unstarted && "" !in h.owner
  }

  function Owned(h: Truth): set<string> {
    set t | t in h.live && t in h.owner :: h.owner[t]
  }

  ghost predicate Refines(t: Tracker, h: Truth) {
    t.owners == h.owner && t.names == h.names && t.pending == Owned(h) + h.unstarted
  }

  lemma {:induction false} HappenKeepsSound(h: Truth, s: Signal)
    requires Sound(h) && Fits(h, s)
    ensures Sound(Happen(h, s))
  {
  }

  /** Ending an id takes exactly that id out of the pending set. */
  lemma {:induction false} EndedOwned(h: Truth, id: string)
    requires Sound(h)
    ensures Owned(Ended(h, id)) + Ended(h, id).unstarted == (Owned(h) + h.unstarted) - {id}
  {
  }

  /** Giving a task a tool id: what its previous id, if the task was running, no longer holds. */
  lemma {:induction false} OwnedAfterChange(h: Truth, task: string, tool: string, live: set<string>)
    requires Sound(h) && live == h.live + {task}
    requires forall t :: t in h.owner && t != task ==> h.owner[t] != tool
    ensures Owned(h.(live := live, owner := h.owner[task := tool]))
         == (if task in h.live then Owned(h) - {h.owner[task]} else Owned(h)) + {tool}
  {
    var next := h.(live := live, owner := h.owner[task := tool]);
    forall x ensures x in Owned(next) <==> x in (if task in h.live then Owned(h) - {h.owner[task]} else Owned(h)) + {tool} {
      if x in Owned(next) && x != tool {
        var t :| t in live && t in next.owner && next.owner[t] == x;
        assert t != task && t in h.live;
      }
      if x in Owned(h) && !(task in h.live && x == h.owner[task]) {
        var t :| t in h.live && t in h.owner && h.owner[t] == x;
        assert t != task && next.owner[t] == x;
      }
      assert next.owner[task] == tool;
    }
  }

  lemma {:induction false} UseRefines(t: Tracker, h: Truth, name: ToolName, id: string, recipient: string)
    requires Sound(h) && Refines(t, h) && Fits(h, Use(name, id, recipient))
    ensures Refines(Track(t, Use(name, id, recipient)), Happen(h, Use(name, id, recipient)))
  {
    if name == SendMessageTool && recipient in h.owner {
      if recipient in h.live {
        assert h.owner[recipient] in Owned(h);
      } else {
        assert h.owner[recipient] !in Owned(h);
        OwnedAfterChange(h, recipient, id, h.live + {recipient});
      }
    }
  }

  lemma {:induction false} StartedRefines(t: Tracker, h: Truth, task: string, tool: string)
    requires Sound(h) && Refines(t, h) && Fits(h, Started(task, tool))
    ensures Refines(Track(t, Started(task, tool)), Happen(h, Started(task, tool)))
  {
    if tool != "" && task != "" {
      OwnedAfterChange(h, task, tool, h.live + {task});
      if task in h.owner && task !in h.live {
        assert h.owner[task] !in Owned(h);
      }
    }
  }

  lemma {:induction false} NotifiedRefines(t: Tracker, h: Truth, task: string, tool: string, terminal: bool)
    requires Sound(h) && Refines(t, h) && Fits(h, Notified(task, tool, terminal))
    ensures Refines(Track(t, Notified(task, tool, terminal)), Happen(h, Notified(task, tool, terminal)))
  {
    if task == "" {
      if terminal && tool != "" { EndedOwned(h, tool); }
    } else if task in h.owner {
      var id := h.owner[task];
      assert t.owners[task := id] == t.owners;
      if terminal {
        var next := Happen(h, Notified(task, tool, terminal));
        forall x ensures x in Owned(next) <==> x in Owned(h) && x != id {
          if x in Owned(h) && x != id {
            var u :| u in h.live && u in h.owner && h.owner[u] == x;
            assert u in next.live;
          }
        }
      }
    } else if tool != "" {
      if !terminal && tool in h.unstarted {
        OwnedAfterChange(h, task, tool, h.live + {task});
      } else {
        assert Owned(Happen(h, Notified(task, tool, terminal))) == Owned(h);
        assert tool !in Owned(h);
      }
    }
  }

  lemma {:induction false} TrackRefines(t: Tracker, h: Truth, s: Signal)
    requires Sound(h) && Refines(t, h) && Fits(h, s)
    ensures Refines(Track(t, s), Happen(h, s))
  {
    match s
    case Use(name, id, recipient) => UseRefines(t, h, name, id, recipient);
    case Started(task, tool) => StartedRefines(t, h, task, tool);
    case Notified(task, tool, terminal) => NotifiedRefines(t, h, task, tool, terminal);
    case ToolResult(id, isError) => EndedOwned(h, id);
  }

  /**
   * On every fitting stream the pending set is exactly the tool ids of the running tasks together with the
   * launches that have not started, through starts, re-ownership, resumes, endings and errors.
   */
  lemma {:induction false} PendingIsExact(signals: seq<Signal>)
    requires FitsAll(signals)
    ensures var t, h := TrackAll(IDLE, signals), HappenAll(QUIET, signals);
      Sound(h) && t.owners == h.owner && t.names == h.names && t.pending == Owned(h) + h.unstarted
    decreases |signals|
  {
    if signals != [] {
      var front := signals[..|signals| - 1];
      PendingIsExact(front);
      HappenKeepsSound(HappenAll(QUIET, front), signals[|signals| - 1]);
      TrackRefines(TrackAll(IDLE, front), HappenAll(QUIET, front), signals[|signals| - 1]);
    }
  }

  /** So nothing is pending exactly when no task runs and no launch is outstanding, in the account's sense. */
  lemma {:induction false} NothingPendingIff(signals: seq<Signal>)
    requires FitsAll(signals)
    ensures var h := HappenAll(QUIET, signals);
      TrackAll(IDLE, signals).pending == {} <==> h.live == {} && h.unstarted == {}
  {
    PendingIsExact(signals);
    var h := HappenAll(QUIET, signals);
    if h.live != {} {
      var t :| t in h.live;
      assert h.owner[t] in Owned(h);
    }
  }

  // ----- what clears a pending id, on any stream -----

  /** The tool id a notification is about. */
  function Resolved(t: Tracker, task: string, tool: string): string {
    if tool != "" then tool else if task in t.owners then t.owners[task] else ""
  }

  /** A start takes the id's task over, a terminal notification resolves to the id, or an Agent call of that id fails. */
  predicate Clears(t: Tracker, s: Signal, x: string) {
    match s
    case Use(_, _, _) => false
    case Started(task, tool) => task != "" && tool != "" && tool != x && task in t.owners && t.owners[task] == x
    case Notified(task, tool, terminal) => terminal && Resolved(t, task, tool) == x
    case ToolResult(id, isError) => id == x && isError && x in t.names && t.names[x] == AgentTool
  }

  /** The signal launches, resumes or starts something under the id. */
  predicate Announces(t: Tracker, s: Signal, x: string) {
    match s
    case Use(name, id, recipient) =>
      id == x && (name == AgentTool || name == TaskTool || ResumedRecipient(name, recipient, t.owners, t.pending).Some?)
    case Started(_, tool) => tool == x
    case _ => false
  }

  /** The exact step: a pending id stays unless it is cleared, and another becomes pending exactly when it is launched. */
  lemma {:induction false} PendingAfterIff(t: Tracker, s: Signal, x: string)
    requires x != ""
    ensures x in t.pending ==> (x in Track(t, s).pending <==> !Clears(t, s, x))
    ensures x !in t.pending ==> (x in Track(t, s).pending <==> Announces(t, s, x))
  {
  }

  /**
   * Over any continuation that does not launch a pending id anew, the id is still pending exactly when no
   * signal of it cleared the id.
   */
  lemma {:induction false} StaysPendingIff(t: Tracker, signals: seq<Signal>, x: string)
    requires x != "" && x in t.pending
    requires forall k :: 0 <= k < |signals| ==> !Announces(TrackAll(t, signals[..k]), signals[k], x)
    ensures x in TrackAll(t, signals).pending <==>
            forall k :: 0 <= k < |signals| ==> !Clears(TrackAll(t, signals[..k]), signals[k], x)
    decreases |signals|
  {
    if signals != [] {
      var last := |signals| - 1;
      assert forall k :: 0 <= k <= last ==> signals[..last][..k] == signals[..k];
      StaysPendingIff(t, signals[..last], x);
      PendingAfterIff(TrackAll(t, signals[..last]), signals[last], x);
    }
  }

  predicate Unowned(t: Tracker, x: string) { forall task :: task in t.owners ==> t.owners[task] != x }

  /** The signal makes the id a launch or an owner again. */
  predicate Revives(s: Signal, x: string) {
    match s
    case Use(_, id, _) => id == x
    case Started(_, tool) => tool == x
    case Notified(task, tool, terminal) => tool == x && task != "" && !terminal
    case ToolResult(_, _) => false
  }

  /** The signal ends the id by naming it: a terminal notification, or the error of an Agent call. */
  predicate EndsByName(names: map<string, ToolName>, s: Signal, x: string) {
    match s
    case Notified(_, tool, terminal) => terminal && tool == x
    case ToolResult(id, isError) => id == x && isError && x in names && names[x] == AgentTool
    case _ => false
  }

  /**
   * An id no task is owned by: over every continuation that does not revive it, it stays pending exactly
   * until a signal ends it by naming it. News about tasks alone never clears it.
   */
  lemma {:induction false} OrphanStaysIff(t: Tracker, signals: seq<Signal>, x: string)
    requires x != "" && x in t.pending && Unowned(t, x)
    requires forall k :: 0 <= k < |signals| ==> !Revives(signals[k], x)
    ensures x in TrackAll(t, signals).pending <==> forall k :: 0 <= k < |signals| ==> !EndsByName(t.names, signals[k], x)
    ensures x in TrackAll(t, signals).pending ==> Unowned(TrackAll(t, signals), x)
    ensures x in TrackAll(t, signals).names <==> x in t.names
    ensures x in t.names ==> TrackAll(t, signals).names[x] == t.names[x]
    decreases |signals|
  {
    if signals != [] {
      var last := |signals| - 1;
      OrphanStaysIff(t, signals[..last], x);
      assert forall k :: 0 <= k < last ==> signals[..last][k] == signals[k];
      OrphanStep(TrackAll(t, signals[..last]), signals[last], x);
    }
  }

  lemma {:induction false} OrphanStep(t: Tracker, s: Signal, x: string)
    requires x != "" && !Revives(s, x)
    ensures x in Track(t, s).names <==> x in t.names
    ensures x in t.names ==> Track(t, s).names[x] == t.names[x]
    ensures x !in t.pending ==> x !in Track(t, s).pending
    ensures x in t.pending && Unowned(t, x) ==>
      (x in Track(t, s).pending <==> !EndsByName(t.names, s, x)) && (x in Track(t, s).pending ==> Unowned(Track(t, s), x))
  {
  }

  /**
   * Progress that names another tool id moves a task's ownership without moving the pending id. From then on,
   * over every continuation that does not revive the old id, it stays pending exactly until a signal names it;
   * the task's own end, reported by task id or under the new tool id, does not clear it.
   */
  lemma {:induction false} ForeignProgressStrandsTheOldId(
    t: Tracker, task: string, first: string, second: string, later: seq<Signal>)
    requires task in t.owners && t.owners[task] == first && first != "" && first in t.pending && task != ""
    requires second != "" && second != first && forall other :: other in t.owners && other != task ==> t.owners[other] != first
    requires forall k :: 0 <= k < |later| ==> !Revives(later[k], first)
    ensures first in TrackAll(Track(t, Notified(task, second, false)), later).pending <==>
            forall k :: 0 <= k < |later| ==> !EndsByName(t.names, later[k], first)
  {
    OrphanStaysIff(Track(t, Notified(task, second, false)), later, first);
  }

  /** An error result clears a pending id exactly when the tool was called Agent. */
  lemma {:induction false} OnlyAgentErrorsClear(t: Tracker, id: string)
    requires id != "" && id in t.pending
    ensures id !in Track(t, ToolResult(id, true)).pending <==> id in t.names && t.names[id] == AgentTool
  {
    PendingAfterIff(t, ToolResult(id, true), id);
  }

  /**
   * So a Task call that failed before its task started stays pending after its error result, over every
   * continuation that does not revive it, exactly until a terminal notification names it.
   */
  lemma {:induction false} FailedTaskStaysIff(t: Tracker, id: string, later: seq<Signal>)
    requires id != "" && id in t.pending && id in t.names && t.names[id] == TaskTool && Unowned(t, id)
    requires forall k :: 0 <= k < |later| ==> !Revives(later[k], id)
    ensures id in TrackAll(Track(t, ToolResult(id, true)), later).pending <==>
            forall k :: 0 <= k < |later| ==> !(later[k].Notified? && later[k].terminal && later[k].tool == id)
  {
    OnlyAgentErrorsClear(t, id);
    OrphanStaysIff(Track(t, ToolResult(id, true)), later, id);
    assert forall k :: 0 <= k < |later| ==>
      (EndsByName(t.names, later[k], id) <==> later[k].Notified? && later[k].terminal && later[k].tool == id);
  }
}
