/**
 * Background jobs (shared/lib/background_jobs.py), the guard that keeps a source's sensitive settings while
 * it is synchronizing (gateway/api.py), and the scheduler (knowledge-indexer/main.py).
 */
module SyncJobs {
  import opened Options

  type JobId = nat
  type SourceId = nat

  datatype JobType = SourceSync | OtherJob(name: string)

  datatype End = Succeeded | Failed | Skipped | Cancelled

  datatype Status = Queued | Running | Ended(end: End)

  datatype Trigger = Manual | Scheduled | Retry | OtherTrigger

  datatype Job = Job(
    jobType: JobType, source: Option<SourceId>, trigger: Trigger, status: Status, startedAt: int,
    heartbeatAt: Option<int>, finishedAt: Option<int>, duration: int, summary: string, error: string)

  datatype SourceKind = Confluence | GitHub

  /** roots stands for the root pages in the config, rest for everything else in it. */
  datatype Config = Config(roots: string, rest: string)

  /** interval is the seconds between scheduled syncs; without one, or with none above zero, there are none. */
  datatype Source = Source(
    kind: SourceKind, index: string, alias: string, credential: string, config: Config,
    interval: Option<int>, enabled: bool, suspendedAt: Option<int>)

  /** A validated update; alias is absent when the caller does not name one. */
  datatype Payload = Payload(
    kind: SourceKind, index: string, alias: Option<string>, credential: string, config: Config,
    interval: Option<int>, enabled: bool)

  datatype Store = Store(jobs: map<JobId, Job>, sources: map<SourceId, Source>, next: JobId)

  /** Job ids are drawn fresh. */
  predicate Valid(s: Store) { forall id :: id in s.jobs ==> id < s.next }

  // ----- one operation each -----

  datatype Action =
    | Queue(jobType: JobType, source: Option<SourceId>, trigger: Trigger, at: int)
    | Claim(id: JobId, at: int)
    | Start(jobType: JobType, source: Option<SourceId>, trigger: Trigger, at: int)
    | Heartbeat(id: JobId, at: int, summary: Option<string>)
    | Finish(id: JobId, end: End, at: int, summary: Option<string>, error: string)
    | Record(jobType: JobType, source: Option<SourceId>, trigger: Trigger, end: End, startedAt: int, finishedAt: int)
    | Reconcile(staleBefore: int, only: Option<JobType>, at: int)
    | UpdateSource(sourceId: SourceId, payload: Payload, at: int)
    | RequestSync(sourceId: SourceId, at: int)

  function Duration(startedAt: int, finishedAt: int): int {
    if finishedAt < startedAt then 0 else finishedAt - startedAt
  }

  function QueuedJob(jobType: JobType, source: Option<SourceId>, trigger: Trigger, at: int): Job {
    Job(jobType, source, trigger, Queued, at, None, None, 0, "queued", "")
  }

  function FinishedJob(job: Job, end: End, at: int, summary: Option<string>, error: string): Job {
    job.(status := Ended(end), heartbeatAt := Some(at), finishedAt := Some(at), duration := Duration(job.startedAt, at),
         summary := if summary.Some? then summary.value else job.summary, error := error)
  }

  predicate Stale(job: Job, staleBefore: int, jobType: Option<JobType>) {
    job.status == Running
    && (if job.heartbeatAt.Some? then job.heartbeatAt.value < staleBefore else job.startedAt < staleBefore)
    && (jobType.Some? ==> job.jobType == jobType.value)
  }

  function Expired(job: Job, at: int): Job {
    FinishedJob(job, Failed, at, Some("startup_reconciliation"), "heartbeat expired")
  }

  /** A job that synchronizes the source and has not ended. */
  predicate ActiveFor(job: Job, id: SourceId) {
    job.jobType == SourceSync && job.source == Some(id) && !job.status.Ended?
  }

  predicate HasActive(jobs: map<JobId, Job>, id: SourceId) { exists j :: j in jobs && ActiveFor(jobs[j], id) }

  /** The settings that may not change under a sync: the connection, and the roots or the whole config. */
  predicate SameSettings(kind: SourceKind, credential: string, config: Config, source: Source) {
    credential == source.credential && if kind.Confluence? then config.roots == source.config.roots else config == source.config
  }

  datatype Verdict = Accepted | NotFound | Immutable | Busy | Disabled

  function UpdateVerdict(s: Store, id: SourceId, p: Payload): Verdict {
    if id !in s.sources then NotFound
    else
      var source := s.sources[id];
      if p.kind != source.kind || p.index != source.index || (p.alias.Some? && p.alias.value != source.alias) then Immutable
      else if !SameSettings(source.kind, p.credential, p.config, source) && HasActive(s.jobs, id) then Busy
      else Accepted
  }

  function Updated(source: Source, p: Payload, at: int): Source {
    Source(source.kind, source.index, source.alias, p.credential, p.config, p.interval, p.enabled,
           if SameSettings(source.kind, p.credential, p.config, source) then source.suspendedAt else Some(at))
  }

  function SyncVerdict(s: Store, id: SourceId): Verdict {
    if id !in s.sources then NotFound
    else if !s.sources[id].enabled then Disabled
    else if HasActive(s.jobs, id) then Busy
    else Accepted
  }

  /** A new row; its source must exist. */
  function Added(s: Store, job: Job): Store {
    if job.source.Some? && job.source.value !in s.sources then s else Store(s.jobs[s.next := job], s.sources, s.next + 1)
  }

  /** The state after one operation; an operation that raises changes nothing. */
  function Step(s: Store, a: Action): Store {
    match a
    case Queue(jobType, source, trigger, at) => Added(s, QueuedJob(jobType, source, trigger, at))
    case Claim(id, at) =>
      if id in s.jobs && s.jobs[id].status == Queued
      then s.(jobs := s.jobs[id := s.jobs[id].(status := Running, startedAt := at, heartbeatAt := Some(at))]) else s
    case Start(jobType, source, trigger, at) =>
      Added(s, Job(jobType, source, trigger, Running, at, Some(at), None, 0, "", ""))
    case Heartbeat(id, at, summary) =>
      if id in s.jobs && s.jobs[id].status == Running
      then s.(jobs := s.jobs[id := s.jobs[id].(heartbeatAt := Some(at),
             summary := if summary.Some? then summary.value else s.jobs[id].summary)])
      else s
    case Finish(id, end, at, summary, error) =>
      if id in s.jobs && s.jobs[id].status == Running
      then s.(jobs := s.jobs[id := FinishedJob(s.jobs[id], end, at, summary, error)]) else s
    case Record(jobType, source, trigger, end, startedAt, finishedAt) =>
      Added(s, Job(jobType, source, trigger, Ended(end), startedAt, Some(finishedAt), Some(finishedAt),
                   Duration(startedAt, finishedAt), "", ""))
    case Reconcile(staleBefore, jobType, at) =>
      s.(jobs := map id | id in s.jobs :: if Stale(s.jobs[id], staleBefore, jobType) then Expired(s.jobs[id], at) else s.jobs[id])
    case UpdateSource(id, payload, at) =>
      if UpdateVerdict(s, id, payload) == Accepted
      then s.(sources := s.sources[id := Updated(s.sources[id], payload, at)]) else s
    case RequestSync(id, at) =>
      if SyncVerdict(s, id) == Accepted then Added(s, QueuedJob(SourceSync, Some(id), Manual, at)) else s
  }

  // ----- the scheduler -----

  /** source_is_due. */
  predicate SourceIsDue(interval: Option<int>, lastStarted: Option<int>, now: int) {
    interval.Some? && interval.value > 0 && (lastStarted.None? || lastStarted.value <= now - interval.value)
  }

  predicate SyncOf(job: Job, id: SourceId) { job.jobType == SourceSync && job.source == Some(id) }

  /** An enabled source with an interval, none of whose syncs started less than that interval ago. */
  predicate Due(s: Store, id: SourceId, now: int) {
    id in s.sources && s.sources[id].enabled && s.sources[id].interval.Some? && s.sources[id].interval.value > 0
    && forall j :: j in s.jobs && SyncOf(s.jobs[j], id) ==> s.jobs[j].startedAt + s.sources[id].interval.value <= now
  }

  function DueSources(s: Store, now: int): set<SourceId> { set id | id in s.sources && Due(s, id, now) }

  // ----- the tables -----

  class Tables {
    var jobs: map<JobId, Job>
    var sources: map<SourceId, Source>
    var next: JobId

    constructor (sources: map<SourceId, Source>)
      ensures Contents() == Store(map[], sources, 0)
    {
      this.jobs, this.sources, this.next := map[], sources, 0;
    }

    function Contents(): Store
      reads this
    {
      Store(jobs, sources, next)
    }

    method Insert(job: Job) returns (id: Option<JobId>)
      modifies this
      ensures Contents() == Added(old(Contents()), job)
      ensures id == if job.source.Some? && job.source.value !in sources then None else Some(old(next))
    {
      if job.source.Some? && job.source.value !in sources { return None; }
      id := Some(next);
      jobs, next := jobs[next := job], next + 1;
    }

    method QueueBackgroundJob(
      jobType: JobType, source: Option<SourceId>, trigger: Trigger, now: int) returns (id: Option<JobId>)
      modifies this
      ensures Contents() == Step(old(Contents()), Queue(jobType, source, trigger, now))
      ensures id == if source.Some? && source.value !in sources then None else Some(old(next))
    {
      id := Insert(QueuedJob(jobType, source, trigger, now));
    }

    method ClaimBackgroundJob(id: JobId, now: int) returns (ok: bool)
      modifies this
      ensures Contents() == Step(old(Contents()), Claim(id, now))
      ensures ok <==> id in old(jobs) && old(jobs)[id].status == Queued
    {
      if id !in jobs { return false; }
      var job := jobs[id];
      if job.status != Queued { return false; }
      jobs := jobs[id := job.(status := Running, startedAt := now, heartbeatAt := Some(now))];
      ok := true;
    }

    method StartBackgroundJob(
      jobType: JobType, source: Option<SourceId>, trigger: Trigger, now: int) returns (id: Option<JobId>)
      modifies this
      ensures Contents() == Step(old(Contents()), Start(jobType, source, trigger, now))
    {
      id := Insert(Job(jobType, source, trigger, Running, now, Some(now), None, 0, "", ""));
    }

    method HeartbeatBackgroundJob(id: JobId, now: int, summary: Option<string>) returns (ok: bool)
      modifies this
      ensures Contents() == Step(old(Contents()), Heartbeat(id, now, summary))
      ensures ok <==> id in old(jobs) && old(jobs)[id].status == Running
    {
      if id !in jobs || jobs[id].status != Running { return false; }
      var job := jobs[id].(heartbeatAt := Some(now));
      if summary.Some? { job := job.(summary := summary.value); }
      jobs := jobs[id := job];
      ok := true;
    }

    method FinishBackgroundJob(id: JobId, end: End, now: int, summary: Option<string>, error: string) returns (ok: bool)
      modifies this
      ensures Contents() == Step(old(Contents()), Finish(id, end, now, summary, error))
      ensures ok <==> id in old(jobs) && old(jobs)[id].status == Running
    {
      if id !in jobs || jobs[id].status != Running { return false; }
      var job := jobs[id];
      job := job.(status := Ended(end), heartbeatAt := Some(now), finishedAt := Some(now), duration := Duration(job.startedAt, now));
      if summary.Some? { job := job.(summary := summary.value); }
      jobs := jobs[id := job.(error := error)];
      ok := true;
    }

    method RecordCompletedBackgroundJob(
      jobType: JobType, source: Option<SourceId>, trigger: Trigger, end: End, startedAt: int, finishedAt: int)
      returns (id: Option<JobId>)
      modifies this
      ensures Contents() == Step(old(Contents()), Record(jobType, source, trigger, end, startedAt, finishedAt))
    {
      id := Insert(Job(jobType, source, trigger, Ended(end), startedAt, Some(finishedAt), Some(finishedAt),
                       Duration(startedAt, finishedAt), "", ""));
    }

    method ReconcileStaleBackgroundJobs(
      staleBefore: int, jobType: Option<JobType>, now: int) returns (reconciled: set<JobId>)
      modifies this
      ensures Contents() == Step(old(Contents()), Reconcile(staleBefore, jobType, now))
      ensures reconciled == set id | id in old(jobs) && Stale(old(jobs)[id], staleBefore, jobType)
    {
      reconciled := set id | id in jobs && Stale(jobs[id], staleBefore, jobType);
      var todo := reconciled;
      while todo != {}
        invariant todo <= reconciled && sources == old(sources) && next == old(next)
        invariant jobs.Keys == old(jobs).Keys
        invariant forall id :: id in jobs ==>
          jobs[id] == if id in reconciled - todo then Expired(old(jobs)[id], now) else old(jobs)[id]
        decreases todo
      {
        var id :| id in todo;
        jobs := jobs[id := Expired(jobs[id], now)];
        todo := todo - {id};
      }
      assert jobs == Step(old(Contents()), Reconcile(staleBefore, jobType, now)).jobs;
    }

    method UpdateKnowledgeSource(id: SourceId, payload: Payload, now: int) returns (verdict: Verdict)
      modifies this
      ensures Contents() == Step(old(Contents()), UpdateSource(id, payload, now))
      ensures verdict == UpdateVerdict(old(Contents()), id, payload)
    {
      if id !in sources { return NotFound; }
      var source := sources[id];
      if (payload.kind, payload.index) != (source.kind, source.index) { return Immutable; }
      if payload.alias.Some? && payload.alias.value != source.alias { return Immutable; }
      if !SameSettings(source.kind, payload.credential, payload.config, source) {
        if HasActive(jobs, id) { return Busy; }
        source := source.(suspendedAt := Some(now));
      }
      source := source.(credential := payload.credential, config := payload.config);
      source := source.(interval := payload.interval, enabled := payload.enabled);
      sources := sources[id := source];
      verdict := Accepted;
    }

    method QueueKnowledgeSourceSync(id: SourceId, now: int) returns (verdict: Verdict)
      modifies this
      ensures Contents() == Step(old(Contents()), RequestSync(id, now))
      ensures verdict == SyncVerdict(old(Contents()), id)
    {
      if id !in sources { return NotFound; }
      if !sources[id].enabled { return Disabled; }
      if HasActive(jobs, id) { return Busy; }
      var queued := QueueBackgroundJob(SourceSync, Some(id), Manual, now);
      verdict := Accepted;
    }

    /** When the source's latest sync started. */
    method LastStarted(id: SourceId) returns (latest: Option<int>)
      ensures latest.None? ==> forall j :: j in jobs ==> !SyncOf(jobs[j], id)
      ensures latest.Some? ==> exists j :: j in jobs && SyncOf(jobs[j], id) && jobs[j].startedAt == latest.value
      ensures latest.Some? ==> forall j :: j in jobs && SyncOf(jobs[j], id) ==> jobs[j].startedAt <= latest.value
    {
      latest := None;
      var todo := jobs.Keys;
      while todo != {}
        invariant todo <= jobs.Keys
        invariant latest.None? ==> forall j :: j in jobs && j !in todo ==> !SyncOf(jobs[j], id)
        invariant latest.Some? ==> exists j :: j in jobs && SyncOf(jobs[j], id) && jobs[j].startedAt == latest.value
        invariant latest.Some? ==> forall j :: j in jobs && j !in todo && SyncOf(jobs[j], id) ==> jobs[j].startedAt <= latest.value
        decreases todo
      {
        var j :| j in todo;
        if SyncOf(jobs[j], id) && (latest.None? || latest.value < jobs[j].startedAt) {
          latest := Some(jobs[j].startedAt);
        }
        todo := todo - {j};
      }
    }

    method CheckDue(id: SourceId, now: int) returns (due: bool)
      requires id in sources
      ensures due <==> Due(Contents(), id, now)
    {
      if !sources[id].enabled { return false; }
      var last := LastStarted(id);
      due := SourceIsDue(sources[id].interval, last, now);
    }

    method DueSourceIds(now: int) returns (due: set<SourceId>)
      ensures due == DueSources(Contents(), now)
    {
      due := {};
      var todo := sources.Keys;
      while todo != {}
        invariant todo <= sources.Keys && due == DueSources(Contents(), now) - todo
        decreases todo
      {
        var id: SourceId :| id in todo;
        var dueNow := CheckDue(id, now);
        if dueNow { due := due + {id}; }
        todo := todo - {id};
      }
    }

    /** queue_due_sources: one queued sync for every source that is due, and nothing else. */
    method QueueDueSources(now: int, at: int)
      requires Valid(Contents())
      modifies this
      ensures QueuedFor(old(Contents()), Contents(), DueSources(old(Contents()), now), at)
    {
      var due := DueSourceIds(now);
      var todo := due;
      while todo != {}
        invariant todo <= due && Valid(Contents()) && QueuedFor(old(Contents()), Contents(), due - todo, at)
        decreases todo
      {
        var id: SourceId :| id in todo;
        QueuedForNext(old(Contents()), Contents(), due, todo, id, at);
        var queued := QueueBackgroundJob(SourceSync, Some(id), Scheduled, at);
        todo := todo - {id};
      }
      assert due - todo == due;
    }
  }

  /** The second store has, besides the first one's rows, one queued scheduled sync for each of these sources. */
  ghost predicate QueuedFor(before: Store, after: Store, ids: set<SourceId>, at: int) {
    && after.sources == before.sources && after.next == before.next + |ids|
    && (forall j: nat :: j in after.jobs <==> j in before.jobs || before.next <= j < after.next)
    && (forall j :: j in before.jobs ==> after.jobs[j] == before.jobs[j])
    && (forall j :: before.next <= j < after.next ==>
          after.jobs[j].source.Some? && after.jobs[j].source.value in ids
          && after.jobs[j] == QueuedJob(SourceSync, after.jobs[j].source, Scheduled, at))
    && (forall id :: id in ids ==> SomeFor(after.jobs, before.next, after.next, id))
    && (forall j, k :: before.next <= j < k < after.next ==> after.jobs[j].source != after.jobs[k].source)
  }

  predicate SomeFor(jobs: map<JobId, Job>, from: nat, to: nat, id: SourceId) {
    exists j: nat :: from <= j < to && j in jobs && jobs[j].source == Some(id)
  }

  /** One more source queued, out of those still to do. */
  lemma {:induction false} QueuedForNext(
    before: Store, now: Store, due: set<SourceId>, todo: set<SourceId>, id: SourceId, at: int)
    requires Valid(before) && Valid(now) && todo <= due && id in todo && id in before.sources
    requires QueuedFor(before, now, due - todo, at)
    ensures var after := Step(now, Queue(SourceSync, Some(id), Scheduled, at));
      Valid(after) && QueuedFor(before, after, due - (todo - {id}), at)
  {
    var after := Step(now, Queue(SourceSync, Some(id), Scheduled, at));
    assert due - (todo - {id}) == (due - todo) + {id};
    assert after == Store(now.jobs[now.next := QueuedJob(SourceSync, Some(id), Scheduled, at)], now.sources, now.next + 1);
    RowsAfter(before, now, after, due - todo, id, at);
    SourcesAfter(before, now, after, due - todo, id, at);
  }

  lemma {:induction false} RowsAfter(before: Store, now: Store, after: Store, ids: set<SourceId>, id: SourceId, at: int)
    requires Valid(before) && Valid(now) && QueuedFor(before, now, ids, at) && id !in ids
    requires after.next == now.next + 1 && after.jobs == now.jobs[now.next := QueuedJob(SourceSync, Some(id), Scheduled, at)]
    ensures forall j: nat :: j in after.jobs <==> j in before.jobs || before.next <= j < after.next
    ensures forall j :: j in before.jobs ==> after.jobs[j] == before.jobs[j]
    ensures forall j :: before.next <= j < after.next ==>
      after.jobs[j].source.Some? && after.jobs[j].source.value in ids + {id}
      && after.jobs[j] == QueuedJob(SourceSync, after.jobs[j].source, Scheduled, at)
    ensures forall j, k :: before.next <= j < k < after.next ==> after.jobs[j].source != after.jobs[k].source
  {
    forall j | before.next <= j < after.next
      ensures j in after.jobs && after.jobs[j].source.Some? && after.jobs[j].source.value in ids + {id}
      ensures after.jobs[j] == QueuedJob(SourceSync, after.jobs[j].source, Scheduled, at)
      ensures j < now.next ==> after.jobs[j].source != Some(id)
    {
      assert j < now.next ==> after.jobs[j] == now.jobs[j];
    }
  }

  lemma {:induction false} SourcesAfter(before: Store, now: Store, after: Store, ids: set<SourceId>, id: SourceId, at: int)
    requires Valid(before) && Valid(now) && QueuedFor(before, now, ids, at)
    requires after.next == now.next + 1 && after.jobs == now.jobs[now.next := QueuedJob(SourceSync, Some(id), Scheduled, at)]
    ensures forall k :: k in ids + {id} ==> SomeFor(after.jobs, before.next, after.next, k)
  {
    assert after.jobs[now.next].source == Some(id);
    forall k | k in ids + {id} ensures SomeFor(after.jobs, before.next, after.next, k) {
      if k != id { StillSomeFor(now.jobs, after.jobs, before.next, now.next, k); }
    }
  }

  lemma {:induction false} StillSomeFor(jobs: map<JobId, Job>, more: map<JobId, Job>, from: nat, to: nat, id: SourceId)
    requires SomeFor(jobs, from, to, id) && forall j :: j in jobs && j < to ==> j in more && more[j] == jobs[j]
    ensures SomeFor(more, from, to + 1, id)
  {
    var j: nat :| from <= j < to && j in jobs && jobs[j].source == Some(id);
    assert more[j].source == Some(id);
  }

  // ----- whole runs -----

  function Run(s: Store, actions: seq<Action>): Store
    decreases actions
  {
    if actions == [] then s else Run(Step(s, actions[0]), actions[1..])
  }

  lemma {:induction false} RunStaysValid(s: Store, actions: seq<Action>)
    requires Valid(s)
    ensures Valid(Run(s, actions))
    decreases actions
  {
    if actions != [] { RunStaysValid(Step(s, actions[0]), actions[1..]); }
  }

  function Rank(status: Status): nat {
    match status
    case Queued => 0
    case Running => 1
    case Ended(_) => 2
  }

  /** One operation moves a job at most one status on, never changes what it is for, and leaves an ended job alone. */
  lemma {:induction false} StepMovesForward(s: Store, a: Action, id: JobId)
    requires Valid(s) && id in s.jobs
    ensures id in Step(s, a).jobs
    ensures var before, after := s.jobs[id], Step(s, a).jobs[id];
      && Rank(before.status) <= Rank(after.status) <= Rank(before.status) + 1
      && (before.status.Ended? ==> after == before)
      && after.jobType == before.jobType && after.source == before.source && after.trigger == before.trigger
  {}

  /** Over any run: statuses never go back, and once a job has ended its row is final. */
  lemma {:induction false} JobsMoveForward(s: Store, actions: seq<Action>, id: JobId)
    requires Valid(s) && id in s.jobs
    ensures id in Run(s, actions).jobs
    ensures var before, after := s.jobs[id], Run(s, actions).jobs[id];
      && Rank(before.status) <= Rank(after.status)
      && (before.status.Ended? ==> after == before)
      && after.jobType == before.jobType && after.source == before.source
    decreases actions
  {
    if actions != [] {
      StepMovesForward(s, actions[0], id);
      JobsMoveForward(Step(s, actions[0]), actions[1..], id);
    }
  }

  /** How many claims of a job succeed in a run. */
  function Claims(s: Store, actions: seq<Action>, id: JobId): nat
    decreases actions
  {
    if actions == [] then 0
    else
      var a := actions[0];
      (if a.Claim? && a.id == id && id in s.jobs && s.jobs[id].status == Queued then 1 else 0) + Claims(Step(s, a), actions[1..], id)
  }

  lemma {:induction false} ClaimedAtMostOnce(s: Store, actions: seq<Action>, id: JobId)
    requires Valid(s)
    ensures Claims(s, actions, id) <= 1
    ensures id in s.jobs && s.jobs[id].status != Queued ==> Claims(s, actions, id) == 0
    decreases actions
  {
    if actions != [] {
      if id in s.jobs { StepMovesForward(s, actions[0], id); }
      ClaimedAtMostOnce(Step(s, actions[0]), actions[1..], id);
    }
  }

  /** The settings a sync depends on. */
  predicate SettingsKept(before: Source, after: Source) {
    after.kind == before.kind && SameSettings(before.kind, after.credential, after.config, before)
  }

  /** A change of those settings is only accepted while no sync of the source is active, and then suspends serving. */
  lemma {:induction false} OnlyIdleSourcesChange(s: Store, a: Action, id: SourceId)
    requires id in s.sources
    ensures id in Step(s, a).sources
    ensures !SettingsKept(s.sources[id], Step(s, a).sources[id]) ==>
      a.UpdateSource? && a.sourceId == id && !HasActive(s.jobs, id) && Step(s, a).sources[id].suspendedAt == Some(a.at)
  {}

  /** From queueing to the end of a sync its source keeps the connection, the kind, and the roots or the config. */
  lemma {:induction false} SettingsKeptWhileActive(s: Store, actions: seq<Action>, job: JobId, id: SourceId)
    requires Valid(s) && id in s.sources && job in s.jobs && ActiveFor(s.jobs[job], id)
    requires job in Run(s, actions).jobs && ActiveFor(Run(s, actions).jobs[job], id)
    ensures id in Run(s, actions).sources && SettingsKept(s.sources[id], Run(s, actions).sources[id])
    decreases actions
  {
    if actions != [] {
      var t := Step(s, actions[0]);
      StepMovesForward(s, actions[0], job);
      OnlyIdleSourcesChange(s, actions[0], id);
      assert HasActive(s.jobs, id);
      JobsMoveForward(t, actions[1..], job);
      SettingsKeptWhileActive(t, actions[1..], job, id);
    }
  }

  // ----- how many syncs a source can have at once -----

  /** A sync asked for by hand is accepted exactly when the enabled source has none active, and is then its only one. */
  lemma {:induction false} RequestedSyncIsAlone(s: Store, id: SourceId, at: int)
    requires Valid(s) && id in s.sources && s.sources[id].enabled
    ensures var t := Step(s, RequestSync(id, at));
      if HasActive(s.jobs, id) then t == s
      else t.jobs.Keys == s.jobs.Keys + {s.next} && forall j :: j in t.jobs ==> (ActiveFor(t.jobs[j], id) <==> j == s.next)
  {
    assert forall j :: j in s.jobs && ActiveFor(s.jobs[j], id) ==> HasActive(s.jobs, id);
  }

  ghost predicate OneActive(jobs: map<JobId, Job>, id: SourceId) {
    forall j, k :: j in jobs && k in jobs && ActiveFor(jobs[j], id) && ActiveFor(jobs[k], id) ==> j == k
  }

  /**
   * The scheduler does not look for an active sync. Where no source had two, a scheduler pass leaves every
   * source with at most one exactly when no source was due while one of its syncs was active.
   */
  lemma {:induction false} PassKeepsSyncsAloneIff(before: Store, after: Store, now: int, at: int)
    requires Valid(before) && (forall id :: OneActive(before.jobs, id))
    requires QueuedFor(before, after, DueSources(before, now), at)
    ensures (forall id :: OneActive(after.jobs, id)) <==> forall id :: Due(before, id, now) ==> !HasActive(before.jobs, id)
  {
    if forall id :: Due(before, id, now) ==> !HasActive(before.jobs, id) {
      forall id ensures OneActive(after.jobs, id) { PassLeavesOne(before, after, now, at, id); }
    } else {
      var id :| Due(before, id, now) && HasActive(before.jobs, id);
      var j, k := ScheduledSyncIsNotAlone(before, after, now, at, id);
      assert !OneActive(after.jobs, id);
    }
  }

  lemma {:induction false} PassLeavesOne(before: Store, after: Store, now: int, at: int, id: SourceId)
    requires Valid(before) && OneActive(before.jobs, id) && QueuedFor(before, after, DueSources(before, now), at)
    requires Due(before, id, now) ==> !HasActive(before.jobs, id)
    ensures OneActive(after.jobs, id)
  {
    forall j, k | j in after.jobs && k in after.jobs && ActiveFor(after.jobs[j], id) && ActiveFor(after.jobs[k], id)
      ensures j == k
    {
      assert j in before.jobs && k >= before.next ==> HasActive(before.jobs, id) && id in DueSources(before, now);
      assert k in before.jobs && j >= before.next ==> HasActive(before.jobs, id) && id in DueSources(before, now);
    }
  }

  /** A source that is due while one of its syncs is active has two after the pass. */
  lemma {:induction false} ScheduledSyncIsNotAlone(before: Store, after: Store, now: int, at: int, id: SourceId)
    returns (running: JobId, queued: JobId)
    requires Valid(before) && QueuedFor(before, after, DueSources(before, now), at)
    requires Due(before, id, now) && HasActive(before.jobs, id)
    ensures running != queued && running in after.jobs && queued in after.jobs
    ensures ActiveFor(after.jobs[running], id) && ActiveFor(after.jobs[queued], id)
  {
    running :| running in before.jobs && ActiveFor(before.jobs[running], id);
    assert SomeFor(after.jobs, before.next, after.next, id);
    queued :| before.next <= queued < after.next && queued in after.jobs && after.jobs[queued].source == Some(id);
  }

  /** A sync that was asked for and claimed: it is active, and its source is due again as soon as the interval is over. */
  lemma {:induction false} SlowSyncIsDueWhileActive(s: Store, id: SourceId, asked: int, claimed: int, now: int)
    requires Valid(s) && id in s.sources && s.sources[id].enabled && !HasActive(s.jobs, id)
    requires s.sources[id].interval.Some? && s.sources[id].interval.value > 0
    requires forall j :: j in s.jobs && SyncOf(s.jobs[j], id) ==> s.jobs[j].startedAt <= claimed
    ensures var t := Run(s, [RequestSync(id, asked), Claim(s.next, claimed)]);
      && Valid(t) && HasActive(t.jobs, id)
      && (Due(t, id, now) <==> claimed + s.sources[id].interval.value <= now)
  {
    var asking, claiming := RequestSync(id, asked), Claim(s.next, claimed);
    assert [asking, claiming][1..] == [claiming] && [claiming][1..] == [];
    var u := Step(s, asking);
    var t := Step(u, claiming);
    assert Run(u, [claiming]) == t by { assert Run(t, []) == t; }
    assert u.jobs == s.jobs[s.next := QueuedJob(SourceSync, Some(id), Manual, asked)];
    assert ActiveFor(t.jobs[s.next], id) && t.jobs[s.next].startedAt == claimed;
  }

  // ----- the scheduler keeps its interval -----

  predicate ClaimsNotBefore(actions: seq<Action>, floor: int) { forall a :: a in actions && a.Claim? ==> floor <= a.at }

  /** A claim moves the start of a job, but only to the time of the claim. */
  lemma {:induction false} StartsNotBefore(s: Store, actions: seq<Action>, job: JobId, floor: int)
    requires Valid(s) && job in s.jobs && floor <= s.jobs[job].startedAt && ClaimsNotBefore(actions, floor)
    ensures job in Run(s, actions).jobs && floor <= Run(s, actions).jobs[job].startedAt
    decreases actions
  {
    if actions != [] {
      StepMovesForward(s, actions[0], job);
      assert actions[0] in actions;
      StartsNotBefore(Step(s, actions[0]), actions[1..], job, floor);
    }
  }

  /** Whatever happens after a sync was queued, its source is not due again before its interval is over. */
  lemma {:induction false} NotDueWithinInterval(s: Store, actions: seq<Action>, job: JobId, id: SourceId, now: int)
    requires Valid(s) && job in s.jobs && SyncOf(s.jobs[job], id) && ClaimsNotBefore(actions, s.jobs[job].startedAt)
    requires id in Run(s, actions).sources && Run(s, actions).sources[id].interval.Some?
    requires now < s.jobs[job].startedAt + Run(s, actions).sources[id].interval.value
    ensures !Due(Run(s, actions), id, now)
  {
    StartsNotBefore(s, actions, job, s.jobs[job].startedAt);
    JobsMoveForward(s, actions, job);
  }
}
