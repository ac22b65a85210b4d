/** Token accounting from subagent progress to the task row (runtime/session_entrypoint.py, gateway/event_collector.py). */
module Tokens {
  import opened Options

  /** A usage payload: its own total, only input and output counts (already added up), or nothing usable. */
  datatype Usage = Unusable | Total(tokens: int) | Parts(tokens: int)

  /** A task_progress or task_notification payload. */
  datatype Progress = Progress(task: string, usage: Usage)

  datatype Message =
    | Subagent(workflow: Option<int>, usage: Usage)
    | ResultUsage(usage: Usage)
    | Other

  function Max(a: int, b: int): int { if a < b then b else a }

  // ----- the runtime: per-subagent maxima -----

  predicate Counts(p: Progress) { p.task != "" && p.usage.Total? }

  function Seen(totals: map<string, int>, task: string): int {
    if task in totals then totals[task] else 0
  }

  function Observe(totals: map<string, int>, p: Progress): map<string, int> {
    if Counts(p) then totals[p.task := Max(Seen(totals, p.task), p.usage.tokens)] else totals
  }

  ghost function Sum(totals: map<string, int>): int
    decreases |totals|
  {
    if totals == map[] then 0
    else
      var k :| k in totals;
      totals[k] + Sum(totals - {k})
  }

  /** The sum does not depend on the order the entries are taken in. */
  lemma {:induction false} SumWithout(totals: map<string, int>, k: string)
    requires k in totals
    ensures Sum(totals) == totals[k] + Sum(totals - {k})
    decreases |totals|
  {
    var j :| j in totals && Sum(totals) == totals[j] + Sum(totals - {j});
    if j != k {
      SumWithout(totals - {j}, k);
      SumWithout(totals - {k}, j);
      assert totals - {j} - {k} == totals - {k} - {j};
    }
  }

  lemma {:induction false} SumUpdated(totals: map<string, int>, k: string, v: int)
    ensures Sum(totals[k := v]) == Sum(totals) - Seen(totals, k) + v
  {
    SumWithout(totals[k := v], k);
    assert totals[k := v] - {k} == totals - {k};
    if k in totals {
      SumWithout(totals, k);
    } else {
      assert totals - {k} == totals;
    }
  }

  ghost function Annotated(totals: map<string, int>, p: Progress): Message {
    if Counts(p) then Subagent(Some(Sum(Observe(totals, p))), p.usage) else Subagent(None, p.usage)
  }

  class UsageTotals {
    var totals: map<string, int>

    constructor ()
      ensures totals == map[]
    {
      totals := map[];
    }

    method SumOfTotals() returns (sum: int)
      ensures sum == Sum(totals)
    {
      sum := 0;
      var left := totals;
      while left != map[]
        invariant sum + Sum(left) == Sum(totals)
        decreases |left|
      {
        var k :| k in left;
        SumWithout(left, k);
        sum := sum + left[k];
        left := left - {k};
      }
    }

    method AnnotateWorkflowUsage(p: Progress) returns (message: Message)
      modifies this
      ensures totals == Observe(old(totals), p) && message == Annotated(old(totals), p)
    {
      if p.task == "" || !p.usage.Total? { return Subagent(None, p.usage); }
      totals := totals[p.task := Max(if p.task in totals then totals[p.task] else 0, p.usage.tokens)];
      var sum := SumOfTotals();
      message := Subagent(Some(sum), p.usage);
    }
  }

  function ObserveAll(totals: map<string, int>, ps: seq<Progress>): map<string, int>
    decreases |ps|
  {
    if ps == [] then totals else Observe(ObserveAll(totals, ps[..|ps| - 1]), ps[|ps| - 1])
  }

  /** The largest total a subagent has reported, at least zero. */
  function Largest(ps: seq<Progress>, task: string): int
    decreases |ps|
  {
    if ps == [] then 0
    else
      var p := ps[|ps| - 1];
      var before := Largest(ps[..|ps| - 1], task);
      if Counts(p) && p.task == task then Max(before, p.usage.tokens) else before
  }

  /** The totals are exactly the per-subagent maxima of everything reported. */
  lemma {:induction false} TotalsAreMaxima(ps: seq<Progress>, task: string)
    ensures Seen(ObserveAll(map[], ps), task) == Largest(ps, task)
    ensures task in ObserveAll(map[], ps) <==> exists i :: 0 <= i < |ps| && Counts(ps[i]) && ps[i].task == task
    decreases |ps|
  {
    if ps != [] {
      var front := ps[..|ps| - 1];
      TotalsAreMaxima(front, task);
      if task in ObserveAll(map[], front) {
        var i :| 0 <= i < |front| && Counts(front[i]) && front[i].task == task;
        assert ps[i] == front[i];
      }
      if i :| 0 <= i < |ps| && Counts(ps[i]) && ps[i].task == task {
        if i < |front| { assert front[i] == ps[i]; }
      }
    }
  }

  /** An annotated workflow total never goes down. */
  lemma {:induction false} SumNeverDrops(totals: map<string, int>, p: Progress)
    requires forall k :: k in totals ==> totals[k] >= 0
    ensures Sum(Observe(totals, p)) >= Sum(totals)
    ensures forall k :: k in Observe(totals, p) ==> Observe(totals, p)[k] >= 0
  {
    if Counts(p) {
      SumUpdated(totals, p.task, Max(Seen(totals, p.task), p.usage.tokens));
    }
  }

  // ----- the gateway: the task row's counter -----

  function Coerce(usage: Usage): Option<int> {
    if usage.Unusable? then None else Some(usage.tokens)
  }

  function MessageTotal(m: Message): Option<int> {
    match m
    case Subagent(workflow, usage) => if workflow.Some? then workflow else Coerce(usage)
    case ResultUsage(usage) => Coerce(usage)
    case Other => None
  }

  /** The last total a batch mentions. */
  function Extract(messages: seq<Message>): Option<int>
    decreases |messages|
  {
    if messages == [] then None
    else
      var last := MessageTotal(messages[|messages| - 1]);
      if last.Some? then last else Extract(messages[..|messages| - 1])
  }

  method ExtractIncrementalTokens(messages: seq<Message>) returns (latest: Option<int>)
    ensures latest == Extract(messages)
  {
    latest := None;
    var i := 0;
    while i < |messages|
      invariant i <= |messages| && latest == Extract(messages[..i])
    {
      assert messages[..i + 1][..i] == messages[..i];
      var total := MessageTotal(messages[i]);
      if total.Some? { latest := total; }
      i := i + 1;
    }
    assert messages[..i] == messages;
  }

  /** Events that can move tokens_used; waiting says the task is in a human wait when its session completes. */
  datatype Report =
    | Batch(messages: seq<Message>)
    | Complete(input: int, output: int, waiting: bool)
    | Stopped(input: int, output: int)

  function Observed(r: Report): Option<int> {
    match r
    case Batch(messages) => Extract(messages)
    case Complete(input, output, waiting) => if waiting then None else Some(input + output)
    case Stopped(input, output) => if input != 0 || output != 0 then Some(input + output) else None
  }

  function OrZero(tokens: Option<int>): int {
    if tokens.Some? then tokens.value else 0
  }

  function Account(tokens: Option<int>, r: Report): Option<int> {
    var seen := Observed(r);
    if seen.Some? then Some(Max(OrZero(tokens), seen.value)) else tokens
  }

  function AccountAll(tokens: Option<int>, reports: seq<Report>): Option<int>
    decreases |reports|
  {
    if reports == [] then tokens else Account(AccountAll(tokens, reports[..|reports| - 1]), reports[|reports| - 1])
  }

  class TaskRow {
    var tokensUsed: Option<int>

    method Receive(r: Report)
      modifies this
      ensures tokensUsed == Account(old(tokensUsed), r)
    {
      match r {
        case Batch(messages) =>
          var incremental := ExtractIncrementalTokens(messages);
          if incremental.Some? { tokensUsed := Some(Max(OrZero(tokensUsed), incremental.value)); }
        case Complete(input, output, waiting) =>
          if !waiting { tokensUsed := Some(Max(OrZero(tokensUsed), input + output)); }
        case Stopped(input, output) =>
          if input != 0 || output != 0 { tokensUsed := Some(Max(OrZero(tokensUsed), input + output)); }
      }
    }
  }

  ghost predicate SomeObserved(reports: seq<Report>) {
    exists i :: 0 <= i < |reports| && Observed(reports[i]).Some?
  }

  /** The counter ends at the largest of its start and everything observed, in whatever order it came. */
  lemma {:induction false} CounterIsMaximum(tokens: Option<int>, reports: seq<Report>)
    ensures var end := AccountAll(tokens, reports);
      && (!SomeObserved(reports) ==> end == tokens)
      && (SomeObserved(reports) ==>
            && end.Some?
            && OrZero(tokens) <= end.value
            && (forall i :: 0 <= i < |reports| && Observed(reports[i]).Some? ==> Observed(reports[i]).value <= end.value)
            && (end.value == OrZero(tokens) || exists i :: 0 <= i < |reports| && Observed(reports[i]) == Some(end.value)))
    decreases |reports|
  {
    if reports != [] {
      var front := reports[..|reports| - 1];
      CounterIsMaximum(tokens, front);
      var end := AccountAll(tokens, front);
      assert forall i :: 0 <= i < |front| ==> front[i] == reports[i];
      if SomeObserved(front) {
        var i :| 0 <= i < |front| && Observed(front[i]).Some?;
        assert Observed(reports[i]).Some?;
        if end.value != OrZero(tokens) {
          var j :| 0 <= j < |front| && Observed(front[j]) == Some(end.value);
          assert Observed(reports[j]) == Some(end.value);
        }
      } else if SomeObserved(reports) {
        assert Observed(reports[|reports| - 1]).Some?;
      }
    }
  }

  // ----- from subagents to the task row -----

  /** What the runtime puts into a batch: subagent progress, the coordinator's result, or anything else. */
  datatype Item = Progressed(p: Progress) | Finished(usage: Usage) | Silent

  predicate Counting(x: Item) { x.Progressed? && Counts(x.p) }

  /** The total an item mentions by itself, without the workflow total that counting progress is annotated with. */
  function Plain(x: Item): Option<int> {
    match x
    case Progressed(p) => if Counts(p) then None else Coerce(p.usage)
    case Finished(usage) => Coerce(usage)
    case Silent => None
  }

  function AfterItems(totals: map<string, int>, items: seq<Item>): map<string, int>
    decreases |items|
  {
    if items == [] then totals
    else
      var before, last := AfterItems(totals, items[..|items| - 1]), items[|items| - 1];
      if last.Progressed? then Observe(before, last.p) else before
  }

  /** The progress among the items. */
  function ProgressOf(items: seq<Item>): seq<Progress>
    decreases |items|
  {
    if items == [] then []
    else
      var front, last := ProgressOf(items[..|items| - 1]), items[|items| - 1];
      if last.Progressed? then front + [last.p] else front
  }

  lemma {:induction false} ItemsObserve(items: seq<Item>)
    ensures AfterItems(map[], items) == ObserveAll(map[], ProgressOf(items))
    decreases |items|
  {
    if items != [] {
      var front, last := items[..|items| - 1], items[|items| - 1];
      ItemsObserve(front);
      if last.Progressed? { ObserveSnoc(ProgressOf(front), last.p); }
    }
  }

  lemma {:induction false} ObserveSnoc(ps: seq<Progress>, p: Progress)
    ensures ObserveAll(map[], ps + [p]) == Observe(ObserveAll(map[], ps), p)
  {
    assert (ps + [p])[..|ps|] == ps;
  }

  /** The totals after a conversation are those of its progress, so each is that subagent's maximum. */
  lemma {:induction false} ItemTotalsAreMaxima(items: seq<Item>, task: string)
    ensures Seen(AfterItems(map[], items), task) == Largest(ProgressOf(items), task)
  {
    ItemsObserve(items);
    TotalsAreMaxima(ProgressOf(items), task);
  }

  ghost function MessageOf(totals: map<string, int>, x: Item): Message {
    match x
    case Progressed(p) => Annotated(totals, p)
    case Finished(usage) => ResultUsage(usage)
    case Silent => Other
  }

  ghost function Messages(totals: map<string, int>, items: seq<Item>): (r: seq<Message>)
    ensures |r| == |items|
    decreases |items|
  {
    if items == [] then []
    else
      var front := items[..|items| - 1];
      Messages(totals, front) + [MessageOf(AfterItems(totals, front), items[|items| - 1])]
  }

  function Flat(batches: seq<seq<Item>>): seq<Item>
    decreases |batches|
  {
    if batches == [] then [] else Flat(batches[..|batches| - 1]) + batches[|batches| - 1]
  }

  /** The totals per subagent after the first k batches. */
  function TotalsAfter(batches: seq<seq<Item>>, k: nat): map<string, int>
    requires k <= |batches|
  {
    AfterItems(map[], Flat(batches[..k]))
  }

  /** The workflow total after the first k batches. */
  ghost function SumAfter(batches: seq<seq<Item>>, k: nat): int
    requires k <= |batches|
  {
    Sum(TotalsAfter(batches, k))
  }

  /** Reports the conversation batch by batch, annotating progress as it goes. */
  ghost function ReportAll(batches: seq<seq<Item>>): (r: seq<Report>)
    ensures |r| == |batches|
    decreases |batches|
  {
    if batches == [] then []
    else
      var last := |batches| - 1;
      ReportAll(batches[..last]) + [Batch(Messages(TotalsAfter(batches, last), batches[last]))]
  }

  /** What ends a session at the gateway: its completion, error or timeout report. */
  type Ending = r: Report | !r.Batch? witness Stopped(0, 0)

  /** All reports of a session; the last one may never arrive. */
  ghost function SessionReports(batches: seq<seq<Item>>, ending: Option<Ending>): seq<Report> {
    ReportAll(batches) + if ending.Some? then [ending.value] else []
  }

  /** The task row's counter after a session. */
  ghost function CounterAfter(tokens: Option<int>, batches: seq<seq<Item>>, ending: Option<Ending>): int {
    OrZero(AccountAll(tokens, SessionReports(batches, ending)))
  }

  /** What the ending shows the gateway. */
  function ShownLast(ending: Option<Ending>): Option<int> { if ending.Some? then Observed(ending.value) else None }

  /** The last item of a batch that mentions a total is counting progress. */
  predicate EndsInProgress(items: seq<Item>)
    decreases |items|
  {
    items != [] &&
    var last := items[|items| - 1];
    Counting(last) || (Plain(last).None? && EndsInProgress(items[..|items| - 1]))
  }

  /** The total the last mentioning item of a batch mentions by itself. */
  function LastPlain(items: seq<Item>): Option<int>
    decreases |items|
  {
    if items == [] || Counting(items[|items| - 1]) then None
    else if Plain(items[|items| - 1]).Some? then Plain(items[|items| - 1])
    else LastPlain(items[..|items| - 1])
  }

  lemma {:induction false} ExtractLast(messages: seq<Message>, m: Message)
    ensures Extract(messages + [m]) == if MessageTotal(m).Some? then MessageTotal(m) else Extract(messages)
  {
    assert (messages + [m])[..|messages|] == messages;
  }

  /** What a batch shows the gateway: the workflow total at its end, or the plain total that came after it. */
  lemma {:induction false} BatchShows(totals: map<string, int>, items: seq<Item>)
    ensures Extract(Messages(totals, items)) ==
            if EndsInProgress(items) then Some(Sum(AfterItems(totals, items))) else LastPlain(items)
    decreases |items|
  {
    if items != [] {
      var front, last := items[..|items| - 1], items[|items| - 1];
      BatchShows(totals, front);
      ExtractLast(Messages(totals, front), MessageOf(AfterItems(totals, front), last));
    }
  }

  lemma {:induction false} AfterAppend(totals: map<string, int>, a: seq<Item>, b: seq<Item>)
    ensures AfterItems(totals, a + b) == AfterItems(AfterItems(totals, a), b)
    decreases |b|
  {
    if b == [] {
      assert a + b == a;
    } else {
      assert (a + b)[..|a + b| - 1] == a + b[..|b| - 1];
      AfterAppend(totals, a, b[..|b| - 1]);
    }
  }

  /** The totals after one more batch continue from those before it. */
  lemma {:induction false} TotalsContinue(batches: seq<seq<Item>>, k: nat)
    requires k < |batches|
    ensures TotalsAfter(batches, k + 1) == AfterItems(TotalsAfter(batches, k), batches[k])
  {
    assert batches[..k + 1][..k] == batches[..k];
    AfterAppend(map[], Flat(batches[..k]), batches[k]);
  }

  lemma {:induction false} ReportAt(batches: seq<seq<Item>>, k: nat)
    requires k < |batches|
    ensures ReportAll(batches)[k] == Batch(Messages(TotalsAfter(batches, k), batches[k]))
    decreases |batches|
  {
    var last := |batches| - 1;
    if k < last {
      assert batches[..last][..k] == batches[..k];
      ReportAt(batches[..last], k);
    }
  }

  /** What batch k shows the gateway. */
  ghost function Shown(batches: seq<seq<Item>>, k: nat): Option<int>
    requires k < |batches|
  {
    if EndsInProgress(batches[k]) then Some(SumAfter(batches, k + 1)) else LastPlain(batches[k])
  }

  lemma {:induction false} ObservedIsShown(batches: seq<seq<Item>>, k: nat)
    requires k < |batches|
    ensures Observed(ReportAll(batches)[k]) == Shown(batches, k)
  {
    ReportAt(batches, k);
    TotalsContinue(batches, k);
    BatchShows(TotalsAfter(batches, k), batches[k]);
  }

  /** The counter after a session is the maximum of its start and of what each batch and the ending mention last. */
  lemma {:induction false} CounterIsMaxShown(tokens: Option<int>, batches: seq<seq<Item>>, ending: Option<Ending>)
    ensures var end := CounterAfter(tokens, batches, ending);
      && OrZero(tokens) <= end
      && (forall k :: 0 <= k < |batches| && Shown(batches, k).Some? ==> Shown(batches, k).value <= end)
      && (ShownLast(ending).Some? ==> ShownLast(ending).value <= end)
      && (|| end == OrZero(tokens)
          || (exists k :: 0 <= k < |batches| && Shown(batches, k) == Some(end))
          || ShownLast(ending) == Some(end))
  {
    var reports := SessionReports(batches, ending);
    CounterIsMaximum(tokens, reports);
    forall k | 0 <= k < |batches| ensures Observed(reports[k]) == Shown(batches, k) { ObservedIsShown(batches, k); }
    if ending.Some? { assert Observed(reports[|batches|]) == ShownLast(ending); }
  }

  /**
   * The exact condition: the counter reaches the workflow total if and only if it started there, or some batch
   * ends in progress when the sum is complete, or some batch or the ending mentions a plain total at least as large.
   */
  lemma {:induction false} CounterReachesTotalIff(tokens: Option<int>, batches: seq<seq<Item>>, ending: Option<Ending>)
    ensures var total := SumAfter(batches, |batches|);
      CounterAfter(tokens, batches, ending) >= total <==>
      || OrZero(tokens) >= total
      || (exists k :: 0 <= k < |batches| && Reaches(batches, k, total))
      || (ShownLast(ending).Some? && ShownLast(ending).value >= total)
  {
    CounterIsMaxShown(tokens, batches, ending);
    var total := SumAfter(batches, |batches|);
    forall k | 0 <= k < |batches|
      ensures Reaches(batches, k, total) <==> Shown(batches, k).Some? && Shown(batches, k).value >= total
    {
      SumsGrow(batches, k + 1);
    }
  }

  /** Batch k ends in progress with the sum at that total, or in a plain mention no smaller than it. */
  ghost predicate Reaches(batches: seq<seq<Item>>, k: nat, total: int)
    requires k < |batches|
  {
    if EndsInProgress(batches[k]) then SumAfter(batches, k + 1) == total
    else LastPlain(batches[k]).Some? && LastPlain(batches[k]).value >= total
  }

  ghost predicate NonNegative(totals: map<string, int>) { forall k :: k in totals ==> totals[k] >= 0 }

  lemma {:induction false} AfterItemsGrows(totals: map<string, int>, items: seq<Item>)
    requires NonNegative(totals)
    ensures NonNegative(AfterItems(totals, items)) && Sum(totals) <= Sum(AfterItems(totals, items))
    decreases |items|
  {
    if items != [] {
      var front, last := items[..|items| - 1], items[|items| - 1];
      AfterItemsGrows(totals, front);
      if last.Progressed? { SumNeverDrops(AfterItems(totals, front), last.p); }
    }
  }

  lemma {:induction false} SumsGrow(batches: seq<seq<Item>>, k: nat)
    requires k <= |batches|
    ensures SumAfter(batches, k) <= SumAfter(batches, |batches|)
    decreases |batches| - k
  {
    if k < |batches| {
      AfterItemsGrows(map[], Flat(batches[..k]));
      TotalsContinue(batches, k);
      AfterItemsGrows(TotalsAfter(batches, k), batches[k]);
      SumsGrow(batches, k + 1);
    }
  }

  ghost predicate HasCounting(items: seq<Item>) { exists i :: 0 <= i < |items| && Counting(items[i]) }

  lemma {:induction false} QuietItems(totals: map<string, int>, items: seq<Item>)
    requires !HasCounting(items)
    ensures AfterItems(totals, items) == totals && !EndsInProgress(items)
    decreases |items|
  {
    if items != [] {
      var front := items[..|items| - 1];
      assert !Counting(items[|items| - 1]);
      forall i | 0 <= i < |front| ensures !Counting(front[i]) { assert front[i] == items[i]; }
      QuietItems(totals, front);
    }
  }

  /** The sum is complete after some batch with counting progress, or nothing was ever counted. */
  lemma {:induction false} LastGrowth(batches: seq<seq<Item>>, n: nat) returns (k: nat)
    requires n <= |batches|
    ensures (k < n && HasCounting(batches[k]) && SumAfter(batches, k + 1) == SumAfter(batches, n)) || SumAfter(batches, n) == 0
    decreases n
  {
    k := 0;
    if n > 0 {
      k := n - 1;
      if !HasCounting(batches[n - 1]) {
        QuietItems(TotalsAfter(batches, n - 1), batches[n - 1]);
        TotalsContinue(batches, n - 1);
        k := LastGrowth(batches, n - 1);
      }
    }
  }

  /** No smaller plain total follows the last counting progress of batch k. */
  ghost predicate KeepsTotal(batches: seq<seq<Item>>, k: nat)
    requires k < |batches|
  {
    EndsInProgress(batches[k]) || (LastPlain(batches[k]).Some? && LastPlain(batches[k]).value >= SumAfter(batches, k + 1))
  }

  /**
   * The condition on the sender: if no batch lets a smaller plain total follow its last counting progress, the
   * task row reaches the workflow total, and ends exactly there, or at its larger start, unless a plain total
   * is larger still.
   */
  lemma {:induction false} TaskRowReachesWorkflowTotal(tokens: Option<int>, batches: seq<seq<Item>>, ending: Option<Ending>)
    requires tokens.Some? ==> tokens.value >= 0
    requires forall k :: 0 <= k < |batches| && HasCounting(batches[k]) ==> KeepsTotal(batches, k)
    ensures var total, end := SumAfter(batches, |batches|), CounterAfter(tokens, batches, ending);
      end >= total && (MentionsAtMost(batches, ending, total) ==> end == Max(OrZero(tokens), total))
  {
    SomeBatchReaches(batches);
    CounterReachesTotalIff(tokens, batches, ending);
    if MentionsAtMost(batches, ending, SumAfter(batches, |batches|)) {
      CounterStaysBelow(tokens, batches, ending, SumAfter(batches, |batches|));
    }
  }

  /** No plain total that a batch or the ending mentions last is larger. */
  ghost predicate MentionsAtMost(batches: seq<seq<Item>>, ending: Option<Ending>, total: int) {
    && (forall k :: 0 <= k < |batches| && LastPlain(batches[k]).Some? ==> LastPlain(batches[k]).value <= total)
    && (ShownLast(ending).Some? ==> ShownLast(ending).value <= total)
  }

  lemma {:induction false} SomeBatchReaches(batches: seq<seq<Item>>)
    requires forall k :: 0 <= k < |batches| && HasCounting(batches[k]) ==> KeepsTotal(batches, k)
    ensures SumAfter(batches, |batches|) == 0
            || exists k :: 0 <= k < |batches| && Reaches(batches, k, SumAfter(batches, |batches|))
  {
    var k := LastGrowth(batches, |batches|);
    if SumAfter(batches, |batches|) != 0 { assert KeepsTotal(batches, k) && Reaches(batches, k, SumAfter(batches, |batches|)); }
  }

  lemma {:induction false} CounterStaysBelow(tokens: Option<int>, batches: seq<seq<Item>>, ending: Option<Ending>, total: int)
    requires total == SumAfter(batches, |batches|) && MentionsAtMost(batches, ending, total)
    ensures OrZero(tokens) <= CounterAfter(tokens, batches, ending) <= Max(OrZero(tokens), total)
  {
    CounterIsMaxShown(tokens, batches, ending);
    forall j | 0 <= j < |batches| && Shown(batches, j).Some? ensures Shown(batches, j).value <= total {
      SumsGrow(batches, j + 1);
    }
  }

  /**
   * A session whose last batch ends in a smaller result: when the sum only becomes complete in that batch, and
   * nothing before it nor the ending mentions as much, the row ends below the workflow total it was shown.
   */
  lemma {:induction false} ResultUsageHidesWorkflowTotal(
    tokens: Option<int>, earlier: seq<seq<Item>>, items: seq<Item>, own: int, ending: Option<Ending>)
    requires var batches := earlier + [items + [Finished(Total(own))]]; var total := SumAfter(batches, |batches|);
      && OrZero(tokens) < total && own < total && SumAfter(earlier, |earlier|) < total
      && MentionsAtMost(earlier, ending, total - 1)
    ensures var batches := earlier + [items + [Finished(Total(own))]];
      CounterAfter(tokens, batches, ending) < SumAfter(batches, |batches|)
  {
    var batches := earlier + [items + [Finished(Total(own))]];
    var total := SumAfter(batches, |batches|);
    CounterReachesTotalIff(tokens, batches, ending);
    forall k | 0 <= k < |batches| ensures !Reaches(batches, k, total) {
      if k < |earlier| {
        assert batches[..k + 1] == earlier[..k + 1];
        SumsGrow(earlier, k + 1);
      } else {
        assert (items + [Finished(Total(own))])[..|items|] == items;
      }
    }
  }
}
