/** Trimming an evidence bundle in place to a serialized byte budget (mcps/evidence.py). */
module Evidence {
  import opened Options

  // ----- the bundle, with the shapes the trimmer checks for -----

  datatype Field = Absent | NonText(size: nat) | Text(text: string)

  /** entries are the sizes of the other key-value pairs; flag is the size of stack_truncated's value. */
  datatype Sample =
    | NotObject(size: nat)
    | Sample(entries: seq<nat>, stack: Field, message: Field, detail: Field, flag: Option<nat>)

  datatype Group =
    | NotGroup(size: nat)
    | NoSamples(entries: seq<nat>)
    | Group(entries: seq<nat>, samples: seq<Sample>)

  datatype Groups = NoGroups | Groups(list: seq<Group>)

  datatype Contents = Contents(
    entries: seq<nat>, truncated: Option<nat>, warnings: Option<seq<string>>, groups: Groups, omitted: Option<nat>)

  // ----- the length of json.dumps(value, ensure_ascii=True, separators=(",", ":")) -----

  function EscapedChar(c: char): nat {
    var n := c as int;
    if c == '"' || c == '\\' || (8 <= n <= 10) || n == 12 || n == 13 then 2
    else if 32 <= n < 127 then 1
    else if n < 0x1_0000 then 6
    else 12
  }

  function Escaped(text: string): nat {
    if text == "" then 0 else EscapedChar(text[0]) + Escaped(text[1..])
  }

  function Sum(sizes: seq<nat>): nat {
    if sizes == [] then 0 else sizes[0] + Sum(sizes[1..])
  }

  /** Brackets around count parts of the given total size, and the commas between them. */
  function Bracketed(count: nat, total: nat): nat {
    2 + total + (if count == 0 then 0 else count - 1)
  }

  /** A key of the given length, its quotes, the colon and the value. */
  function Entry(key: nat, value: nat): nat { key + 3 + value }

  function FieldSize(key: nat, f: Field): nat {
    match f
    case Absent => 0
    case NonText(size) => Entry(key, size)
    case Text(text) => Entry(key, 2 + Escaped(text))
  }

  function Present(f: Field): nat { if f.Absent? then 0 else 1 }

  function OptionalSize(key: nat, value: Option<nat>): nat { if value.Some? then Entry(key, value.value) else 0 }

  function Counted<T>(value: Option<T>): nat { if value.Some? then 1 else 0 }

  function SampleSize(s: Sample): nat {
    match s
    case NotObject(size) => size
    case Sample(entries, stack, message, detail, flag) =>
      Bracketed(
        |entries| + Present(stack) + Present(message) + Present(detail) + Counted(flag),
        Sum(entries) + FieldSize(|"stack_excerpt"|, stack) + FieldSize(|"message_excerpt"|, message)
          + FieldSize(|"detail"|, detail) + OptionalSize(|"stack_truncated"|, flag))
  }

  function SamplesTotal(samples: seq<Sample>): nat {
    if samples == [] then 0 else SamplesTotal(samples[..|samples| - 1]) + SampleSize(samples[|samples| - 1])
  }

  function GroupSize(g: Group): nat {
    match g
    case NotGroup(size) => size
    case NoSamples(entries) => Bracketed(|entries|, Sum(entries))
    case Group(entries, samples) =>
      Bracketed(|entries| + 1, Sum(entries) + Entry(|"samples"|, Bracketed(|samples|, SamplesTotal(samples))))
  }

  function GroupsTotal(groups: seq<Group>): nat {
    if groups == [] then 0 else GroupsTotal(groups[..|groups| - 1]) + GroupSize(groups[|groups| - 1])
  }

  function WarningsTotal(warnings: seq<string>): nat {
    if warnings == [] then 0 else 2 + Escaped(warnings[0]) + WarningsTotal(warnings[1..])
  }

  function Digits(n: nat): nat { if n < 10 then 1 else 1 + Digits(n / 10) }

  function OmittedSize(omitted: Option<nat>): nat {
    if omitted.Some? then Entry(|"omitted_groups"|, Digits(omitted.value)) else 0
  }

  function Size(c: Contents): nat {
    Bracketed(
      |c.entries| + Counted(c.truncated) + Counted(c.warnings) + (if c.groups.Groups? then 1 else 0) + Counted(c.omitted),
      Sum(c.entries)
        + OptionalSize(|"truncated"|, c.truncated)
        + (if c.warnings.Some? then Entry(|"warnings"|, Bracketed(|c.warnings.value|, WarningsTotal(c.warnings.value))) else 0)
        + (if c.groups.Groups? then Entry(|"groups"|, Bracketed(|c.groups.list|, GroupsTotal(c.groups.list))) else 0)
        + OmittedSize(c.omitted))
  }

  const TRUE_SIZE: nat := 4
  const LONGEST_KEPT: nat := 256
  const OVER_BUDGET := "serialized_budget_exceeded"

  // ----- shrinking steps -----

  function FieldAt(s: Sample, f: nat): Field
    requires s.Sample? && f < 3
  {
    if f == 0 then s.stack else if f == 1 then s.message else s.detail
  }

  /** The excerpt f cut to half its length, and the sample marked. */
  function Halved(s: Sample, f: nat): Sample
    requires s.Sample? && f < 3 && FieldAt(s, f).Text?
  {
    var text := FieldAt(s, f).text;
    var half := Text(text[..|text| / 2]);
    var cut := if f == 0 then s.(stack := half) else if f == 1 then s.(message := half) else s.(detail := half);
    cut.(flag := Some(TRUE_SIZE))
  }

  lemma {:induction false} EscapedSplit(a: string, b: string)
    ensures Escaped(a + b) == Escaped(a) + Escaped(b)
  {
    if a == "" {
      assert a + b == b;
    } else {
      assert (a + b)[1..] == a[1..] + b;
      EscapedSplit(a[1..], b);
    }
  }

  lemma {:induction false} EscapedAtLeast(text: string)
    ensures Escaped(text) >= |text|
  {
    if text != "" { EscapedAtLeast(text[1..]); }
  }

  /** Halving a long excerpt saves more than marking the sample can cost. */
  lemma {:induction false} HalvingShrinks(s: Sample, f: nat)
    requires s.Sample? && f < 3 && FieldAt(s, f).Text? && |FieldAt(s, f).text| > LONGEST_KEPT
    ensures SampleSize(Halved(s, f)) < SampleSize(s)
  {
    var text := FieldAt(s, f).text;
    var k := |text| / 2;
    assert text == text[..k] + text[k..];
    EscapedSplit(text[..k], text[k..]);
    EscapedAtLeast(text[k..]);
  }

  lemma {:induction false} SamplesTotalUpdate(samples: seq<Sample>, i: nat, s: Sample)
    requires i < |samples|
    ensures SamplesTotal(samples[i := s]) + SampleSize(samples[i]) == SamplesTotal(samples) + SampleSize(s)
  {
    var last := |samples| - 1;
    if i < last {
      assert samples[i := s][..last] == samples[..last][i := s];
      SamplesTotalUpdate(samples[..last], i, s);
    } else {
      assert samples[i := s][..last] == samples[..last];
    }
  }

  lemma {:induction false} GroupsTotalUpdate(groups: seq<Group>, i: nat, g: Group)
    requires i < |groups|
    ensures GroupsTotal(groups[i := g]) + GroupSize(groups[i]) == GroupsTotal(groups) + GroupSize(g)
  {
    var last := |groups| - 1;
    if i < last {
      assert groups[i := g][..last] == groups[..last][i := g];
      GroupsTotalUpdate(groups[..last], i, g);
    } else {
      assert groups[i := g][..last] == groups[..last];
    }
  }

  function WithGroup(c: Contents, i: nat, g: Group): Contents
    requires c.groups.Groups? && i < |c.groups.list|
  {
    c.(groups := Groups(c.groups.list[i := g]))
  }

  lemma {:induction false} SmallerGroupShrinks(c: Contents, i: nat, g: Group)
    requires c.groups.Groups? && i < |c.groups.list| && GroupSize(g) <= GroupSize(c.groups.list[i])
    ensures Size(WithGroup(c, i, g)) <= Size(c)
  {
    GroupsTotalUpdate(c.groups.list, i, g);
  }

  function PoppedSample(g: Group): Group
    requires g.Group? && g.samples != []
  {
    g.(samples := g.samples[..|g.samples| - 1])
  }

  function WithSample(g: Group, i: nat, s: Sample): Group
    requires g.Group? && i < |g.samples|
  {
    g.(samples := g.samples[i := s])
  }

  lemma {:induction false} PoppingSampleShrinks(g: Group)
    requires g.Group? && |g.samples| > 1
    ensures GroupSize(PoppedSample(g)) <= GroupSize(g)
  {
  }

  lemma {:induction false} SmallerSampleShrinks(g: Group, i: nat, s: Sample)
    requires g.Group? && i < |g.samples| && SampleSize(s) <= SampleSize(g.samples[i])
    ensures GroupSize(WithSample(g, i, s)) <= GroupSize(g)
  {
    SamplesTotalUpdate(g.samples, i, s);
  }

  // ----- what trimming may do to a part -----

  /** A prefix, and no shorter than half of what may stay. */
  predicate Clipped(before: Field, after: Field) {
    if before.Text? then
      after.Text? && after.text <= before.text && (after == before || |after.text| >= LONGEST_KEPT / 2)
    else after == before
  }

  /** A changed sample keeps prefixes of its excerpts and is marked. */
  predicate SampleClipped(before: Sample, after: Sample) {
    || after == before
    || (&& before.Sample? && after.Sample? && after.entries == before.entries && after.flag == Some(TRUE_SIZE)
        && Clipped(before.stack, after.stack) && Clipped(before.message, after.message) && Clipped(before.detail, after.detail))
  }

  /** A group keeps its other entries, a prefix of its samples, and prefixes of their excerpts. */
  predicate GroupTrimmed(before: Group, after: Group) {
    if before.Group? then
      && after.Group? && after.entries == before.entries && |after.samples| <= |before.samples|
      && (before.samples != [] ==> after.samples != [])
      && forall i :: 0 <= i < |after.samples| ==> SampleClipped(before.samples[i], after.samples[i])
    else after == before
  }

  predicate SampleCount(g: Group, most: nat) {
    g.Group? ==> |g.samples| <= most
  }

  predicate ShortField(f: Field) { f.Text? ==> |f.text| <= LONGEST_KEPT }

  predicate ShortSample(s: Sample) {
    s.Sample? ==> ShortField(s.stack) && ShortField(s.message) && ShortField(s.detail)
  }

  predicate ShortGroup(g: Group) {
    g.Group? ==> forall i :: 0 <= i < |g.samples| ==> ShortSample(g.samples[i])
  }

  /** Nothing is left to trim: one group at most, one sample in it, short excerpts. */
  predicate Minimal(groups: seq<Group>) {
    |groups| <= 1 && forall g :: g in groups ==> SampleCount(g, 1) && ShortGroup(g)
  }

  ghost predicate AllTrimmed(before: seq<Group>, after: seq<Group>) {
    |after| <= |before| && forall i :: 0 <= i < |after| ==> GroupTrimmed(before[i], after[i])
  }

  /** Samples go from the last groups first. */
  predicate LaterGroupsFirst(before: seq<Group>, after: seq<Group>)
    requires |after| <= |before|
  {
    forall i, j :: 0 <= i < j < |after| && before[i].Group? && after[i].Group? && |after[i].samples| < |before[i].samples|
      ==> SampleCount(after[j], 1)
  }

  lemma {:induction false} PoppedIsFirst(before: Group, g: Group)
    requires g.Group? && |g.samples| > 1 && g == FirstSamples(before, SampleTotal(g))
    ensures PoppedSample(g) == FirstSamples(before, |g.samples| - 1) && g == FirstSamples(before, SampleTotal(PoppedSample(g)) + 1)
  {
    assert before.Group? ==> before.samples[..|g.samples|][..|g.samples| - 1] == before.samples[..|g.samples| - 1];
  }

  lemma {:induction false} UndoneGroup(c: Contents, i: nat, g: Group)
    requires c.groups.Groups? && i < |c.groups.list|
    ensures WithGroup(WithGroup(c, i, g), i, c.groups.list[i]) == c
  {
    assert c.groups.list[i := g][i := c.groups.list[i]] == c.groups.list;
  }

  // ----- what trimming needed to do -----

  function SampleTotal(g: Group): nat { if g.Group? then |g.samples| else 0 }

  /** The group with its first n samples. */
  function FirstSamples(g: Group, n: nat): Group {
    if g.Group? && n < |g.samples| then g.(samples := g.samples[..n]) else g
  }

  /** The original with as many of its first samples as it has, and with one if it had any. */
  predicate FirstOf(before: Group, after: Group) {
    after == FirstSamples(before, SampleTotal(after)) && (SampleTotal(before) > 0 ==> SampleTotal(after) > 0)
  }

  ghost predicate FirstOnes(before: seq<Group>, after: seq<Group>) {
    |after| <= |before| && forall i :: 0 <= i < |after| ==> FirstOf(before[i], after[i])
  }

  /** The bundle with these groups would be over budget. */
  predicate TooLarge(c: Contents, groups: seq<Group>, maxBytes: int) {
    Size(c.(groups := Groups(groups))) > maxBytes
  }

  /** The first group that lost samples, which is the last one samples were popped from. */
  ghost predicate LastPopped(before: seq<Group>, after: seq<Group>, i: nat)
    requires |after| <= |before|
  {
    i < |after| && SampleTotal(after[i]) < SampleTotal(before[i])
    && forall j :: 0 <= j < i ==> SampleTotal(after[j]) == SampleTotal(before[j])
  }

  /** With the sample popped last put back, the bundle would still be too large. */
  ghost predicate PopsNeeded(c: Contents, before: seq<Group>, after: seq<Group>, maxBytes: int)
    requires |after| <= |before|
  {
    forall i: nat :: LastPopped(before, after, i) ==>
      TooLarge(c, after[i := FirstSamples(before[i], SampleTotal(after[i]) + 1)], maxBytes)
  }

  /** The original groups with as many samples as the trimmed ones have, their excerpts in full. */
  function Kept(before: seq<Group>, after: seq<Group>): (kept: seq<Group>)
    requires |after| <= |before|
    ensures |kept| == |after| && forall i :: 0 <= i < |kept| ==> kept[i] == FirstSamples(before[i], SampleTotal(after[i]))
  {
    seq(|after|, i requires 0 <= i < |after| => FirstSamples(before[i], SampleTotal(after[i])))
  }

  /**
   * Nothing was dropped needlessly: with one more group, down to its first sample, or with the sample popped
   * last when no group was dropped, the bundle would be too large.
   */
  ghost predicate Necessary(c: Contents, before: seq<Group>, after: seq<Group>, maxBytes: int) {
    && |after| <= |before|
    && (|after| < |before| ==> TooLarge(c, Kept(before, after) + [FirstSamples(before[|after|], 1)], maxBytes))
    && (|after| == |before| ==> PopsNeeded(c, before, Kept(before, after), maxBytes))
  }

  /** The groups after the first two phases, by way of the first: what was dropped had to be. */
  ghost predicate NeededShortlist(c: Contents, sampled: seq<Group>, kept: seq<Group>, maxBytes: int) {
    && c.groups.Groups? && |kept| <= |sampled| == |c.groups.list| && kept == sampled[..|kept|]
    && FirstOnes(c.groups.list, sampled) && PopsNeeded(c, c.groups.list, sampled, maxBytes)
    && (|kept| < |sampled| ==> TooLarge(c, sampled[..|kept| + 1], maxBytes))
    && (|kept| < |sampled| ==> forall g :: g in sampled ==> SampleCount(g, 1))
  }

  ghost predicate Shortlisted(c: Contents, sampled: seq<Group>, kept: seq<Group>, maxBytes: int) {
    && NeededShortlist(c, sampled, kept, maxBytes)
    && (c.groups.list != [] ==> kept != [])
    && AllTrimmed(c.groups.list, sampled) && LaterGroupsFirst(c.groups.list, sampled)
  }

  lemma {:induction false} ShortlistedByPhases(c: Contents, after: Contents, sampled: seq<Group>, maxBytes: int)
    requires c.groups.Groups? && after.groups.Groups? && after == c.(groups := after.groups)
    requires |after.groups.list| <= |sampled| == |c.groups.list| && after.groups.list == sampled[..|after.groups.list|]
    requires sampled != [] ==> after.groups.list != []
    requires AllTrimmed(c.groups.list, sampled) && LaterGroupsFirst(c.groups.list, sampled)
    requires FirstOnes(c.groups.list, sampled) && PopsNeeded(c.(groups := Groups(sampled)), c.groups.list, sampled, maxBytes)
    requires |after.groups.list| < |sampled| ==>
      (forall g :: g in sampled ==> SampleCount(g, 1))
      && TooLarge(c, sampled[..|after.groups.list| + 1], maxBytes)
    ensures Shortlisted(c, sampled, after.groups.list, maxBytes)
  {}

  lemma {:induction false} PhasesNeeded(
    c: Contents, sampled: seq<Group>, kept: seq<Group>, end: seq<Group>, maxBytes: int)
    requires NeededShortlist(c, sampled, kept, maxBytes) && |end| == |kept|
    requires forall i :: 0 <= i < |end| ==> SampleTotal(end[i]) == SampleTotal(kept[i])
    ensures Necessary(c, c.groups.list, end, maxBytes)
  {
    KeptIsKept(c.groups.list, sampled, kept, end);
    if |kept| < |sampled| {
      OneMoreGroup(c.groups.list, sampled, |kept|);
      NecessaryWith(c, end, kept, maxBytes);
    } else {
      assert kept == sampled;
      NecessaryWith(c, end, kept, maxBytes);
    }
  }

  lemma {:induction false} NecessaryWith(c: Contents, end: seq<Group>, kept: seq<Group>, maxBytes: int)
    requires c.groups.Groups? && |end| <= |c.groups.list| && kept == Kept(c.groups.list, end)
    requires |end| < |c.groups.list| ==> TooLarge(c, kept + [FirstSamples(c.groups.list[|end|], 1)], maxBytes)
    requires |end| == |c.groups.list| ==> PopsNeeded(c, c.groups.list, kept, maxBytes)
    ensures Necessary(c, c.groups.list, end, maxBytes)
  {}

  lemma {:induction false} KeptIsKept(start: seq<Group>, sampled: seq<Group>, kept: seq<Group>, end: seq<Group>)
    requires FirstOnes(start, sampled) && |end| == |kept| <= |sampled| == |start| && kept == sampled[..|kept|]
    requires forall i :: 0 <= i < |end| ==> SampleTotal(end[i]) == SampleTotal(kept[i])
    ensures Kept(start, end) == kept
  {
    forall i | 0 <= i < |end| ensures Kept(start, end)[i] == kept[i] {
      assert kept[i] == sampled[i] && FirstOf(start[i], sampled[i]);
    }
  }

  lemma {:induction false} OneMoreGroup(start: seq<Group>, sampled: seq<Group>, n: nat)
    requires n < |sampled| == |start| && FirstOnes(start, sampled)
    requires forall g :: g in sampled ==> SampleCount(g, 1)
    ensures sampled[..n + 1] == sampled[..n] + [FirstSamples(start[n], 1)]
  {
    assert sampled[n] in sampled && FirstOf(start[n], sampled[n]);
    assert sampled[n] == FirstSamples(start[n], 1);
  }

  lemma {:induction false} PhasesFit(
    c: Contents, sampled: seq<Group>, kept: seq<Group>, end: seq<Group>, omitted: Option<nat>, bytes: nat, maxBytes: int)
    requires Shortlisted(c, sampled, kept, maxBytes) && |end| == |kept| && AllTrimmed(kept, end)
    requires forall i :: 0 <= i < |end| ==> SampleTotal(end[i]) == SampleTotal(kept[i])
    requires var dropped := |sampled| - |kept|;
      && omitted == (if dropped > 0 then Some(dropped) else c.omitted)
      && (bytes <= maxBytes + (if dropped > 0 then 1 + OmittedSize(omitted) else 0)
          || (|kept| <= 1 && (forall g :: g in sampled ==> SampleCount(g, 1)) && forall g :: g in end ==> ShortGroup(g)))
    ensures Fitted(c.groups.list, c.omitted, end, omitted, bytes, maxBytes)
  {
    PhasesCompose(c.groups.list, sampled, kept, end);
  }

  /** The first phase so far: the groups before i are untouched, the others trimmed no more than needed. */
  ghost predicate Trimming(c: Contents, start: seq<Group>, i: nat, maxBytes: int) {
    && c.groups.Groups? && i <= |start| == |c.groups.list| && c.groups.list[..i] == start[..i]
    && AllTrimmed(start, c.groups.list) && LaterGroupsFirst(start, c.groups.list)
    && (Size(c) <= maxBytes || forall j :: i <= j < |start| ==> SampleCount(c.groups.list[j], 1))
    && FirstOnes(start, c.groups.list) && PopsNeeded(c, start, c.groups.list, maxBytes)
  }

  /** What popping samples of group i alone may have done. */
  ghost predicate Popped(c: Contents, before: seq<Group>, i: nat, maxBytes: int) {
    && c.groups.Groups? && |before| == |c.groups.list| && i < |before| && c.groups.list == before[i := c.groups.list[i]]
    && GroupTrimmed(before[i], c.groups.list[i])
    && FirstOf(before[i], c.groups.list[i])
    && (SampleTotal(c.groups.list[i]) < SampleTotal(before[i]) ==>
          Size(WithGroup(c, i, FirstSamples(before[i], SampleTotal(c.groups.list[i]) + 1))) > maxBytes)
    && (Size(c) <= maxBytes || SampleCount(c.groups.list[i], 1))
    && (Size(c.(groups := Groups(before))) <= maxBytes ==> c.groups.list == before)
  }

  lemma {:induction false} TrimmingStep(c: Contents, before: seq<Group>, start: seq<Group>, i: nat, maxBytes: int)
    requires Popped(c, before, i, maxBytes) && Trimming(c.(groups := Groups(before)), start, i + 1, maxBytes)
    ensures Trimming(c, start, i, maxBytes)
  {
    assert before[i] == start[..i + 1][i] == start[i];
    assert c.groups.list[..i] == start[..i + 1][..i] == start[..i];
    AllTrimmedStep(start, before, i, c.groups.list[i]);
    if c.groups.list != before { StillLaterFirst(c, before, start, i, maxBytes); }
    StillNeeded(c, start, before, i, maxBytes);
  }

  lemma {:induction false} StillLaterFirst(c: Contents, before: seq<Group>, start: seq<Group>, i: nat, maxBytes: int)
    requires Popped(c, before, i, maxBytes) && Trimming(c.(groups := Groups(before)), start, i + 1, maxBytes)
    requires c.groups.list != before
    ensures LaterGroupsFirst(start, c.groups.list)
  {
    assert forall j :: 0 <= j <= i ==> before[j] == start[..i + 1][j] == start[j];
  }

  /** Popping from a group before all the others that lost samples. */
  lemma {:induction false} StillNeeded(c: Contents, start: seq<Group>, before: seq<Group>, i: nat, maxBytes: int)
    requires Popped(c, before, i, maxBytes) && |start| == |before| && before[..i + 1] == start[..i + 1]
    requires FirstOnes(start, before) && PopsNeeded(c.(groups := Groups(before)), start, before, maxBytes)
    ensures FirstOnes(start, c.groups.list) && PopsNeeded(c, start, c.groups.list, maxBytes)
  {
    var list := c.groups.list;
    assert forall j :: 0 <= j <= i ==> before[j] == start[..i + 1][j] == start[j];
    if SampleTotal(list[i]) == SampleTotal(start[i]) {
      assert list == before;
    } else {
      forall j: nat | LastPopped(start, list, j) ensures j == i {}
    }
  }

  lemma {:induction false} ClippedTransitive(a: Sample, b: Sample, c: Sample)
    requires SampleClipped(a, b) && SampleClipped(b, c)
    ensures SampleClipped(a, c)
  {
  }

  lemma {:induction false} HalvedClips(s: Sample, f: nat)
    requires s.Sample? && f < 3 && FieldAt(s, f).Text? && |FieldAt(s, f).text| > LONGEST_KEPT
    ensures SampleClipped(s, Halved(s, f))
  {
  }

  /** Halving one excerpt in the bundle: smaller, still a clipping of the original, the other excerpts untouched. */
  lemma {:induction false} HalvedStep(c: Contents, i: nat, k: nat, f: nat, original: Sample)
    requires c.groups.Groups? && i < |c.groups.list| && c.groups.list[i].Group? && k < |c.groups.list[i].samples| && f < 3
    requires var s := c.groups.list[i].samples[k];
      s.Sample? && FieldAt(s, f).Text? && |FieldAt(s, f).text| > LONGEST_KEPT && SampleClipped(original, s)
    ensures var g := c.groups.list[i]; var s := g.samples[k];
      && SampleClipped(original, Halved(s, f)) && Size(WithGroup(c, i, WithSample(g, k, Halved(s, f)))) <= Size(c)
      && FieldAt(Halved(s, f), f).Text? && |FieldAt(Halved(s, f), f).text| == |FieldAt(s, f).text| / 2
      && forall h :: 0 <= h < 3 && h != f ==> FieldAt(Halved(s, f), h) == FieldAt(s, h)
  {
    var g := c.groups.list[i];
    var s := g.samples[k];
    HalvingShrinks(s, f);
    HalvedClips(s, f);
    ClippedTransitive(original, s, Halved(s, f));
    SmallerSampleShrinks(g, k, Halved(s, f));
    SmallerGroupShrinks(c, i, WithSample(g, k, Halved(s, f)));
  }

  lemma {:induction false} TrimmedTransitive(a: Group, b: Group, c: Group)
    requires GroupTrimmed(a, b) && GroupTrimmed(b, c)
    ensures GroupTrimmed(a, c)
  {
    if a.Group? {
      forall i | 0 <= i < |c.samples| ensures SampleClipped(a.samples[i], c.samples[i]) {
        ClippedTransitive(a.samples[i], b.samples[i], c.samples[i]);
      }
    }
  }

  lemma {:induction false} AllTrimmedStep(start: seq<Group>, groups: seq<Group>, i: nat, g: Group)
    requires AllTrimmed(start, groups) && i < |groups| && GroupTrimmed(groups[i], g)
    ensures AllTrimmed(start, groups[i := g])
  {
    TrimmedTransitive(start[i], groups[i], g);
  }

  lemma {:induction false} OneLess(c: Contents, groups: seq<Group>)
    requires c.groups.Groups? && groups != [] && |groups| <= |c.groups.list| && groups == c.groups.list[..|groups|]
    ensures groups[..|groups| - 1] == c.groups.list[..|groups| - 1]
    ensures Size(c.(groups := Groups(groups[..|groups| - 1]))) <= Size(c.(groups := Groups(groups)))
  {}

  /** Writing the omitted count costs at most its own entry. */
  lemma {:induction false} OmittedCosts(c: Contents, n: nat)
    ensures Size(c.(omitted := Some(n))) <= Size(c) + 1 + OmittedSize(Some(n))
  {
  }

  /** The three phases together: samples trimmed, groups cut off, excerpts shortened. */
  lemma {:induction false} PhasesCompose(start: seq<Group>, sampled: seq<Group>, kept: seq<Group>, end: seq<Group>)
    requires |start| == |sampled| && AllTrimmed(start, sampled) && LaterGroupsFirst(start, sampled)
    requires |kept| <= |sampled| && kept == sampled[..|kept|]
    requires |end| == |kept| && AllTrimmed(kept, end)
    requires forall i :: 0 <= i < |end| && end[i].Group? ==> |end[i].samples| == |kept[i].samples|
    ensures AllTrimmed(start, end) && LaterGroupsFirst(start, end)
    ensures (forall g :: g in sampled ==> SampleCount(g, 1)) ==> forall g :: g in end ==> SampleCount(g, 1)
  {
    forall i | 0 <= i < |end| ensures GroupTrimmed(start[i], end[i]) {
      assert kept[i] == sampled[i];
      TrimmedTransitive(start[i], sampled[i], end[i]);
    }
    forall i, j | 0 <= i < j < |end| && start[i].Group? && end[i].Group? && |end[i].samples| < |start[i].samples|
      ensures SampleCount(end[j], 1)
    {
      assert kept[i] == sampled[i] && kept[j] == sampled[j];
      assert SampleCount(sampled[j], 1);
      assert GroupTrimmed(kept[j], end[j]);
    }
    if forall g :: g in sampled ==> SampleCount(g, 1) {
      forall i | 0 <= i < |end| ensures SampleCount(end[i], 1) {
        assert kept[i] == sampled[i] && sampled[i] in sampled;
        assert GroupTrimmed(kept[i], end[i]);
      }
    }
  }

  // ----- the trimmer -----

  class EvidenceBundle {
    const entries: seq<nat>
    var truncated: Option<nat>
    var warnings: Option<seq<string>>
    var groups: Groups
    var omitted: Option<nat>

    constructor (c: Contents)
      ensures Value() == c
    {
      entries, truncated, warnings, groups, omitted := c.entries, c.truncated, c.warnings, c.groups, c.omitted;
    }

    function Value(): Contents
      reads this
    {
      Contents(entries, truncated, warnings, groups, omitted)
    }

    function Bytes(): nat
      reads this
    {
      Size(Value())
    }

    /** Pops samples of group i while more than one is left and the bundle is too large. */
    method PopSamples(i: nat, maxBytes: int)
      requires groups.Groups? && i < |groups.list|
      modifies this`groups
      ensures groups.Groups? && |groups.list| == |old(groups).list|
      ensures groups.list == old(groups).list[i := groups.list[i]]
      ensures GroupTrimmed(old(groups).list[i], groups.list[i])
      ensures FirstOf(old(groups).list[i], groups.list[i])
      ensures SampleTotal(groups.list[i]) < SampleTotal(old(groups).list[i]) ==>
        Size(WithGroup(Value(), i, FirstSamples(old(groups).list[i], SampleTotal(groups.list[i]) + 1))) > maxBytes
      ensures Bytes() <= old(Bytes())
      ensures Bytes() <= maxBytes || SampleCount(groups.list[i], 1)
      ensures old(Bytes()) <= maxBytes ==> groups == old(groups)
    {
      while groups.list[i].Group? && |groups.list[i].samples| > 1 && Bytes() > maxBytes
        invariant groups.Groups? && |groups.list| == |old(groups).list|
        invariant groups.list == old(groups).list[i := groups.list[i]]
        invariant GroupTrimmed(old(groups).list[i], groups.list[i])
        invariant FirstOf(old(groups).list[i], groups.list[i])
        invariant SampleTotal(groups.list[i]) < SampleTotal(old(groups).list[i]) ==>
          Size(WithGroup(Value(), i, FirstSamples(old(groups).list[i], SampleTotal(groups.list[i]) + 1))) > maxBytes
        invariant Bytes() <= old(Bytes())
        invariant old(Bytes()) <= maxBytes ==> groups == old(groups)
        decreases if groups.list[i].Group? then |groups.list[i].samples| else 0
      {
        var g := groups.list[i];
        PoppingSampleShrinks(g);
        SmallerGroupShrinks(Value(), i, PoppedSample(g));
        PoppedIsFirst(old(groups).list[i], g);
        UndoneGroup(Value(), i, PoppedSample(g));
        groups := Groups(groups.list[i := PoppedSample(g)]);
      }
    }

    /** First phase: from the last group to the first. */
    method TrimSamples(maxBytes: int)
      requires groups.Groups?
      modifies this`groups
      ensures groups.Groups? && |groups.list| == |old(groups).list|
      ensures AllTrimmed(old(groups).list, groups.list) && LaterGroupsFirst(old(groups).list, groups.list)
      ensures FirstOnes(old(groups).list, groups.list) && PopsNeeded(Value(), old(groups).list, groups.list, maxBytes)
      ensures Bytes() <= old(Bytes())
      ensures Bytes() <= maxBytes || forall g :: g in groups.list ==> SampleCount(g, 1)
    {
      ghost var start := groups.list;
      var i := |groups.list|;
      while i > 0
        invariant 0 <= i && Bytes() <= old(Bytes()) && Trimming(Value(), start, i, maxBytes)
      {
        i := i - 1;
        ghost var before := groups.list;
        assert before[i] == start[..i + 1][i];
        PopSamples(i, maxBytes);
        TrimmingStep(Value(), before, start, i, maxBytes);
      }
    }

    /** Second phase: drops groups from the end while more than one is left. */
    method DropGroups(maxBytes: int) returns (dropped: nat)
      requires groups.Groups?
      modifies this`groups
      ensures groups.Groups? && |groups.list| + dropped == |old(groups).list|
      ensures groups.list == old(groups).list[..|groups.list|]
      ensures Bytes() <= old(Bytes())
      ensures Bytes() <= maxBytes || |groups.list| <= 1
      ensures dropped > 0 ==> old(Bytes()) > maxBytes && |groups.list| >= 1
      ensures dropped > 0 ==> TooLarge(old(Value()), old(groups).list[..|groups.list| + 1], maxBytes)
    {
      dropped := 0;
      ghost var c := Value();
      while |groups.list| > 1 && Bytes() > maxBytes
        invariant groups.Groups? && Value() == c.(groups := groups) && |groups.list| + dropped == |c.groups.list|
        invariant groups.list == c.groups.list[..|groups.list|]
        invariant Bytes() <= old(Bytes())
        invariant dropped > 0 ==> old(Bytes()) > maxBytes && |groups.list| >= 1
        invariant dropped > 0 ==> TooLarge(c, c.groups.list[..|groups.list| + 1], maxBytes)
      {
        OneLess(c, groups.list);
        groups := Groups(groups.list[..|groups.list| - 1]);
        dropped := dropped + 1;
      }
    }

    /** Halves one excerpt until it is short, stopping as soon as the bundle fits. */
    method ShortenField(i: nat, k: nat, f: nat, maxBytes: int) returns (fits: bool)
      requires groups.Groups? && i < |groups.list| && groups.list[i].Group? && k < |groups.list[i].samples|
      requires groups.list[i].samples[k].Sample? && f < 3
      modifies this`groups
      ensures groups.Groups? && |groups.list| == |old(groups).list|
      ensures groups.list == old(groups).list[i := groups.list[i]]
      ensures var before := old(groups).list[i];
        && groups.list[i].Group? && |groups.list[i].samples| == |before.samples|
        && groups.list[i] == WithSample(before, k, groups.list[i].samples[k])
        && SampleClipped(before.samples[k], groups.list[i].samples[k]) && groups.list[i].samples[k].Sample?
        && (forall h :: 0 <= h < 3 && h != f ==> FieldAt(groups.list[i].samples[k], h) == FieldAt(before.samples[k], h))
      ensures Bytes() <= old(Bytes())
      ensures if fits then Bytes() <= maxBytes else ShortField(FieldAt(groups.list[i].samples[k], f))
    {
      ghost var before := groups.list[i];
      while FieldAt(groups.list[i].samples[k], f).Text? && |FieldAt(groups.list[i].samples[k], f).text| > LONGEST_KEPT
        invariant groups.Groups? && |groups.list| == |old(groups).list|
        invariant groups.list == old(groups).list[i := groups.list[i]]
        invariant groups.list[i].Group? && |groups.list[i].samples| == |before.samples|
        invariant groups.list[i] == WithSample(before, k, groups.list[i].samples[k])
        invariant SampleClipped(before.samples[k], groups.list[i].samples[k]) && groups.list[i].samples[k].Sample?
        invariant forall h :: 0 <= h < 3 && h != f ==> FieldAt(groups.list[i].samples[k], h) == FieldAt(before.samples[k], h)
        invariant Bytes() <= old(Bytes())
        decreases var now := FieldAt(groups.list[i].samples[k], f); if now.Text? then |now.text| else 0
      {
        var g := groups.list[i];
        var s := g.samples[k];
        HalvedStep(Value(), i, k, f, before.samples[k]);
        groups := Groups(groups.list[i := WithSample(g, k, Halved(s, f))]);
        if Bytes() <= maxBytes { return true; }
      }
      fits := false;
    }

    method ShortenSample(i: nat, k: nat, maxBytes: int) returns (fits: bool)
      requires groups.Groups? && i < |groups.list| && groups.list[i].Group? && k < |groups.list[i].samples|
      modifies this`groups
      ensures groups.Groups? && |groups.list| == |old(groups).list|
      ensures groups.list == old(groups).list[i := groups.list[i]]
      ensures var before := old(groups).list[i];
        && groups.list[i].Group? && |groups.list[i].samples| == |before.samples|
        && groups.list[i] == WithSample(before, k, groups.list[i].samples[k])
        && SampleClipped(before.samples[k], groups.list[i].samples[k])
      ensures Bytes() <= old(Bytes())
      ensures if fits then Bytes() <= maxBytes else ShortSample(groups.list[i].samples[k])
    {
      if !groups.list[i].samples[k].Sample? { return false; }
      ghost var before := groups.list[i];
      var f := 0;
      while f < 3
        invariant f <= 3 && groups.Groups? && |groups.list| == |old(groups).list|
        invariant groups.list == old(groups).list[i := groups.list[i]]
        invariant groups.list[i].Group? && |groups.list[i].samples| == |before.samples|
        invariant groups.list[i] == WithSample(before, k, groups.list[i].samples[k])
        invariant SampleClipped(before.samples[k], groups.list[i].samples[k]) && groups.list[i].samples[k].Sample?
        invariant Bytes() <= old(Bytes())
        invariant forall h :: 0 <= h < f ==> ShortField(FieldAt(groups.list[i].samples[k], h))
      {
        ghost var was := groups.list[i].samples[k];
        fits := ShortenField(i, k, f, maxBytes);
        ClippedTransitive(before.samples[k], was, groups.list[i].samples[k]);
        if fits { return; }
        f := f + 1;
      }
      var s := groups.list[i].samples[k];
      assert ShortField(FieldAt(s, 0)) && ShortField(FieldAt(s, 1)) && ShortField(FieldAt(s, 2));
      fits := false;
    }

    method ShortenGroup(i: nat, maxBytes: int) returns (fits: bool)
      requires groups.Groups? && i < |groups.list|
      modifies this`groups
      ensures groups.Groups? && |groups.list| == |old(groups).list|
      ensures groups.list == old(groups).list[i := groups.list[i]]
      ensures GroupTrimmed(old(groups).list[i], groups.list[i])
      ensures groups.list[i].Group? ==> |groups.list[i].samples| == |old(groups).list[i].samples|
      ensures Bytes() <= old(Bytes())
      ensures if fits then Bytes() <= maxBytes else ShortGroup(groups.list[i])
    {
      if !groups.list[i].Group? { return false; }
      ghost var before := groups.list[i];
      var k := 0;
      while k < |groups.list[i].samples|
        invariant groups.Groups? && |groups.list| == |old(groups).list|
        invariant groups.list == old(groups).list[i := groups.list[i]]
        invariant groups.list[i].Group? && k <= |groups.list[i].samples| == |before.samples|
        invariant GroupTrimmed(before, groups.list[i])
        invariant Bytes() <= old(Bytes())
        invariant forall h :: 0 <= h < k ==> ShortSample(groups.list[i].samples[h])
        decreases |before.samples| - k
      {
        ghost var was := groups.list[i];
        fits := ShortenSample(i, k, maxBytes);
        assert GroupTrimmed(was, groups.list[i]);
        TrimmedTransitive(before, was, groups.list[i]);
        if fits { return; }
        k := k + 1;
      }
      fits := false;
    }

    /** Third phase: halves long excerpts until the bundle fits, whether or not it fitted already. */
    method ShortenExcerpts(maxBytes: int) returns (fits: bool)
      requires groups.Groups?
      modifies this`groups
      ensures groups.Groups? && |groups.list| == |old(groups).list|
      ensures AllTrimmed(old(groups).list, groups.list)
      ensures forall i :: 0 <= i < |groups.list| && groups.list[i].Group? ==>
        |groups.list[i].samples| == |old(groups).list[i].samples|
      ensures Bytes() <= old(Bytes())
      ensures if fits then Bytes() <= maxBytes else forall g :: g in groups.list ==> ShortGroup(g)
    {
      ghost var start := groups.list;
      var i := 0;
      while i < |groups.list|
        invariant groups.Groups? && i <= |groups.list| == |start|
        invariant AllTrimmed(start, groups.list)
        invariant forall j :: 0 <= j < |start| && groups.list[j].Group? ==> |groups.list[j].samples| == |start[j].samples|
        invariant Bytes() <= old(Bytes())
        invariant forall j :: 0 <= j < i ==> ShortGroup(groups.list[j])
        decreases |start| - i
      {
        ghost var before := groups.list;
        fits := ShortenGroup(i, maxBytes);
        AllTrimmedStep(start, before, i, groups.list[i]);
        if fits { return; }
        i := i + 1;
      }
      fits := false;
    }

    /** The first two phases. */
    method TrimCounts(maxBytes: int) returns (ghost sampled: seq<Group>, dropped: nat)
      requires groups.Groups?
      modifies this`groups
      ensures groups.Groups? && Shortlisted(old(Value()), sampled, groups.list, maxBytes)
      ensures dropped == |sampled| - |groups.list|
      ensures Bytes() <= maxBytes || (|groups.list| <= 1 && forall g :: g in sampled ==> SampleCount(g, 1))
    {
      ghost var original := Value();
      TrimSamples(maxBytes);
      sampled := groups.list;
      assert Value() == original.(groups := Groups(sampled));
      dropped := DropGroups(maxBytes);
      assert Value().(groups := Groups(sampled[..|groups.list|])) == Value();
      ShortlistedByPhases(original, Value(), sampled, maxBytes);
    }

    /** The three phases, on a bundle already marked as truncated. */
    method TrimGroups(maxBytes: int)
      requires groups.Groups?
      modifies this`groups, this`omitted
      ensures groups.Groups?
      ensures Fitted(old(groups).list, old(omitted), groups.list, omitted, Bytes(), maxBytes)
      ensures Necessary(old(Value()), old(groups).list, groups.list, maxBytes)
    {
      ghost var original := Value();
      ghost var sampled;
      var dropped;
      sampled, dropped := TrimCounts(maxBytes);
      ghost var kept := groups.list;
      if dropped > 0 {
        OmittedCosts(Value(), dropped);
        omitted := Some(dropped);
      }
      var fits := ShortenExcerpts(maxBytes);
      PhasesNeeded(original, sampled, kept, groups.list, maxBytes);
      PhasesFit(original, sampled, kept, groups.list, omitted, Bytes(), maxBytes);
    }

    /**
     * Trims lower-priority evidence until the bundle fits. What survives is a prefix of the groups, of each
     * group's samples and of each excerpt; the omitted groups are counted; a result that is still over
     * budget, by more than the count itself takes, has nothing left to trim; and no group or sample was
     * dropped that could have stayed.
     */
    method FitEvidenceBudget(maxBytes: int)
      modifies this
      ensures old(Bytes()) <= maxBytes ==> Value() == old(Value())
      ensures old(Bytes()) > maxBytes ==>
        && truncated == Some(TRUE_SIZE) && warnings == Some(Warned(old(warnings)))
        && groups.Groups? == old(groups).Groups?
        && (groups.Groups? ==> Fitted(old(groups).list, old(omitted), groups.list, omitted, Bytes(), maxBytes))
        && (groups.Groups? ==> Necessary(Flagged(old(Value())), old(groups).list, groups.list, maxBytes))
        && (groups.NoGroups? ==> omitted == old(omitted))
    {
      if Bytes() <= maxBytes { return; }
      truncated := Some(TRUE_SIZE);
      warnings := Some(Warned(warnings));
      if !groups.Groups? { return; }
      TrimGroups(maxBytes);
    }
  }

  /** The bundle once it is known to be too large. */
  function Flagged(c: Contents): Contents {
    c.(truncated := Some(TRUE_SIZE), warnings := Some(Warned(c.warnings)))
  }

  /** What a trimmed bundle's groups and omitted count are, given the size it ended at. */
  ghost predicate Fitted(
    start: seq<Group>, omittedBefore: Option<nat>, end: seq<Group>, omitted: Option<nat>, bytes: nat, maxBytes: int)
  {
    && AllTrimmed(start, end) && LaterGroupsFirst(start, end)
    && (start != [] ==> end != [])
    && (var dropped := |start| - |end|;
        && omitted == (if dropped > 0 then Some(dropped) else omittedBefore)
        && (dropped > 0 ==> forall g :: g in end ==> SampleCount(g, 1))
        && (bytes <= maxBytes + (if dropped > 0 then 1 + OmittedSize(omitted) else 0) || Minimal(end)))
  }

  /** The warning list with the budget warning in it once more only if it was not there. */
  function Warned(warnings: Option<seq<string>>): seq<string> {
    var list := if warnings.Some? then warnings.value else [];
    if OVER_BUDGET in list then list else list + [OVER_BUDGET]
  }
}
