/** Recovery sets and their rotation (sage_run/backups.py). */
module Backups {
  import opened Ordering

  datatype Kind = Nightly | OnDeployment

  function Keep(kind: Kind): nat { if kind.Nightly? then 7 else 3 }

  /** The completion marker of a set; current says that its format is the one this version writes. */
  datatype Marker = Marker(current: bool, namespace: string, kind: Kind, complete: bool, shielded: bool, at: int)

  /** A path under the backup root: no directory with a marker yet, or a marked set. */
  datatype Entry = Bare | Marked(marker: Marker)

  type Root = map<string, Entry>

  predicate Eligible(entry: Entry, namespace: string, kind: Kind) {
    entry.Marked? && entry.marker.current && entry.marker.namespace == namespace && entry.marker.kind == kind
    && entry.marker.complete && !entry.marker.shielded
  }

  function Candidates(root: Root, namespace: string, kind: Kind): set<string> {
    set name | name in root && Eligible(root[name], namespace, kind)
  }

  /** A prune of one category: only candidates go, the allowed number stays, and none that stays is older than one that went. */
  ghost predicate Pruned(before: Root, after: Root, namespace: string, kind: Kind) {
    PrunedTo(before, after, Candidates(before, namespace, kind), Keep(kind))
  }

  ghost predicate PrunedTo(before: Root, after: Root, all: set<string>, keep: nat) {
    && after == before - (all - after.Keys)
    && |all * after.Keys| == (if |all| < keep then |all| else keep)
    && OldestGo(before, after, all)
  }

  /** No candidate that stays is older than one that goes. */
  ghost predicate OldestGo(before: Root, after: Root, all: set<string>) {
    forall gone, kept :: gone in all && gone !in after && kept in all && kept in after ==> Stamp(before, gone) <= Stamp(before, kept)
  }

  function Stamp(root: Root, name: string): int {
    if name in root && root[name].Marked? then root[name].marker.at else 0
  }

  // ----- lists of names without repetition -----

  predicate Distinct(names: seq<string>) { forall i, j :: 0 <= i < j < |names| ==> names[i] != names[j] }

  function SetOf(names: seq<string>): set<string> { set name | name in names }

  lemma {:induction false} DistinctSize(names: seq<string>)
    requires Distinct(names)
    ensures |SetOf(names)| == |names|
  {
    if names != [] {
      DistinctSize(names[1..]);
      assert SetOf(names) == SetOf(names[1..]) + {names[0]};
    }
  }

  lemma {:induction false} DistinctFromSize(names: seq<string>, all: set<string>)
    requires multiset(names) == multiset(all)
    ensures Distinct(names) && SetOf(names) == all
  {
    forall i, j | 0 <= i < j < |names| ensures names[i] != names[j] {
      assert names == names[..i] + [names[i]] + names[i + 1..j] + [names[j]] + names[j + 1..];
      assert names[i] == names[j] ==> multiset(names)[names[i]] >= 2;
    }
    forall name ensures name in names <==> name in all { assert name in names <==> name in multiset(names); }
  }

  /** The sort key: newest first. */
  function NewerFirst(root: Root): (string, string) -> bool {
    (a: string, b: string) => Stamp(root, b) <= Stamp(root, a)
  }

  /** Removing everything after the first ones of the sorted list is a prune. */
  lemma {:induction false} TailRemoved(before: Root, after: Root, namespace: string, kind: Kind, sorted: seq<string>, n: nat)
    requires Distinct(sorted) && SetOf(sorted) == Candidates(before, namespace, kind) && SortedBy(NewerFirst(before), sorted)
    requires n == (if |sorted| < Keep(kind) then |sorted| else Keep(kind)) && after == before - SetOf(sorted[n..])
    ensures Pruned(before, after, namespace, kind)
  {
    var all := Candidates(before, namespace, kind);
    Halves(sorted, n);
    DistinctSize(sorted);
    DistinctSize(sorted[..n]);
    TailSets(before, after, all, SetOf(sorted[..n]), SetOf(sorted[n..]));
    forall lost, kept | lost in all && lost !in after && kept in all && kept in after
      ensures Stamp(before, lost) <= Stamp(before, kept)
    {
      assert kept in SetOf(sorted[..n]) && lost in SetOf(sorted[n..]);
      NewerAhead(before, sorted, n, kept, lost);
    }
  }

  lemma {:induction false} TailSets(before: Root, after: Root, all: set<string>, kept: set<string>, gone: set<string>)
    requires all <= before.Keys && gone <= all && kept == all - gone && after == before - gone
    ensures all * after.Keys == kept && all - after.Keys == gone && after == before - (all - after.Keys)
  {}

  lemma {:induction false} NewerAhead(before: Root, sorted: seq<string>, n: nat, kept: string, lost: string)
    requires n <= |sorted| && SortedBy(NewerFirst(before), sorted) && kept in sorted[..n] && lost in sorted[n..]
    ensures Stamp(before, lost) <= Stamp(before, kept)
  {
    SplitSorted(NewerFirst(before), sorted, n);
    assert NewerFirst(before)(kept, lost);
  }

  lemma {:induction false} Halves(names: seq<string>, n: nat)
    requires Distinct(names) && n <= |names|
    ensures Distinct(names[..n]) && SetOf(names[..n]) == SetOf(names) - SetOf(names[n..]) && SetOf(names[n..]) <= SetOf(names)
  {
    forall name ensures name in names <==> name in names[..n] || name in names[n..] {
      assert names == names[..n] + names[n..];
    }
  }

  class BackupRoot {
    var sets: Root

    constructor ()
      ensures sets == map[]
    {
      sets := map[];
    }

    /** The names of the candidates, in any order. */
    method EligibleNames(namespace: string, kind: Kind) returns (eligible: seq<string>)
      ensures multiset(eligible) == multiset(Candidates(sets, namespace, kind))
    {
      ghost var all := Candidates(sets, namespace, kind);
      var todo := sets.Keys;
      eligible := [];
      while todo != {}
        invariant todo <= sets.Keys
        invariant multiset(eligible) == multiset(all - todo)
        decreases todo
      {
        var name :| name in todo;
        if Eligible(sets[name], namespace, kind) {
          eligible := eligible + [name];
          assert all - (todo - {name}) == (all - todo) + {name};
        } else {
          assert all - (todo - {name}) == all - todo;
        }
        todo := todo - {name};
      }
      assert all - todo == all;
    }

    method PruneBackups(namespace: string, kind: Kind)
      modifies this
      ensures Pruned(old(sets), sets, namespace, kind)
    {
      var eligible := EligibleNames(namespace, kind);
      var sorted := Sort(NewerFirst(sets), eligible);
      SortElements(NewerFirst(sets), eligible);
      SortSorted(NewerFirst(sets), eligible);
      DistinctFromSize(sorted, Candidates(sets, namespace, kind));
      var n := if |sorted| < Keep(kind) then |sorted| else Keep(kind);
      RemoveAll(sorted[n..]);
      TailRemoved(old(sets), sets, namespace, kind, sorted, n);
    }

    method RemoveAll(names: seq<string>)
      modifies this
      ensures sets == old(sets) - SetOf(names)
    {
      for i := 0 to |names|
        invariant sets == old(sets) - SetOf(names[..i])
      {
        assert names[..i + 1] == names[..i] + [names[i]];
        sets := sets - {names[i]};
      }
      assert names[..|names|] == names;
    }

    /**
     * create_backup: the marker is published after everything else, and only then are older sets removed.
     * works says how each step of filling the set turns out.
     */
    method CreateBackup(name: string, marker: Marker, works: seq<bool>) returns (ok: bool)
      requires name !in sets && marker.current && marker.complete && !marker.shielded
      modifies this
      ensures ok <==> forall i :: 0 <= i < |works| ==> works[i]
      ensures !ok ==> sets == old(sets)[name := Bare]
      ensures ok ==> Pruned(old(sets)[name := Marked(marker)], sets, marker.namespace, marker.kind)
    {
      sets := sets[name := Bare];
      for i := 0 to |works|
        invariant sets == old(sets)[name := Bare] && forall j :: 0 <= j < i ==> works[j]
      {
        if !works[i] { return false; }
      }
      sets := sets[name := Marked(marker)];
      assert sets == old(sets)[name := Marked(marker)];
      PruneBackups(marker.namespace, marker.kind);
      ok := true;
    }
  }

  // ----- whole runs -----

  /** A completion, as the log of all completions records it. */
  datatype Completion = Completion(name: string, namespace: string, kind: Kind, at: int)

  datatype World = World(root: Root, log: seq<Completion>)

  datatype Action =
    | Begin(name: string)
    | Publish(name: string, marker: Marker)
    | Shield(name: string, shielded: bool)
    | Foreign(name: string, entry: Entry)

  /** A set this version completed, apart from its shield. */
  predicate Records(entry: Entry, c: Completion) {
    entry.Marked? && entry.marker.current && entry.marker.complete
    && entry.marker.namespace == c.namespace && entry.marker.kind == c.kind && entry.marker.at == c.at
  }

  predicate SameCategory(c: Completion, d: Completion) { c.namespace == d.namespace && c.kind == d.kind }

  /** The completions of the same category that follow position i of the log. */
  function Later(log: seq<Completion>, i: nat): set<string>
    requires i < |log|
  {
    set j | i < j < |log| && SameCategory(log[i], log[j]) :: log[j].name
  }

  /**
   * One step of a run. New sets get fresh names; a set is published once, with a later time than any set
   * before it, and its category is pruned; an operator may shield a set or lift its shield; other tools may
   * leave paths that this version does not take for its own.
   */
  ghost predicate Next(w: World, a: Action, v: World) {
    match a
    case Begin(name) => name !in w.root && (forall c :: c in w.log ==> c.name != name) && v == World(w.root[name := Bare], w.log)
    case Publish(name, m) =>
      && name in w.root && w.root[name] == Bare && m.current && m.complete && !m.shielded
      && (forall c :: c in w.log ==> c.name != name && c.at < m.at)
      && v.log == w.log + [Completion(name, m.namespace, m.kind, m.at)]
      && Pruned(w.root[name := Marked(m)], v.root, m.namespace, m.kind)
    case Shield(name, shielded) =>
      && name in w.root && w.root[name].Marked?
      && v == World(w.root[name := Marked(w.root[name].marker.(shielded := shielded))], w.log)
    case Foreign(name, entry) =>
      && name !in w.root && (forall c :: c in w.log ==> c.name != name) && entry.Marked? && !entry.marker.current
      && v == World(w.root[name := entry], w.log)
  }

  ghost predicate Run(w: World, actions: seq<Action>, v: World)
    decreases actions
  {
    if actions == [] then v == w else exists u :: Next(w, actions[0], u) && Run(u, actions[1..], v)
  }

  /** Every completed set that is gone had as many later completions of its category as the category keeps. */
  ghost predicate Inv(w: World) {
    && (forall i, j :: 0 <= i < j < |w.log| ==> w.log[i].name != w.log[j].name && w.log[i].at < w.log[j].at)
    && (forall c :: c in w.log && c.name in w.root ==> Records(w.root[c.name], c))
    && (forall name :: name in w.root && w.root[name].Marked? && w.root[name].marker.current
          ==> exists c :: c in w.log && c.name == name)
    && (forall i :: 0 <= i < |w.log| && w.log[i].name !in w.root ==> |Later(w.log, i)| >= Keep(w.log[i].kind))
  }

  // ----- what every run keeps -----

  lemma {:induction false} PrunedSize(before: Root, after: Root, namespace: string, kind: Kind)
    requires Pruned(before, after, namespace, kind)
    ensures Candidates(after, namespace, kind) == Candidates(before, namespace, kind) * after.Keys
    ensures |Candidates(after, namespace, kind)| <= Keep(kind)
    ensures (exists name :: name in before && name !in after) ==> |Candidates(after, namespace, kind)| == Keep(kind)
  {
    var all := Candidates(before, namespace, kind);
    var kept := all * after.Keys;
    assert Candidates(after, namespace, kind) == kept;
    if |all| < Keep(kind) {
      assert |all - kept| == |all| - |kept|;
      assert all - after.Keys == all - kept == {};
    }
  }

  lemma {:induction false} PruneRemoved(before: Root, after: Root, namespace: string, kind: Kind, lost: string)
    requires Pruned(before, after, namespace, kind) && lost in before && lost !in after
    ensures Eligible(before[lost], namespace, kind)
    ensures |Candidates(after, namespace, kind)| == Keep(kind)
    ensures forall kept :: kept in Candidates(after, namespace, kind) ==>
      kept in before && after[kept] == before[kept] && before[lost].marker.at <= before[kept].marker.at
  {
    PrunedSize(before, after, namespace, kind);
    assert lost in Candidates(before, namespace, kind);
    forall kept | kept in Candidates(after, namespace, kind)
      ensures kept in before && after[kept] == before[kept] && before[lost].marker.at <= before[kept].marker.at
    {
      assert kept in Candidates(before, namespace, kind) * after.Keys;
      assert Stamp(before, lost) <= Stamp(before, kept);
    }
  }

  lemma {:induction false} LaterGrows(log: seq<Completion>, c: Completion, i: nat)
    requires i < |log|
    ensures |Later(log, i)| <= |Later(log + [c], i)|
  {
    forall name | name in Later(log, i) ensures name in Later(log + [c], i) {
      var j :| i < j < |log| && SameCategory(log[i], log[j]) && log[j].name == name;
      assert (log + [c])[j] == log[j];
    }
    Subset(Later(log, i), Later(log + [c], i));
  }

  lemma {:induction false} Subset(a: set<string>, b: set<string>)
    requires a <= b
    ensures |a| <= |b|
  {
    assert b == a + (b - a);
  }

  /** A candidate is in the log, under its own name, category and time. */
  lemma {:induction false} CandidateIsLogged(
    root: Root, log: seq<Completion>, name: string, namespace: string, kind: Kind) returns (j: nat)
    requires name in Candidates(root, namespace, kind)
    requires forall c :: c in log && c.name in root ==> Records(root[c.name], c)
    requires exists c :: c in log && c.name == name
    ensures j < |log| && log[j].name == name && log[j].namespace == namespace && log[j].kind == kind
    ensures log[j].at == root[name].marker.at
  {
    var c :| c in log && c.name == name;
    j :| 0 <= j < |log| && log[j] == c;
  }

  /** The published set survives its own prune, being the newest. */
  lemma {:induction false} PublishedStays(w: World, a: Action, v: World)
    requires Inv(w) && a.Publish? && Next(w, a, v)
    ensures a.name in v.root
  {
    var m := a.marker;
    forall kept | kept in Candidates(v.root, m.namespace, m.kind) && kept != a.name ensures v.root[kept].marker.at < m.at {
      EarlierOnesAreOlder(w, a, v, kept);
    }
    if a.name !in v.root {
      SomeCandidate(v.root, m.namespace, m.kind);
      PruneRemoved(w.root[a.name := Marked(m)], v.root, m.namespace, m.kind, a.name);
    }
  }

  lemma {:induction false} EarlierOnesAreOlder(w: World, a: Action, v: World, kept: string)
    requires Inv(w) && a.Publish? && Next(w, a, v)
    requires kept in Candidates(v.root, a.marker.namespace, a.marker.kind) && kept != a.name
    ensures v.root[kept].marker.at < a.marker.at
  {
    var j := CandidateIsLogged(w.root, w.log, kept, a.marker.namespace, a.marker.kind);
    assert w.log[j] in w.log;
  }

  lemma {:induction false} SomeCandidate(root: Root, namespace: string, kind: Kind)
    ensures |Candidates(root, namespace, kind)| == Keep(kind) ==> exists name :: name in Candidates(root, namespace, kind)
  {
    if Candidates(root, namespace, kind) != {} { var name :| name in Candidates(root, namespace, kind); }
  }

  /** A set that goes when another is published had enough later ones in its category. */
  lemma {:induction false} GoneHasLater(w: World, a: Action, v: World, i: nat)
    requires Inv(w) && a.Publish? && Next(w, a, v)
    requires i < |w.log| && w.log[i].name in w.root && w.log[i].name !in v.root
    ensures |Later(v.log, i)| >= Keep(w.log[i].kind)
  {
    var mid, m := w.root[a.name := Marked(a.marker)], a.marker;
    assert w.log[i] in w.log;
    PruneRemoved(mid, v.root, m.namespace, m.kind, w.log[i].name);
    forall y | y in Candidates(v.root, m.namespace, m.kind) ensures y in Later(v.log, i) {
      KeptIsLater(w, a, v, i, y);
    }
    Subset(Candidates(v.root, m.namespace, m.kind), Later(v.log, i));
  }

  lemma {:induction false} KeptIsLater(w: World, a: Action, v: World, i: nat, y: string)
    requires Inv(w) && a.Publish? && Next(w, a, v)
    requires i < |w.log| && w.log[i].name in w.root && w.log[i].name !in v.root
    requires y in Candidates(v.root, a.marker.namespace, a.marker.kind)
    ensures y in Later(v.log, i)
  {
    var m := a.marker;
    assert w.log[i] in w.log && v.log[i] == w.log[i];
    PruneRemoved(w.root[a.name := Marked(m)], v.root, m.namespace, m.kind, w.log[i].name);
    if y == a.name {
      assert v.log[|w.log|].name == y && SameCategory(v.log[i], v.log[|w.log|]);
    } else {
      var j := CandidateIsLogged(w.root, w.log, y, m.namespace, m.kind);
      assert v.log[j] == w.log[j] && SameCategory(v.log[i], v.log[j]);
      assert j > i;
    }
  }

  lemma {:induction false} NextKeepsInv(w: World, a: Action, v: World)
    requires Inv(w) && Next(w, a, v)
    ensures Inv(v)
  {
    if a.Publish? {
      PublishedStays(w, a, v);
      forall i | 0 <= i < |v.log| && v.log[i].name !in v.root ensures |Later(v.log, i)| >= Keep(v.log[i].kind) {
        if v.log[i].name in w.root {
          GoneHasLater(w, a, v, i);
        } else {
          LaterGrows(w.log, v.log[|w.log|], i);
        }
      }
      PublishKeepsRecords(w, a, v);
    }
  }

  lemma {:induction false} PublishKeepsRecords(w: World, a: Action, v: World)
    requires Inv(w) && a.Publish? && Next(w, a, v)
    ensures forall i, j :: 0 <= i < j < |v.log| ==> v.log[i].name != v.log[j].name && v.log[i].at < v.log[j].at
    ensures forall c :: c in v.log && c.name in v.root ==> Records(v.root[c.name], c)
    ensures forall name :: name in v.root && v.root[name].Marked? && v.root[name].marker.current ==>
      exists c :: c in v.log && c.name == name
  {
    forall c | c in w.log ensures c in v.log && c.name != a.name && c.at < a.marker.at {}
    PublishKeepsOrder(w, a, v);
    var last := v.log[|w.log|];
    assert last in v.log && last.name == a.name;
    forall name | name in v.root && v.root[name].Marked? && v.root[name].marker.current
      ensures exists c :: c in v.log && c.name == name
    {
      if name != a.name { var c :| c in w.log && c.name == name; }
    }
    forall c | c in v.log && c.name in v.root ensures Records(v.root[c.name], c) {
      assert c in w.log || c == last;
    }
  }

  lemma {:induction false} PublishKeepsOrder(w: World, a: Action, v: World)
    requires Inv(w) && a.Publish? && Next(w, a, v)
    ensures forall i, j :: 0 <= i < j < |v.log| ==> v.log[i].name != v.log[j].name && v.log[i].at < v.log[j].at
  {
    assert forall i :: 0 <= i < |w.log| ==> w.log[i] in w.log;
  }

  lemma {:induction false} RunKeepsInv(w: World, actions: seq<Action>, v: World)
    requires Inv(w) && Run(w, actions, v)
    ensures Inv(v)
    decreases actions
  {
    if actions != [] {
      var u :| Next(w, actions[0], u) && Run(u, actions[1..], v);
      NextKeepsInv(w, actions[0], u);
      RunKeepsInv(u, actions[1..], v);
    }
  }

  const EMPTY := World(map[], [])

  /** On every run, a completed set is only gone once its category has completed as many more as it keeps. */
  lemma {:induction false} LastCompletionsSurvive(actions: seq<Action>, w: World, i: nat)
    requires Run(EMPTY, actions, w) && i < |w.log| && |Later(w.log, i)| < Keep(w.log[i].kind)
    ensures w.log[i].name in w.root && Records(w.root[w.log[i].name], w.log[i])
  {
    RunKeepsInv(EMPTY, actions, w);
    assert w.log[i] in w.log;
  }

  /** Only a completed, unshielded set of the pruned category is ever removed, and only when a newer one is published. */
  lemma {:induction false} OnlyCandidatesGo(w: World, a: Action, v: World, name: string)
    requires Inv(w) && Next(w, a, v) && name in w.root && name !in v.root
    ensures a.Publish? && name != a.name && Eligible(w.root[name], a.marker.namespace, a.marker.kind)
    ensures |Candidates(v.root, a.marker.namespace, a.marker.kind)| == Keep(a.marker.kind)
    ensures forall kept :: kept in Candidates(v.root, a.marker.namespace, a.marker.kind)
              ==> w.root[name].marker.at <= v.root[kept].marker.at
  {
    PublishedStays(w, a, v);
    PruneRemoved(w.root[a.name := Marked(a.marker)], v.root, a.marker.namespace, a.marker.kind, name);
  }

  /** Whatever is no candidate has no influence on a prune and is not touched by it. */
  lemma {:induction false} OthersDoNotCount(before: Root, after: Root, other: Root, namespace: string, kind: Kind)
    requires before.Keys !! other.Keys && Candidates(other, namespace, kind) == {} && after.Keys <= before.Keys
    ensures Pruned(before, after, namespace, kind) <==> Pruned(before + other, after + other, namespace, kind)
  {
    var all := Candidates(before, namespace, kind);
    CandidatesBeside(before, other, namespace, kind);
    PrunedBeside(before, after, other, all, Keep(kind));
  }

  lemma {:induction false} PrunedBeside(before: Root, after: Root, other: Root, all: set<string>, keep: nat)
    requires before.Keys !! other.Keys && after.Keys <= before.Keys && all <= before.Keys
    ensures PrunedTo(before, after, all, keep) <==> PrunedTo(before + other, after + other, all, keep)
  {
    assert all * (after + other).Keys == all * after.Keys;
    assert all - (after + other).Keys == all - after.Keys;
    BesideOthers(before, after, other, all - after.Keys);
    SameOldest(before, after, before + other, after + other, all);
  }

  lemma {:induction false} CandidatesBeside(before: Root, other: Root, namespace: string, kind: Kind)
    requires before.Keys !! other.Keys && Candidates(other, namespace, kind) == {}
    ensures Candidates(before + other, namespace, kind) == Candidates(before, namespace, kind)
  {
    assert forall name :: name in other ==> name !in Candidates(other, namespace, kind);
  }

  lemma {:induction false} SameOldest(before: Root, after: Root, before1: Root, after1: Root, all: set<string>)
    requires forall name :: name in all ==> name in before && name in before1 && before[name] == before1[name]
    requires forall name :: name in all ==> (name in after <==> name in after1)
    ensures OldestGo(before, after, all) <==> OldestGo(before1, after1, all)
  {
    assert forall name :: name in all ==> Stamp(before, name) == Stamp(before1, name);
  }

  lemma {:induction false} BesideOthers(before: Root, after: Root, other: Root, gone: set<string>)
    requires before.Keys !! other.Keys && after.Keys <= before.Keys && gone <= before.Keys
    ensures after == before - gone <==> after + other == before + other - gone
  {
    assert (before - gone) + other == (before + other) - gone;
    if after + other == (before - gone) + other {
      assert after == (after + other) - other.Keys;
      assert before - gone == ((before - gone) + other) - other.Keys;
    }
  }
}
