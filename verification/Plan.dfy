/** What a deployment will create, roll, update and delete (sage_run/deployment.py). */
module Plan {
  import opened Options
  import opened Ordering

  datatype Kind = Deployment | StatefulSet | DaemonSet | PersistentVolumeClaim | OtherKind(name: string)

  /** A pod template; checksum is its source-checksum annotation, empty when it has none. */
  datatype Template = Template(checksum: string, body: string)

  datatype Replicas = Absent | Null | Count(n: int)

  /** A manifest, by the parts the plan looks at; rest stands for everything else in it. */
  datatype Doc = Doc(kind: Kind, template: Option<Template>, replicas: Replicas, rest: string)

  /** Manifests by their "kind/name" text. */
  type Docs = map<string, Doc>

  const NONE: Docs := map[]

  /** The keys that appear in the second and not in the first. */
  function New(before: Docs, after: Docs): set<string> { after.Keys - before.Keys }

  datatype Action = Roll | Update

  datatype Lists = Lists(create: seq<string>, roll: seq<string>, update: seq<string>, delete: seq<string>)

  predicate Workload(kind: Kind) { kind.Deployment? || kind.StatefulSet? || kind.DaemonSet? }

  function Checksum(doc: Doc): string { if doc.template.Some? then doc.template.value.checksum else "" }

  /** get() reads an absent and a null count alike. */
  predicate SameCount(a: Replicas, b: Replicas) { a == b || (!a.Count? && !b.Count?) }

  function ChartAction(before: Doc, after: Doc): Option<Action> {
    if before == after then None
    else if Workload(after.kind) && (before.template != after.template || !SameCount(before.replicas, after.replicas))
    then Some(Roll) else Some(Update)
  }

  function ExtraAction(before: Doc, after: Doc): Option<Action> {
    if before == after then None
    else if !Workload(after.kind) then Some(Update)
    else if Checksum(before) != "" && Checksum(after) != "" then
      if Checksum(before) == Checksum(after) && (after.replicas.Absent? || SameCount(before.replicas, after.replicas))
      then None else Some(Roll)
    else if before.template != after.template || !SameCount(before.replicas, after.replicas) then Some(Roll)
    else Some(Update)
  }

  function ActionOf(extras: bool, before: Doc, after: Doc): Option<Action> {
    if extras then ExtraAction(before, after) else ChartAction(before, after)
  }

  /** The keys both sides have on which the rule takes that action. */
  function Acted(extras: bool, before: Docs, after: Docs, action: Action): set<string> {
    set k | k in before && k in after && ActionOf(extras, before[k], after[k]) == Some(action)
  }

  /** A key list as sorted() gives it: in text order, each key as often as given. */
  ghost predicate ListOf(keys: seq<string>, members: multiset<string>) {
    SortedBy(TextLeq, keys) && multiset(keys) == members
  }

  /** The plan between two chart manifests and two sets of extras. */
  ghost predicate IsPlan(plan: Lists, before: Docs, after: Docs, oldExtras: Docs, newExtras: Docs) {
    && ListOf(plan.create, multiset(New(before, after) + New(oldExtras, newExtras)))
    && ListOf(plan.delete, multiset(New(after, before) + New(newExtras, oldExtras)))
    && ListOf(plan.roll, multiset(Acted(false, before, after, Roll)) + multiset(Acted(true, oldExtras, newExtras, Roll)))
    && ListOf(plan.update, multiset(Acted(false, before, after, Update)) + multiset(Acted(true, oldExtras, newExtras, Update)))
  }

  /** Keys of a map of extras that may be absent. */
  function OrEmpty(extras: Option<Docs>): Docs { if extras.Some? then extras.value else map[] }

  /** An extra PVC would be removed while the wanted extras are known. */
  predicate DropsStorage(oldExtras: Docs, wantedExtras: Docs) {
    exists k :: k in oldExtras && k !in wantedExtras && oldExtras[k].kind == PersistentVolumeClaim
  }

  method SortedKeys(keys: set<string>) returns (listed: seq<string>)
    ensures ListOf(listed, multiset(keys)) && forall k :: k in listed <==> k in keys
  {
    var found: seq<string>, todo := [], keys;
    while todo != {}
      invariant todo <= keys && multiset(found) == multiset(keys - todo)
      decreases todo
    {
      var k :| k in todo;
      assert keys - (todo - {k}) == (keys - todo) + {k};
      found, todo := found + [k], todo - {k};
    }
    assert keys - todo == keys;
    listed := Sorted(found);
    forall k ensures k in listed <==> k in keys { assert k in listed <==> k in multiset(listed); }
  }

  function Sorted(keys: seq<string>): (r: seq<string>)
    ensures ListOf(r, multiset(keys))
  {
    TextLeqIsPreorder();
    SortElements(TextLeq, keys);
    SortSorted(TextLeq, keys);
    Sort(TextLeq, keys)
  }

  /** The keys of a list on which the rule takes that action, in the list's order. */
  function Picked(keys: seq<string>, extras: bool, before: Docs, after: Docs, action: Action): seq<string>
    requires forall k :: k in keys ==> k in before && k in after
  {
    if keys == [] then []
    else
      var most, last := keys[..|keys| - 1], keys[|keys| - 1];
      if ActionOf(extras, before[last], after[last]) == Some(action)
      then Picked(most, extras, before, after, action) + [last] else Picked(most, extras, before, after, action)
  }

  lemma {:induction false} PickedElements(
    keys: seq<string>, all: set<string>, extras: bool, before: Docs, after: Docs, action: Action)
    requires all <= before.Keys * after.Keys && multiset(keys) == multiset(all)
    requires forall k :: k in keys ==> k in before && k in after
    ensures multiset(Picked(keys, extras, before, after, action)) == multiset(Acted(extras, before, after, action) * all)
  {
    var acted := Acted(extras, before, after, action);
    if keys == [] {
      assert forall k :: k in all ==> k in multiset(all);
      assert acted * all == {};
    } else {
      var most, last := keys[..|keys| - 1], keys[|keys| - 1];
      WithoutLast(keys, all);
      PickedElements(most, all - {last}, extras, before, after, action);
      WithLast(acted, all, last);
      assert last in acted <==> ActionOf(extras, before[last], after[last]) == Some(action);
    }
  }

  lemma {:induction false} WithoutLast(keys: seq<string>, all: set<string>)
    requires keys != [] && multiset(keys) == multiset(all)
    ensures var last := keys[|keys| - 1]; last in all && multiset(keys[..|keys| - 1]) == multiset(all - {last})
  {
    var most, last := keys[..|keys| - 1], keys[|keys| - 1];
    assert keys == most + [last];
    assert last in multiset(all);
    assert all == (all - {last}) + {last};
    assert multiset(keys) == multiset(most) + multiset{last};
    assert multiset(all) == multiset(all - {last}) + multiset{last};
    assert multiset(most) == multiset(keys) - multiset{last} == multiset(all - {last});
  }

  lemma {:induction false} WithLast(acted: set<string>, all: set<string>, last: string)
    requires last in all
    ensures multiset(acted * all) == multiset(acted * (all - {last})) + if last in acted then multiset{last} else multiset{}
  {
    assert acted * all == if last in acted then acted * (all - {last}) + {last} else acted * (all - {last});
  }

  /** Goes through the keys both sides have, in order, and appends each to the list of its action. */
  method Classify(extras: bool, before: Docs, after: Docs, rolls: seq<string>, updates: seq<string>)
    returns (roll: seq<string>, update: seq<string>)
    ensures multiset(roll) == multiset(rolls) + multiset(Acted(extras, before, after, Roll))
    ensures multiset(update) == multiset(updates) + multiset(Acted(extras, before, after, Update))
  {
    var common := SortedKeys(before.Keys * after.Keys);
    roll, update := ClassifyKeys(common, extras, before, after, rolls, updates);
    ActedIsCommon(extras, before, after);
    PickedElements(common, before.Keys * after.Keys, extras, before, after, Roll);
    PickedElements(common, before.Keys * after.Keys, extras, before, after, Update);
  }

  method ClassifyKeys(keys: seq<string>, extras: bool, before: Docs, after: Docs, rolls: seq<string>, updates: seq<string>)
    returns (roll: seq<string>, update: seq<string>)
    requires forall k :: k in keys ==> k in before && k in after
    ensures roll == rolls + Picked(keys, extras, before, after, Roll)
    ensures update == updates + Picked(keys, extras, before, after, Update)
  {
    roll, update := rolls, updates;
    for i := 0 to |keys|
      invariant roll == rolls + Picked(keys[..i], extras, before, after, Roll)
      invariant update == updates + Picked(keys[..i], extras, before, after, Update)
    {
      assert keys[..i + 1][..i] == keys[..i] && keys[i] in keys;
      var action := ActionOf(extras, before[keys[i]], after[keys[i]]);
      if action == Some(Roll) {
        roll := roll + [keys[i]];
      } else if action == Some(Update) {
        update := update + [keys[i]];
      }
    }
    assert keys[..|keys|] == keys;
  }

  lemma {:induction false} ActedIsCommon(extras: bool, before: Docs, after: Docs)
    ensures forall action :: Acted(extras, before, after, action) * (before.Keys * after.Keys) == Acted(extras, before, after, action)
  {}

  /** deployment_plan; None when removing an extra PVC is refused. */
  method DeploymentPlan(before: Docs, after: Docs, oldExtras: Option<Docs>, wantedExtras: Option<Docs>)
    returns (plan: Option<Lists>)
    ensures plan.None? <==> oldExtras.Some? && wantedExtras.Some? && DropsStorage(oldExtras.value, wantedExtras.value)
    ensures plan.Some? ==> IsPlan(plan.value, before, after, OrEmpty(oldExtras), OrEmpty(wantedExtras))
  {
    if oldExtras.Some? && wantedExtras.Some? && DropsStorage(oldExtras.value, wantedExtras.value) { return None; }
    var oldExt, newExt := OrEmpty(oldExtras), OrEmpty(wantedExtras);
    var lists := BothPlans(before, after, oldExt, newExt);
    plan := Some(lists);
  }

  method BothPlans(before: Docs, after: Docs, oldExt: Docs, newExt: Docs) returns (plan: Lists)
    ensures IsPlan(plan, before, after, oldExt, newExt)
  {
    var create := SortedKeys(New(before, after) + New(oldExt, newExt));
    var delete := SortedKeys(New(after, before) + New(newExt, oldExt));
    var chartRoll, chartUpdate := Classify(false, before, after, [], []);
    var roll, update := Classify(true, oldExt, newExt, chartRoll, chartUpdate);
    plan := Lists(create, Sorted(roll), Sorted(update), delete);
  }

  // ----- the chart plan is a correct diff -----

  ghost predicate IsChartPlan(plan: Lists, before: Docs, after: Docs) { IsPlan(plan, before, after, NONE, NONE) }

  /** The old manifests without the deleted keys, the created and changed ones taken from the new. */
  function Patch(plan: Lists, before: Docs, after: Docs): Docs {
    (map k | k in before && k !in plan.delete :: before[k])
      + (map k | k in after && (k in plan.create || k in plan.roll || k in plan.update) :: after[k])
  }

  lemma {:induction false} Members(keys: seq<string>, members: multiset<string>, k: string)
    requires ListOf(keys, members)
    ensures k in keys <==> k in members
  {
    assert k in keys <==> k in multiset(keys);
  }

  /** A sorted list of a set is duplicate-free. */
  lemma {:induction false} StrictList(keys: seq<string>, all: set<string>)
    requires ListOf(keys, multiset(all))
    ensures StrictlySortedBy(TextLeq, keys)
  {
    forall i, j | 0 <= i < j < |keys| ensures !TextLeq(keys[j], keys[i]) {
      ListedOnce(keys, all, i, j);
      if TextLeq(keys[j], keys[i]) { TextLeqAntisymmetric(keys[i], keys[j]); }
    }
  }

  lemma {:induction false} ListedOnce(keys: seq<string>, all: set<string>, i: nat, j: nat)
    requires multiset(keys) == multiset(all) && i < j < |keys|
    ensures keys[i] != keys[j]
  {
    assert keys == keys[..i] + [keys[i]] + keys[i + 1..j] + [keys[j]] + keys[j + 1..];
    assert keys[i] == keys[j] ==> multiset(keys)[keys[i]] >= 2;
  }

  lemma {:induction false} NoExtras(extras: Docs, action: Action)
    ensures Acted(true, NONE, extras, action) == {}
  {}

  /** What each list of the chart plan holds. */
  lemma {:induction false} ChartMembers(plan: Lists, before: Docs, after: Docs, k: string)
    requires IsChartPlan(plan, before, after)
    ensures k in plan.create <==> k in after && k !in before
    ensures k in plan.delete <==> k in before && k !in after
    ensures k in plan.roll <==> k in before && k in after && ChartAction(before[k], after[k]) == Some(Roll)
    ensures k in plan.update <==> k in before && k in after && ChartAction(before[k], after[k]) == Some(Update)
  {
    NoExtras(NONE, Roll);
    NoExtras(NONE, Update);
    Members(plan.create, multiset(New(before, after) + New(NONE, NONE)), k);
    Members(plan.delete, multiset(New(after, before) + New(NONE, NONE)), k);
    Members(plan.roll, multiset(Acted(false, before, after, Roll)) + multiset(Acted(true, NONE, NONE, Roll)), k);
    Members(plan.update, multiset(Acted(false, before, after, Update)) + multiset(Acted(true, NONE, NONE, Update)), k);
  }

  /** No chart list holds a key twice, and no two hold the same key. */
  lemma {:induction false} ChartListsAreApart(plan: Lists, before: Docs, after: Docs)
    requires IsChartPlan(plan, before, after)
    ensures StrictlySortedBy(TextLeq, plan.create) && StrictlySortedBy(TextLeq, plan.roll)
    ensures StrictlySortedBy(TextLeq, plan.update) && StrictlySortedBy(TextLeq, plan.delete)
    ensures forall k :: k in plan.create ==> k !in plan.roll && k !in plan.update && k !in plan.delete
    ensures forall k :: k in plan.roll ==> k !in plan.update && k !in plan.delete
    ensures forall k :: k in plan.update ==> k !in plan.delete
  {
    NoExtras(NONE, Roll);
    NoExtras(NONE, Update);
    StrictList(plan.create, New(before, after) + New(NONE, NONE));
    StrictList(plan.delete, New(after, before) + New(NONE, NONE));
    StrictList(plan.roll, Acted(false, before, after, Roll));
    StrictList(plan.update, Acted(false, before, after, Update));
    forall k ensures k in plan.create ==> k !in plan.roll && k !in plan.update && k !in plan.delete
      ensures k in plan.roll ==> k !in plan.update && k !in plan.delete
      ensures k in plan.update ==> k !in plan.delete
    {
      ChartMembers(plan, before, after, k);
    }
  }

  /** Carrying the chart plan out on the old manifests gives the new ones. */
  lemma {:induction false} ChartPlanPatches(plan: Lists, before: Docs, after: Docs)
    requires IsChartPlan(plan, before, after)
    ensures Patch(plan, before, after) == after
  {
    forall k ensures AgreeAt(Patch(plan, before, after), after, k) { ChartPatchedAt(plan, before, after, k); }
    SameDocs(Patch(plan, before, after), after);
  }

  predicate AgreeAt(a: Docs, b: Docs, k: string) { (k in a <==> k in b) && (k in a && k in b ==> a[k] == b[k]) }

  lemma {:induction false} SameDocs(a: Docs, b: Docs)
    requires forall k :: AgreeAt(a, b, k)
    ensures a == b
  {
    assert forall k :: k in a ==> AgreeAt(a, b, k);
    assert forall k :: k in b ==> AgreeAt(a, b, k);
  }

  lemma {:induction false} ChartPatchedAt(plan: Lists, before: Docs, after: Docs, k: string)
    requires IsChartPlan(plan, before, after)
    ensures AgreeAt(Patch(plan, before, after), after, k)
  {
    ChartMembers(plan, before, after, k);
    PatchedAt(plan, before, after, k);
  }

  /** One entry of the patched manifests, when the deletions and creations are right. */
  lemma {:induction false} PatchedAt(plan: Lists, before: Docs, after: Docs, k: string)
    requires k in plan.delete <==> k in before && k !in after
    requires k in plan.create <==> k in after && k !in before
    ensures var patched := Patch(plan, before, after);
      && (k in patched <==> k in after)
      && (k in after ==> patched[k] == if k in plan.create || k in plan.roll || k in plan.update then after[k] else before[k])
  {}

  /** The chart plan is empty, so that Helm may be skipped, exactly when the manifests agree. */
  lemma {:induction false} ChartPlanEmptyIff(plan: Lists, before: Docs, after: Docs)
    requires IsChartPlan(plan, before, after)
    ensures plan == Lists([], [], [], []) <==> before == after
  {
    if plan == Lists([], [], [], []) {
      ChartPlanPatches(plan, before, after);
      assert Patch(plan, before, after) == before;
    } else if before == after {
      SomeListed(plan);
      forall k ensures !Listed(plan, k) { ChartMembers(plan, before, after, k); }
    }
  }

  predicate Listed(plan: Lists, k: string) { k in plan.create || k in plan.roll || k in plan.update || k in plan.delete }

  lemma {:induction false} SomeListed(plan: Lists)
    requires plan != Lists([], [], [], [])
    ensures exists k :: Listed(plan, k)
  {
    var list := if plan.create != [] then plan.create else if plan.roll != [] then plan.roll
                else if plan.update != [] then plan.update else plan.delete;
    assert Listed(plan, list[0]);
  }

  // ----- the combined plan -----

  lemma {:induction false} SameList(a: seq<string>, b: seq<string>)
    requires SortedBy(TextLeq, a) && SortedBy(TextLeq, b) && multiset(a) == multiset(b)
    ensures a == b
  {
    if a == [] {
      assert |multiset(b)| == 0;
    } else {
      assert |multiset(a)| == |multiset(b)|;
      SameFirst(a, b);
      RestElements(a);
      RestElements(b);
      SameList(a[1..], b[1..]);
      assert a == [a[0]] + a[1..] && b == [b[0]] + b[1..];
    }
  }

  lemma {:induction false} RestElements(a: seq<string>)
    requires a != []
    ensures multiset(a[1..]) == multiset(a) - multiset{a[0]}
  {
    assert a == [a[0]] + a[1..];
  }

  lemma {:induction false} SameFirst(a: seq<string>, b: seq<string>)
    requires a != [] && b != [] && SortedBy(TextLeq, a) && SortedBy(TextLeq, b) && multiset(a) == multiset(b)
    ensures a[0] == b[0]
  {
    assert a[0] in multiset(b) && b[0] in multiset(a);
    First(a, b[0]);
    First(b, a[0]);
    TextLeqAntisymmetric(a[0], b[0]);
  }

  lemma {:induction false} First(a: seq<string>, x: string)
    requires SortedBy(TextLeq, a) && x in a
    ensures TextLeq(a[0], x)
  {
    TextLeqTotal(x, x);
  }

  lemma {:induction false} ChartChanges(plan: Lists, before: Docs, after: Docs)
    requires IsChartPlan(plan, before, after)
    ensures ListOf(plan.roll, multiset(Acted(false, before, after, Roll)))
    ensures ListOf(plan.update, multiset(Acted(false, before, after, Update)))
  {
    NoExtras(NONE, Roll);
    NoExtras(NONE, Update);
  }

  lemma {:induction false} ExtraChanges(plan: Lists, oldExtras: Docs, newExtras: Docs)
    requires IsPlan(plan, NONE, NONE, oldExtras, newExtras)
    ensures ListOf(plan.roll, multiset(Acted(true, oldExtras, newExtras, Roll)))
    ensures ListOf(plan.update, multiset(Acted(true, oldExtras, newExtras, Update)))
  {
    NoCharts(Roll);
    NoCharts(Update);
  }

  /** Rolls and updates of the combined plan are the chart's and the extras' lists merged in order. */
  lemma {:induction false} CombinedChangesAreMerged(
    both: Lists, chart: Lists, extra: Lists, before: Docs, after: Docs, oldExtras: Docs, newExtras: Docs)
    requires IsPlan(both, before, after, oldExtras, newExtras)
    requires IsChartPlan(chart, before, after) && IsPlan(extra, NONE, NONE, oldExtras, newExtras)
    ensures both.roll == Sorted(chart.roll + extra.roll) && both.update == Sorted(chart.update + extra.update)
  {
    ChartChanges(chart, before, after);
    ExtraChanges(extra, oldExtras, newExtras);
    MergedLists(both.roll, chart.roll, extra.roll,
                multiset(Acted(false, before, after, Roll)), multiset(Acted(true, oldExtras, newExtras, Roll)));
    MergedLists(both.update, chart.update, extra.update,
                multiset(Acted(false, before, after, Update)), multiset(Acted(true, oldExtras, newExtras, Update)));
  }

  /** So are its creations and deletions, exactly when no key is created, or deleted, on both sides. */
  lemma {:induction false} CombinedSetsAreMergedIff(
    both: Lists, chart: Lists, extra: Lists, before: Docs, after: Docs, oldExtras: Docs, newExtras: Docs)
    requires IsPlan(both, before, after, oldExtras, newExtras)
    requires IsChartPlan(chart, before, after) && IsPlan(extra, NONE, NONE, oldExtras, newExtras)
    ensures both.create == Sorted(chart.create + extra.create) <==> New(before, after) !! New(oldExtras, newExtras)
    ensures both.delete == Sorted(chart.delete + extra.delete) <==> New(after, before) !! New(newExtras, oldExtras)
  {
    WithNothing(New(before, after));
    WithNothing(New(after, before));
    WithNothing(New(oldExtras, newExtras));
    WithNothing(New(newExtras, oldExtras));
    MergedSets(both.create, chart.create, extra.create, New(before, after), New(oldExtras, newExtras));
    MergedSets(both.delete, chart.delete, extra.delete, New(after, before), New(newExtras, oldExtras));
  }

  lemma {:induction false} WithNothing(keys: set<string>)
    ensures keys + New(NONE, NONE) == keys == New(NONE, NONE) + keys
  {}

  lemma {:induction false} NoCharts(action: Action)
    ensures Acted(false, NONE, NONE, action) == {}
  {}

  lemma {:induction false} MergedLists(
    both: seq<string>, one: seq<string>, other: seq<string>, a: multiset<string>, b: multiset<string>)
    requires ListOf(both, a + b) && ListOf(one, a) && ListOf(other, b)
    ensures both == Sorted(one + other)
  {
    SameList(both, Sorted(one + other));
  }

  lemma {:induction false} MergedSets(
    both: seq<string>, one: seq<string>, other: seq<string>, a: set<string>, b: set<string>)
    requires ListOf(both, multiset(a + b)) && ListOf(one, multiset(a)) && ListOf(other, multiset(b))
    ensures both == Sorted(one + other) <==> a !! b
  {
    if a !! b {
      assert multiset(a + b) == multiset(a) + multiset(b);
      SameList(both, Sorted(one + other));
    } else {
      var k :| k in a && k in b;
      assert multiset(both)[k] == 1 && multiset(one + other)[k] == 2;
    }
  }

  /** A resource moved from the chart to the extras is both created and deleted, under the same key. */
  lemma {:induction false} MovedIsListedTwice(
    both: Lists, before: Docs, after: Docs, oldExtras: Docs, newExtras: Docs, k: string)
    requires IsPlan(both, before, after, oldExtras, newExtras)
    ensures k in both.create && k in both.delete <==>
            || (k in before && k !in after && k !in oldExtras && k in newExtras)
            || (k !in before && k in after && k in oldExtras && k !in newExtras)
  {
    Members(both.create, multiset(New(before, after) + New(oldExtras, newExtras)), k);
    Members(both.delete, multiset(New(after, before) + New(newExtras, oldExtras)), k);
  }

  /** A changed workload that the plan passes over: its source checksum says the pods would be the same. */
  predicate Quiet(before: Doc, after: Doc) {
    Workload(after.kind) && Checksum(before) != "" && Checksum(before) == Checksum(after)
    && (after.replicas.Absent? || SameCount(before.replicas, after.replicas))
  }

  /** The extras plan carries over every wanted extra, save the changed ones with the same source checksum and count. */
  lemma {:induction false} ExtrasPlanPatches(plan: Lists, oldExtras: Docs, newExtras: Docs)
    requires IsPlan(plan, NONE, NONE, oldExtras, newExtras)
    ensures var patched := Patch(plan, oldExtras, newExtras);
      && patched.Keys == newExtras.Keys
      && forall k :: k in newExtras ==>
           (patched[k] != newExtras[k] <==> k in oldExtras && oldExtras[k] != newExtras[k] && Quiet(oldExtras[k], newExtras[k]))
  {
    var patched := Patch(plan, oldExtras, newExtras);
    forall k ensures k in patched <==> k in newExtras
      ensures k in newExtras ==>
           (patched[k] != newExtras[k] <==> k in oldExtras && oldExtras[k] != newExtras[k] && Quiet(oldExtras[k], newExtras[k]))
    {
      ExtraMembers(plan, oldExtras, newExtras, k);
      PatchedAt(plan, oldExtras, newExtras, k);
    }
  }

  lemma {:induction false} ExtraMembers(plan: Lists, oldExtras: Docs, newExtras: Docs, k: string)
    requires IsPlan(plan, NONE, NONE, oldExtras, newExtras)
    ensures k in plan.create <==> k in newExtras && k !in oldExtras
    ensures k in plan.delete <==> k in oldExtras && k !in newExtras
    ensures k in plan.roll || k in plan.update <==> k in oldExtras && k in newExtras && ExtraAction(oldExtras[k], newExtras[k]).Some?
  {
    NoCharts(Roll);
    NoCharts(Update);
    Members(plan.create, multiset(New(NONE, NONE) + New(oldExtras, newExtras)), k);
    Members(plan.delete, multiset(New(NONE, NONE) + New(newExtras, oldExtras)), k);
    Members(plan.roll, multiset(Acted(false, NONE, NONE, Roll)) + multiset(Acted(true, oldExtras, newExtras, Roll)), k);
    Members(plan.update, multiset(Acted(false, NONE, NONE, Update)) + multiset(Acted(true, oldExtras, newExtras, Update)), k);
  }
}
