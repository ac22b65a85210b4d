/** Chart values: the recursive merge and the values a deployment is composed of (sage_run/incluster.py). */
module Values {
  import opened Options

  /** A key of a mapping; the ones the composition names stand apart. */
  datatype Key =
    | Mcps | Connectors | WorkflowMcps | Env | ServiceEnv | HostAliases | ConfigChecksums
    | Images | WorkflowRepo | Ref | Ingress | Enabled | Deployer | ControlPlaneUi | Infrastructure
    | Other(name: string)

  type Entries = map<Key, Value>

  /**
   * A JSON value. Python's dict() turns some values that are no mapping into one: an empty string or list,
   * or a list of pairs. Those are Pairs, with the mapping they are read as; any other leaf makes dict() raise.
   */
  datatype Value = Leaf(text: string) | Pairs(text: string, read: Entries) | Mapping(entries: Entries)

  const EMPTY := Mapping(map[])

  function DictOf(v: Value): Option<Entries> {
    match v
    case Leaf(_) => None
    case Pairs(_, read) => Some(read)
    case Mapping(entries) => Some(entries)
  }

  function Get(m: Entries, key: Key, otherwise: Value): Value { if key in m then m[key] else otherwise }

  /** What a value becomes when a change is merged onto it; None when merge_values raises. */
  function Merge(base: Value, change: Value): (r: Option<Value>)
    ensures change.Mapping? && r.Some? ==> r.value.Mapping?
    decreases change
  {
    if !change.Mapping? then Some(change)
    else
      var m := DictOf(base);
      if m.None? || exists k :: k in change.entries && Merge(Get(m.value, k, EMPTY), change.entries[k]).None? then None
      else Some(Mapping(map k | k in m.value.Keys + change.entries.Keys ::
        if k in change.entries then Merge(Get(m.value, k, EMPTY), change.entries[k]).value else m.value[k]))
  }

  /** merge_values. The order in which the changed keys are visited does not matter. */
  method MergeValues(existing: Value, changes: Value) returns (result: Option<Value>)
    requires changes.Mapping?
    ensures result == Merge(existing, changes)
    decreases changes
  {
    var base := DictOf(existing);
    if base.None? { return None; }
    var merged, todo := base.value, changes.entries.Keys;
    while todo != {}
      invariant todo <= changes.entries.Keys
      invariant merged.Keys == base.value.Keys + (changes.entries.Keys - todo)
      invariant forall k :: k in base.value && (k !in changes.entries || k in todo) ==> merged[k] == base.value[k]
      invariant forall k :: k in changes.entries && k !in todo ==>
        Merge(Get(base.value, k, EMPTY), changes.entries[k]) == Some(merged[k])
      decreases todo
    {
      var key :| key in todo;
      if changes.entries[key].Mapping? {
        var inner := MergeValues(Get(merged, key, EMPTY), changes.entries[key]);
        if inner.None? { return None; }
        merged := merged[key := inner.value];
      } else {
        merged := merged[key := changes.entries[key]];
      }
      todo := todo - {key};
    }
    result := Some(Mapping(merged));
    assert Merge(existing, changes).value.entries == merged;
  }

  // ----- the algebra of merging -----

  lemma {:induction false} RightIdentity(m: Entries)
    ensures Merge(Mapping(m), EMPTY) == Some(Mapping(m))
  {
    assert Merge(Mapping(m), EMPTY).value.entries == m;
  }

  lemma {:induction false} LeftIdentity(change: Value)
    ensures Merge(EMPTY, change) == Some(change)
    decreases change
  {
    if change.Mapping? {
      forall k | k in change.entries ensures Merge(EMPTY, change.entries[k]) == Some(change.entries[k]) {
        LeftIdentity(change.entries[k]);
      }
      assert Merge(EMPTY, change).value.entries == change.entries;
    }
  }

  lemma {:induction false} MergeTwice(base: Value, change: Value)
    requires Merge(base, change).Some?
    ensures Merge(Merge(base, change).value, change) == Merge(base, change)
    decreases change
  {
    if change.Mapping? {
      var m, once := DictOf(base).value, Merge(base, change).value.entries;
      forall k | k in change.entries ensures Merge(once[k], change.entries[k]) == Some(once[k]) {
        MergeTwice(Get(m, k, EMPTY), change.entries[k]);
      }
      assert Merge(Mapping(once), change).value.entries == once;
    }
  }

  /** Somewhere a mapping is merged onto a value that is no mapping but that dict() accepts. */
  ghost predicate Clash(base: Value, change: Value)
    decreases change
  {
    change.Mapping? &&
    (base.Pairs? || (base.Mapping? && exists k :: k in base.entries && k in change.entries && Clash(base.entries[k], change.entries[k])))
  }

  /** Neither grouping of the three merges raises. */
  predicate BothDefined(a: Value, b: Value, c: Value) {
    && Merge(a, b).Some? && Merge(Merge(a, b).value, c).Some?
    && Merge(b, c).Some? && Merge(a, Merge(b, c).value).Some?
  }

  /** Where both groupings are defined, merging is associative exactly when the later two do not clash. */
  lemma {:induction false} AssociativeIff(b: Value, c: Value)
    requires Merge(b, c).Some?
    ensures !Clash(b, c) <==> forall a :: BothDefined(a, b, c) ==> Merge(Merge(a, b).value, c) == Merge(a, Merge(b, c).value)
  {
    if Clash(b, c) {
      var a := ClashTellsApart(b, c);
    } else {
      forall a | BothDefined(a, b, c)
        ensures Merge(Merge(a, b).value, c) == Merge(a, Merge(b, c).value)
      {
        Associative(a, b, c);
      }
    }
  }

  lemma {:induction false} Associative(a: Value, b: Value, c: Value)
    requires !Clash(b, c) && BothDefined(a, b, c)
    ensures Merge(Merge(a, b).value, c) == Merge(a, Merge(b, c).value)
    decreases c, 1
  {
    if c.Mapping? {
      var ab, bc := Merge(a, b).value, Merge(b, c).value;
      var left, right := Merge(ab, c).value.entries, Merge(a, bc).value.entries;
      forall k | k in left ensures left[k] == right[k] {
        AssociativeAt(a, b, c, k);
      }
      assert left == right;
    }
  }

  lemma {:induction false} AssociativeAt(a: Value, b: Value, c: Value, k: Key)
    requires c.Mapping? && !Clash(b, c) && BothDefined(a, b, c)
    requires k in Merge(Merge(a, b).value, c).value.entries
    ensures Merge(Merge(a, b).value, c).value.entries[k] == Merge(a, Merge(b, c).value).value.entries[k]
    decreases c, 0
  {
    var m := DictOf(a).value;
    if k in c.entries {
      if k in b.entries {
        Associative(Get(m, k, EMPTY), b.entries[k], c.entries[k]);
      } else {
        LeftIdentity(c.entries[k]);
      }
    }
  }

  lemma {:induction false} Fresh(keys: set<Key>) returns (key: Key)
    ensures key !in keys
  {
    var n := Longer(keys);
    key := Other(seq(n, i => 'x'));
  }

  lemma {:induction false} Longer(keys: set<Key>) returns (n: nat)
    ensures forall key :: key in keys && key.Other? ==> |key.name| < n
    decreases keys
  {
    n := 0;
    if keys != {} {
      var key :| key in keys;
      var m := Longer(keys - {key});
      n := if key.Other? && m <= |key.name| then |key.name| + 1 else m;
    }
  }

  /** A tree that gains an entry below the clash shows the difference. */
  lemma {:induction false} ClashTellsApart(b: Value, c: Value) returns (a: Value)
    requires Clash(b, c) && Merge(b, c).Some?
    ensures BothDefined(a, b, c) && Merge(Merge(a, b).value, c) != Merge(a, Merge(b, c).value)
    decreases c
  {
    if b.Pairs? {
      a := PairsTellApart(b, c);
    } else {
      var k :| k in b.entries && k in c.entries && Clash(b.entries[k], c.entries[k]);
      var inner := ClashTellsApart(b.entries[k], c.entries[k]);
      a := Mapping(map[k := inner]);
      NestedTellsApart(b, c, k, inner);
    }
  }

  lemma {:induction false} PairsTellApart(b: Value, c: Value) returns (a: Value)
    requires b.Pairs? && c.Mapping? && Merge(b, c).Some?
    ensures BothDefined(a, b, c) && Merge(Merge(a, b).value, c) != Merge(a, Merge(b, c).value)
  {
    var name := Fresh(Merge(b, c).value.entries.Keys);
    a := Mapping(map[name := Leaf("")]);
    OntoOne(name, Leaf(""), Merge(b, c).value);
  }

  lemma {:induction false} NestedTellsApart(b: Value, c: Value, k: Key, inner: Value)
    requires b.Mapping? && c.Mapping? && k in b.entries && k in c.entries && Merge(b, c).Some?
    requires BothDefined(inner, b.entries[k], c.entries[k])
    requires Merge(Merge(inner, b.entries[k]).value, c.entries[k]) != Merge(inner, Merge(b.entries[k], c.entries[k]).value)
    ensures var a := Mapping(map[k := inner]);
      BothDefined(a, b, c) && Merge(Merge(a, b).value, c) != Merge(a, Merge(b, c).value)
  {
    var a := Mapping(map[k := inner]);
    OntoOne(k, inner, b);
    OntoOne(k, inner, Merge(b, c).value);
    assert Merge(Merge(a, b).value, c).value.entries[k] != Merge(a, Merge(b, c).value).value.entries[k];
  }

  /** Merging onto a mapping with a single entry leaves the other entries as they are. */
  lemma {:induction false} OntoOne(k: Key, below: Value, change: Value)
    requires change.Mapping? && (k in change.entries ==> Merge(below, change.entries[k]).Some?)
    ensures Merge(Mapping(map[k := below]), change).Some?
    ensures Merge(Mapping(map[k := below]), change).value.entries ==
            change.entries[k := if k in change.entries then Merge(below, change.entries[k]).value else below]
  {
    var m := map[k := below];
    forall j | j in change.entries && j != k ensures Merge(Get(m, j, EMPTY), change.entries[j]) == Some(change.entries[j]) {
      LeftIdentity(change.entries[j]);
    }
  }

  // ----- the values of a deployment -----

  /** Enable maps that replace the old ones; merged recursively, removed entries would survive. */
  const REPLACED: seq<Key> := [Mcps, Connectors, WorkflowMcps, Env, ServiceEnv, HostAliases, ConfigChecksums]

  predicate IsReplaced(k: Key) {
    k.Mcps? || k.Connectors? || k.WorkflowMcps? || k.Env? || k.ServiceEnv? || k.HostAliases? || k.ConfigChecksums?
  }

  /** What rendering the platform config yields: every replaced map, and nothing about the control plane UI. */
  ghost predicate Rendered(rendered: Entries) {
    (forall k :: IsReplaced(k) ==> k in rendered) && ControlPlaneUi !in rendered
  }

  datatype Composed = Composed(values: Entries) | BadShape | InfrastructureChanged

  /** A section of the current values with some entries set; None where the section is no mapping. */
  function Spread(current: Entries, key: Key, more: Entries): Option<Value> {
    var section := Get(current, key, EMPTY);
    if section.Mapping? then Some(Mapping(section.entries + more)) else None
  }

  function Disabled(): Value { Mapping(map[Enabled := Leaf("false")]) }

  /** The rendered values with the images, the checkout and the ingress taken from the running release. */
  function Changes(current: Entries, rendered: Entries, images: Value, ref: string): Option<Entries> {
    var repo := Spread(current, WorkflowRepo, map[Ref := Leaf(ref)]);
    if repo.None? then None
    else Some(rendered[Images := images][WorkflowRepo := repo.value][Ingress := Get(current, Ingress, Disabled())])
  }

  function Replaced(values: Entries, changes: Entries): Entries {
    values + (map k | k in changes && IsReplaced(k) :: changes[k])
  }

  /** The merged values with the replaced maps, the deployer and the UI host settings put in. */
  function Assemble(current: Entries, merged: Entries, changes: Entries, ui: Option<Entries>): Composed {
    var replaced := Replaced(merged, changes);
    var deployed := if Deployer in current then replaced[Deployer := current[Deployer]] else replaced;
    var panel := if ui.Some? then Spread(current, ControlPlaneUi, ui.value) else None;
    if ui.Some? && panel.None? then BadShape
    else
      var values := if ui.Some? then deployed[ControlPlaneUi := panel.value] else deployed;
      if Infrastructure in values && values[Infrastructure] == Get(current, Infrastructure, EMPTY)
      then Composed(values) else InfrastructureChanged
  }

  /** _compose_candidate_values; ui holds the UI host settings of a remote deployment. */
  function Compose(current: Entries, rendered: Entries, images: Value, ref: string, ui: Option<Entries>): Composed
    requires Rendered(rendered)
  {
    var changes := Changes(current, rendered, images, ref);
    if changes.None? || Merge(Mapping(current), Mapping(changes.value)).None? then BadShape
    else Assemble(current, Merge(Mapping(current), Mapping(changes.value)).value.entries, changes.value, ui)
  }

  lemma {:induction false} ReplacedAt(k: Key)
    ensures k in REPLACED <==> IsReplaced(k)
  {
    if k in REPLACED { var i :| 0 <= i < 7 && REPLACED[i] == k; }
    assert REPLACED[0] == Mcps && REPLACED[1] == Connectors && REPLACED[2] == WorkflowMcps && REPLACED[3] == Env;
    assert REPLACED[4] == ServiceEnv && REPLACED[5] == HostAliases && REPLACED[6] == ConfigChecksums;
  }

  method ReplaceMaps(merged: Entries, changes: Entries, keys: seq<Key>) returns (values: Entries)
    requires forall k :: k in keys ==> k in changes
    ensures values == merged + (map k | k in keys :: changes[k])
  {
    values := merged;
    for i := 0 to |keys|
      invariant values == merged + (map k | k in keys[..i] :: changes[k])
    {
      values := values[keys[i] := changes[keys[i]]];
      assert keys[..i + 1] == keys[..i] + [keys[i]];
    }
    assert keys[..|keys|] == keys;
  }

  method AssembleValues(
    current: Entries, merged: Entries, changes: Entries, ui: Option<Entries>) returns (composed: Composed)
    requires forall k :: IsReplaced(k) ==> k in changes
    ensures composed == Assemble(current, merged, changes, ui)
  {
    forall k ensures k in REPLACED <==> IsReplaced(k) { ReplacedAt(k); }
    var values := ReplaceMaps(merged, changes, REPLACED);
    assert values == Replaced(merged, changes);
    if Deployer in current { values := values[Deployer := current[Deployer]]; }
    if ui.Some? {
      var panel := Spread(current, ControlPlaneUi, ui.value);
      if panel.None? { return BadShape; }
      values := values[ControlPlaneUi := panel.value];
    }
    if Infrastructure !in values || values[Infrastructure] != Get(current, Infrastructure, EMPTY) {
      return InfrastructureChanged;
    }
    composed := Composed(values);
  }

  method ComposeCandidateValues(current: Entries, rendered: Entries, images: Value, ref: string, ui: Option<Entries>)
    returns (composed: Composed)
    requires Rendered(rendered)
    ensures composed == Compose(current, rendered, images, ref, ui)
  {
    var repo := Spread(current, WorkflowRepo, map[Ref := Leaf(ref)]);
    if repo.None? { return BadShape; }
    var changes := rendered[Images := images][WorkflowRepo := repo.value][Ingress := Get(current, Ingress, Disabled())];
    var merged := MergeValues(Mapping(current), Mapping(changes));
    if merged.None? { return BadShape; }
    composed := AssembleValues(current, merged.value.entries, changes, ui);
  }

  // ----- what a composed deployment keeps and what it replaces -----

  lemma {:induction false} SelfMerge(v: Value)
    ensures Merge(v, v) == Some(v)
  {
    LeftIdentity(v);
    MergeTwice(EMPTY, v);
  }

  /** One entry of a merged mapping. */
  lemma {:induction false} MergedAt(base: Entries, change: Entries, k: Key)
    requires Merge(Mapping(base), Mapping(change)).Some?
    ensures var merged := Merge(Mapping(base), Mapping(change)).value.entries;
      && (k in merged <==> k in base || k in change)
      && (k in change ==> Merge(Get(base, k, EMPTY), change[k]) == Some(merged[k]))
      && (k in base && k !in change ==> merged[k] == base[k])
  {}

  /** One entry of the composed values. */
  lemma {:induction false} AssembledAt(current: Entries, merged: Entries, changes: Entries, ui: Option<Entries>, k: Key)
    requires forall j :: IsReplaced(j) ==> j in changes
    requires Assemble(current, merged, changes, ui).Composed?
    ensures var values := Assemble(current, merged, changes, ui).values;
      if k == ControlPlaneUi && ui.Some? then k in values && Spread(current, k, ui.value) == Some(values[k])
      else if k == Deployer && k in current then k in values && values[k] == current[k]
      else if IsReplaced(k) then k in values && values[k] == changes[k]
      else (k in values <==> k in merged) && (k in merged ==> values[k] == merged[k])
  {}

  /**
   * The seven replaced maps are exactly the rendered ones, so an entry removed from the config is gone. The
   * deployer, the infrastructure and the ingress stay what they were, and so does every key the config
   * does not render.
   */
  lemma {:induction false} ComposedValues(
    current: Entries, rendered: Entries, images: Value, ref: string, ui: Option<Entries>, k: Key)
    requires Rendered(rendered) && Compose(current, rendered, images, ref, ui).Composed?
    ensures var values := Compose(current, rendered, images, ref, ui).values;
      && (IsReplaced(k) ==> k in values && values[k] == rendered[k])
      && (k in current ==> k in values)
      && (k in current && (k.Deployer? || k.Infrastructure? || k.Ingress?) ==> values[k] == current[k])
      && (k in current && k !in rendered && !k.Images? && !k.WorkflowRepo? && !k.ControlPlaneUi? ==> values[k] == current[k])
  {
    var changes := Changes(current, rendered, images, ref).value;
    var merged := Merge(Mapping(current), Mapping(changes)).value.entries;
    ChangesAt(current, rendered, images, ref, k);
    MergedAt(current, changes, k);
    KeptAt(current, merged, changes, k);
    AssembledKeeps(current, rendered, merged, changes, ui, k);
  }

  lemma {:induction false} AssembledKeeps(
    current: Entries, rendered: Entries, merged: Entries, changes: Entries, ui: Option<Entries>, k: Key)
    requires (forall j :: IsReplaced(j) ==> j in changes) && Assemble(current, merged, changes, ui).Composed?
    requires IsReplaced(k) ==> k in rendered && changes[k] == rendered[k]
    requires k in current ==> k in merged
    requires k in current && (k.Ingress? || k !in changes) ==> merged[k] == current[k]
    ensures var values := Assemble(current, merged, changes, ui).values;
      && (IsReplaced(k) ==> k in values && k in rendered && values[k] == rendered[k])
      && (k in current ==> k in values)
      && (k in current && (k.Deployer? || k.Infrastructure? || k.Ingress?) ==> values[k] == current[k])
      && (k in current && k !in changes && !k.ControlPlaneUi? ==> values[k] == current[k])
  {
    AssembledAt(current, merged, changes, ui, k);
  }

  lemma {:induction false} ChangesAt(current: Entries, rendered: Entries, images: Value, ref: string, k: Key)
    requires Changes(current, rendered, images, ref).Some?
    ensures var changes := Changes(current, rendered, images, ref).value;
      && (k.Ingress? ==> k in changes && changes[k] == Get(current, k, Disabled()))
      && (!k.Ingress? && !k.Images? && !k.WorkflowRepo? ==>
            (k in changes <==> k in rendered) && (k in changes ==> changes[k] == rendered[k]))
  {}

  /** A key whose change is its own current value, or that has no change, keeps its value. */
  lemma {:induction false} KeptAt(current: Entries, merged: Entries, changes: Entries, k: Key)
    requires k in current && k in changes ==> k in merged && Merge(current[k], changes[k]) == Some(merged[k])
    ensures k in current && k in changes && changes[k] == current[k] ==> merged[k] == current[k]
  {
    if k in current { SelfMerge(current[k]); }
  }

  // ----- deploying the same commit again -----

  lemma {:induction false} SpreadMerges(section: Entries, ref: string)
    ensures Merge(Mapping(section), Mapping(section[Ref := Leaf(ref)])) == Some(Mapping(section[Ref := Leaf(ref)]))
  {
    var change := section[Ref := Leaf(ref)];
    forall k | k in change ensures Merge(Get(section, k, EMPTY), change[k]) == Some(change[k]) {
      if k in section { SelfMerge(section[k]); }
    }
    assert Merge(Mapping(section), Mapping(change)).value.entries == change;
  }

  /** The checkout and ingress taken from the new values are the ones taken from the old. */
  lemma {:induction false} ChangesAgain(current: Entries, rendered: Entries, images: Value, ref: string, ui: Option<Entries>)
    requires Rendered(rendered) && Compose(current, rendered, images, ref, ui).Composed?
    ensures var values := Compose(current, rendered, images, ref, ui).values;
      Changes(values, rendered, images, ref) == Changes(current, rendered, images, ref)
  {
    var changes := Changes(current, rendered, images, ref).value;
    var merged := Merge(Mapping(current), Mapping(changes)).value.entries;
    MergedAt(current, changes, WorkflowRepo);
    AssembledAt(current, merged, changes, ui, WorkflowRepo);
    MergedAt(current, changes, Ingress);
    AssembledAt(current, merged, changes, ui, Ingress);
    RepoAgain(current, ref, merged[WorkflowRepo]);
    IngressAgain(current, merged[Ingress]);
  }

  lemma {:induction false} RepoAgain(current: Entries, ref: string, merged: Value)
    requires var repo := Spread(current, WorkflowRepo, map[Ref := Leaf(ref)]);
      repo.Some? && Merge(Get(current, WorkflowRepo, EMPTY), repo.value) == Some(merged)
    ensures Spread(map[WorkflowRepo := merged], WorkflowRepo, map[Ref := Leaf(ref)])
         == Spread(current, WorkflowRepo, map[Ref := Leaf(ref)])
  {
    var section := Get(current, WorkflowRepo, EMPTY).entries;
    SpreadMerges(section, ref);
    assert section[Ref := Leaf(ref)] == section + map[Ref := Leaf(ref)];
    assert section[Ref := Leaf(ref)] + map[Ref := Leaf(ref)] == section[Ref := Leaf(ref)];
  }

  lemma {:induction false} IngressAgain(current: Entries, merged: Value)
    requires Merge(Get(current, Ingress, EMPTY), Get(current, Ingress, Disabled())) == Some(merged)
    ensures merged == Get(current, Ingress, Disabled())
  {
    LeftIdentity(Disabled());
    if Ingress in current { SelfMerge(current[Ingress]); }
  }

  /** Merging the same changes onto the composed values gives back every entry that is not overwritten afterwards. */
  lemma {:induction false} MergesAgain(current: Entries, merged: Entries, changes: Entries, ui: Option<Entries>)
    requires Merge(Mapping(current), Mapping(changes)) == Some(Mapping(merged))
    requires (forall k :: IsReplaced(k) ==> k in changes) && ControlPlaneUi !in changes
    requires Assemble(current, merged, changes, ui).Composed?
    ensures var values := Assemble(current, merged, changes, ui).values;
      var again := Merge(Mapping(values), Mapping(changes));
      && again.Some? && again.value.entries.Keys == values.Keys
      && forall k :: k in values && !IsReplaced(k) && k != Deployer ==> again.value.entries[k] == values[k]
  {
    var values := Assemble(current, merged, changes, ui).values;
    forall k | k in changes
      ensures k in values && Merge(values[k], changes[k]).Some?
      ensures !IsReplaced(k) && k != Deployer ==> Merge(values[k], changes[k]) == Some(values[k])
    {
      MergedAt(current, changes, k);
      AssembledAt(current, merged, changes, ui, k);
      MergeTwice(Get(current, k, EMPTY), changes[k]);
      SelfMerge(changes[k]);
    }
  }

  /** Overwriting values that already hold what would be written. */
  lemma {:induction false} AssemblesAgain(values: Entries, again: Entries, changes: Entries, ui: Option<Entries>)
    requires forall k :: IsReplaced(k) ==> k in changes && k in values && values[k] == changes[k]
    requires again.Keys == values.Keys && forall k :: k in values && !IsReplaced(k) && k != Deployer ==> again[k] == values[k]
    requires Infrastructure in values
    requires ui.Some? ==> ControlPlaneUi in values && Spread(values, ControlPlaneUi, ui.value) == Some(values[ControlPlaneUi])
    ensures Assemble(values, again, changes, ui) == Composed(values)
  {
    var deployed := if Deployer in values then Replaced(again, changes)[Deployer := values[Deployer]] else Replaced(again, changes);
    assert deployed == values;
    assert ui.Some? ==> values[ControlPlaneUi := values[ControlPlaneUi]] == values;
  }

  lemma {:induction false} AssembledShape(current: Entries, merged: Entries, changes: Entries, ui: Option<Entries>)
    requires (forall k :: IsReplaced(k) ==> k in changes) && Assemble(current, merged, changes, ui).Composed?
    ensures var values := Assemble(current, merged, changes, ui).values;
      && (forall k :: IsReplaced(k) ==> k in values && values[k] == changes[k])
      && Infrastructure in values
      && (ui.Some? ==> ControlPlaneUi in values && Spread(values, ControlPlaneUi, ui.value) == Some(values[ControlPlaneUi]))
  {
    forall k | IsReplaced(k)
      ensures var values := Assemble(current, merged, changes, ui).values; k in values && values[k] == changes[k]
    {
      AssembledAt(current, merged, changes, ui, k);
    }
    AssembledAt(current, merged, changes, ui, ControlPlaneUi);
    if ui.Some? {
      var panel := Get(current, ControlPlaneUi, EMPTY).entries;
      assert (panel + ui.value) + ui.value == panel + ui.value;
    }
  }

  /** Composing again from the composed values changes nothing: a second run of the same deployment has nothing to do. */
  lemma {:induction false} ComposeTwice(current: Entries, rendered: Entries, images: Value, ref: string, ui: Option<Entries>)
    requires Rendered(rendered) && Compose(current, rendered, images, ref, ui).Composed?
    ensures var values := Compose(current, rendered, images, ref, ui).values;
      Compose(values, rendered, images, ref, ui) == Composed(values)
  {
    ChangesAgain(current, rendered, images, ref, ui);
    var changes := Changes(current, rendered, images, ref).value;
    var merged := Merge(Mapping(current), Mapping(changes)).value.entries;
    MergesAgain(current, merged, changes, ui);
    var values := Assemble(current, merged, changes, ui).values;
    AssembledShape(current, merged, changes, ui);
    AssemblesAgain(values, Merge(Mapping(values), Mapping(changes)).value.entries, changes, ui);
  }
}
