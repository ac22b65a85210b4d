/** The deployment transaction and its compensation (sage_run/incluster.py, sage_run/deployment.py). */
module Deploy {
  import opened Options
  import opened Values
  import Plan

  type Docs = Plan.Docs

  /** A live object: its declared part, whether it carries this instance's extra label, and what the server adds. */
  datatype Live = Live(doc: Plan.Doc, owned: bool, status: string)

  type Objects = map<string, Live>

  /** One external command: it works, fails without effect, or fails after its effect. */
  datatype Effect = Works | Fails | FailsLate

  /**
   * What a deployment is asked for and what the preflight finds out. The ref has been validated, so it is
   * "working-tree" for a local deployment; charted are the live objects that belong to the chart. Absent texts are empty.
   */
  datatype Request = Request(
    refAllowed: bool, managed: bool, remote: bool, ref: string, expected: string,
    clean: bool, recorded: string, commit: string, wanted: Option<Docs>, valid: bool, handsOver: bool,
    secret: map<string, string>, rendered: Entries, images: Value, ui: Entries, charted: set<string>,
    currentRef: string, backupsEnabled: bool, backupWorks: bool)

  /** Unannounced: everything is delivered, but the annotation that says so failed. */
  datatype Outcome = Refused | Complete | Unannounced | RolledBack | RecoveryFailed

  /** Secret entries a workflow deployment never changes. */
  const PINNED: seq<string> := ["PG_PASSWORD", "OBJECT_STORE_SECRET_KEY"]

  predicate Rotates(before: map<string, string>, after: map<string, string>) {
    exists name :: name in PINNED && (name !in before || name !in after || before[name] != after[name])
  }

  /** A desired key that is taken by an object without this instance's label. */
  predicate Foreign(objects: Objects, charted: set<string>, desired: Docs) {
    exists k :: k in desired && ((k in objects && !objects[k].owned) || k in charted)
  }

  function Owned(objects: Objects): Docs { map k | k in objects && objects[k].owned :: objects[k].doc }

  /** The objects a deployment may touch agree with the first map on everything it may not touch. */
  predicate OnlyTouched(before: Objects, now: Objects, touched: set<string>) {
    && (forall k :: k in before && k !in touched ==> k in now && now[k] == before[k])
    && (forall k :: k in now && k !in touched ==> k in before)
  }

  predicate Holds(objects: Objects, docs: Docs) {
    forall k :: k in docs ==> k in objects && objects[k].owned && objects[k].doc == docs[k]
  }

  /** The same objects with the same declared parts, and the foreign ones untouched. */
  predicate SameObjects(before: Objects, now: Objects) {
    && before.Keys == now.Keys
    && (forall k :: k in before ==> now[k].owned == before[k].owned && now[k].doc == before[k].doc)
    && (forall k :: k in before && !before[k].owned ==> now[k] == before[k])
  }

  /** Exactly the wanted extras are owned, and the foreign objects are untouched. */
  predicate Delivered(before: Objects, now: Objects, wanted: Docs) {
    && Owned(now) == wanted
    && (forall k :: k in before && !before[k].owned ==> k in now && now[k] == before[k])
    && (forall k :: k in now && !now[k].owned ==> k in before && before[k] == now[k])
  }

  /**
   * Undoing from any point: once the old extras are re-applied and the new ones deleted, the objects are
   * what they were, whatever happened in between, exactly when no wanted extra had taken a foreign object.
   */
  lemma {:induction false} RestoredFromAnywhere(before: Objects, now: Objects, wanted: Docs)
    requires OnlyTouched(before, now, Owned(before).Keys + wanted.Keys)
    requires Holds(now, Owned(before)) && forall k :: k in wanted && k !in Owned(before) ==> k !in now
    ensures SameObjects(before, now) <==> forall k :: k in wanted && k in before ==> before[k].owned
  {
    if forall k :: k in wanted && k in before ==> before[k].owned {
      forall k ensures k in before <==> k in now {
        if k in before { assert before[k].owned ==> k in Owned(before); }
      }
    }
  }

  lemma {:induction false} TouchedTwice(a: Objects, b: Objects, c: Objects, touched: set<string>)
    requires OnlyTouched(a, b, touched) && OnlyTouched(b, c, touched)
    ensures OnlyTouched(a, c, touched)
  {}

  lemma {:induction false} Undone(before: Objects, changed: Objects, now: Objects, charted: set<string>, wanted: Docs)
    requires !Foreign(before, charted, wanted)
    requires OnlyTouched(before, changed, Owned(before).Keys + wanted.Keys)
    requires OnlyTouched(changed, now, Owned(before).Keys + wanted.Keys)
    requires Holds(now, Owned(before)) && forall k :: k in wanted && k !in Owned(before) ==> k !in now
    ensures SameObjects(before, now)
  {
    TouchedTwice(before, changed, now, Owned(before).Keys + wanted.Keys);
    RestoredFromAnywhere(before, now, wanted);
  }

  /** Likewise going forward: only the wanted extras are owned, and no foreign object has changed. */
  lemma {:induction false} DeliveredFromThere(before: Objects, now: Objects, wanted: Docs)
    requires OnlyTouched(before, now, Owned(before).Keys + wanted.Keys)
    requires Holds(now, wanted) && forall k :: k in Owned(before) && k !in wanted ==> k !in now
    ensures Delivered(before, now, wanted) <==> forall k :: k in wanted && k in before ==> before[k].owned
  {
    if forall k :: k in wanted && k in before ==> before[k].owned {
      forall k ensures k in Owned(now) <==> k in wanted {
        assert k in before ==> (k in Owned(before) <==> before[k].owned);
      }
      assert Owned(now) == wanted;
    }
  }

  /** Every command from one point to another works. */
  ghost predicate Calm(effects: nat -> Effect, from: nat, to: nat) {
    forall n :: from <= n < to ==> effects(n) == Works
  }

  ghost predicate FailedTwice(effects: nat -> Effect, from: nat, to: nat) {
    exists m: nat, n: nat :: from <= m < n < to && effects(m) != Works && effects(n) != Works
  }

  /** The number of the command that applies the secret, in an apply phase that begins at a command. */
  function SecretStep(start: nat, r: Request): nat { start + if r.remote then 2 else 1 }

  /** The apply phase reaches its Secret command, which has an effect. */
  ghost predicate SecretTaken(effects: nat -> Effect, start: nat, r: Request, before: map<string, string>) {
    r.secret != before && Calm(effects, start, SecretStep(start, r)) && effects(SecretStep(start, r)) != Fails
  }

  /** The secret after a recovery. */
  function RestoredSecret(before: map<string, string>, applied: map<string, string>, taken: bool): map<string, string> {
    if taken then before + applied + before else before
  }

  /** The checkout is the one the release recorded, unchanged, and the target is the expected commit. */
  predicate DriftFree(r: Request, head: string) {
    && (r.remote ==> r.clean && (r.recorded == "" || r.recorded == head))
    && (r.expected == "" || r.expected == if r.remote then r.commit else head)
  }

  /** A remote deployment has backups, and an enabled backup was taken. */
  predicate BackedUp(r: Request) { if r.backupsEnabled then r.backupWorks else !r.remote }

  ghost predicate ExtrasAllowed(r: Request, objects: Objects) {
    r.wanted.Some? && !Foreign(objects, r.charted, r.wanted.value) && !Plan.DropsStorage(Owned(objects), r.wanted.value)
  }

  /** The release says where its checkout is; reading it raises otherwise. */
  predicate NamesCheckout(values: Entries) { WorkflowRepo in values && values[WorkflowRepo].Mapping? }

  /** A local deployment records no ref and sets up no UI. */
  function RecordedRef(r: Request): string { if r.remote then r.ref else "" }

  function Ui(r: Request): Option<Entries> { if r.remote then Some(r.ui) else None }

  function Composition(r: Request, values: Entries): Composed
    requires Rendered(r.rendered)
  {
    Compose(values, r.rendered, r.images, RecordedRef(r), Ui(r))
  }

  /** What the preflight asks of a request in the state it finds. */
  ghost predicate Admissible(
    r: Request, head: string, secret: map<string, string>, values: Entries, objects: Objects)
    requires Rendered(r.rendered)
  {
    && DriftFree(r, head) && NamesCheckout(values) && ExtrasAllowed(r, objects) && r.valid && !Rotates(secret, r.secret)
    && Composition(r, values).Composed? && BackedUp(r)
  }

  /** What a deployment changes. */
  datatype State = State(
    head: string, secret: map<string, string>, values: Entries, manifest: Docs, objects: Objects, active: string)

  /** Everything is back; taken says whether the secret had been written in between. */
  ghost predicate BackTo(chart: Entries -> Docs, r: Request, before: State, now: State, taken: bool) {
    && now.head == before.head && now.secret == RestoredSecret(before.secret, r.secret, taken)
    && now.values == before.values && now.manifest == chart(before.values)
    && SameObjects(before.objects, now.objects) && now.active == CurrentRef(r)
  }

  /** Everything is as the request wants it. */
  ghost predicate Deployed(chart: Entries -> Docs, r: Request, desired: Entries, before: State, now: State) {
    && now.head == (if r.remote then r.commit else before.head) && now.secret == before.secret + r.secret
    && now.values == desired && now.manifest == chart(desired)
    && r.wanted.Some? && Delivered(before.objects, now.objects, r.wanted.value) && now.active == r.ref
  }

  /** The preflight passes: its reads work and the request is admissible. */
  ghost predicate Passes(r: Request, effects: nat -> Effect, start: nat, s: State)
    requires Rendered(r.rendered)
  {
    effects(start) == Works && Admissible(r, s.head, s.secret, s.values, s.objects)
  }

  function Desired(r: Request, values: Entries): Entries
    requires Rendered(r.rendered) && Composition(r, values).Composed?
  {
    Composition(r, values).values
  }

  /** The composed values are delivered. */
  ghost predicate Installed(chart: Entries -> Docs, r: Request, before: State, now: State)
    requires Rendered(r.rendered)
  {
    && Composition(r, before.values).Composed?
    && Deployed(chart, r, Desired(r, before.values), before, now)
  }

  /** Which commands failed when a deployment, begun at command start and ended before command end, had an outcome. */
  ghost predicate Explained(effects: nat -> Effect, start: nat, end: nat, outcome: Outcome) {
    && (outcome != Refused ==> (outcome == Complete <==> Calm(effects, start, end)))
    && (outcome == Unannounced ==> end > start && Calm(effects, start, end - 1) && effects(end - 1) != Works)
    && (outcome == RecoveryFailed ==> FailedTwice(effects, start, end))
  }

  /** What a deployment may have done, by its outcome. */
  ghost predicate Outcomes(
    chart: Entries -> Docs, effects: nat -> Effect, r: Request, start: nat, end: nat, before: State, now: State, outcome: Outcome)
    requires Rendered(r.rendered)
  {
    && Explained(effects, start, end, outcome)
    && (outcome == Refused ==> now == before)
    && (outcome == RolledBack ==> BackTo(chart, r, before, now, SecretTaken(effects, start + 1, r, before.secret)))
    && (outcome == Complete || outcome == Unannounced ==> Installed(chart, r, before, now))
    && ((outcome == Complete || outcome == Unannounced) && r.secret != before.secret ==> end > SecretStep(start + 1, r) + 2)
  }

  /** The same for the transaction alone, which wants these values. */
  ghost predicate Transacted(
    chart: Entries -> Docs, effects: nat -> Effect, r: Request, desired: Entries, start: nat, end: nat,
    before: State, now: State, outcome: Outcome)
  {
    && (outcome == Complete || outcome == RolledBack || outcome == RecoveryFailed)
    && Explained(effects, start, end, outcome)
    && (outcome == RolledBack ==> BackTo(chart, r, before, now, SecretTaken(effects, start, r, before.secret)))
    && (outcome == Complete ==> Deployed(chart, r, desired, before, now))
    && (outcome == Complete && r.secret != before.secret ==> end > SecretStep(start, r) + 1)
  }

  lemma {:induction false} CalmWithin(effects: nat -> Effect, start: nat, end: nat)
    ensures Calm(effects, start, end) ==> Calm(effects, start + 1, end)
    ensures FailedTwice(effects, start + 1, end) ==> FailedTwice(effects, start, end)
  {
    if FailedTwice(effects, start + 1, end) {
      var m: nat, n: nat :| start + 1 <= m < n < end && effects(m) != Works && effects(n) != Works;
      assert start <= m;
    }
  }

  /** A working command before, and the last annotation after a completed transaction. */
  lemma {:induction false} ExplainedWithEnds(effects: nat -> Effect, start: nat, end: nat, outcome: Outcome)
    requires effects(start) == Works && start < end && Explained(effects, start + 1, end, outcome)
    requires outcome == Complete || outcome == RolledBack || outcome == RecoveryFailed
    ensures outcome != Complete ==> Explained(effects, start, end, outcome)
    ensures outcome == Complete ==>
      Explained(effects, start, end + 1, if effects(end) == Works then Complete else Unannounced)
  {
    CalmWithin(effects, start, end);
    if outcome == Complete {
      assert Calm(effects, start + 1, end);
      assert Calm(effects, start, end);
      assert Calm(effects, start, end + 1) <==> effects(end) == Works;
    }
  }

  class Cluster {
    /** What the chart renders from values. */
    const chart: Entries -> Docs
    /** How the external commands will turn out, in the order they are run. */
    const effects: nat -> Effect
    var clock: nat
    var head: string
    var secret: map<string, string>
    var values: Entries
    var manifest: Docs
    var objects: Objects
    var active: string
    var locked: bool

    constructor (chart: Entries -> Docs, effects: nat -> Effect, head: string, secret: map<string, string>,
                 values: Entries, manifest: Docs, objects: Objects, active: string)
      ensures this.chart == chart && this.effects == effects && clock == 0
      ensures this.head == head && this.secret == secret && this.values == values
      ensures this.manifest == manifest && this.objects == objects && this.active == active && !locked
    {
      this.chart, this.effects, this.clock := chart, effects, 0;
      this.head, this.secret, this.values := head, secret, values;
      this.manifest, this.objects, this.active, this.locked := manifest, objects, active, false;
    }

    ghost function Now(): State
      reads this
    {
      State(head, secret, values, manifest, objects, active)
    }

    // ----- single commands -----

    method NextEffect() returns (effect: Effect)
      modifies this`clock
      ensures clock == old(clock) + 1 && effect == effects(old(clock))
    {
      effect := effects(clock);
      clock := clock + 1;
    }

    /** A command that changes nothing modelled: an annotation on the deployment job, or reading live state. */
    method Command() returns (ok: bool)
      modifies this`clock
      ensures clock == old(clock) + 1 && (ok <==> effects(old(clock)) == Works)
    {
      var effect := NextEffect();
      ok := effect == Works;
    }

    method Checkout(commit: string) returns (ok: bool)
      modifies this`clock, this`head
      ensures clock == old(clock) + 1 && (ok <==> effects(old(clock)) == Works)
      ensures head == if effects(old(clock)) != Fails then commit else old(head)
    {
      var effect := NextEffect();
      if effect != Fails { head := commit; }
      ok := effect == Works;
    }

    /** An apply sets the entries it names and leaves the others. */
    method ApplySecret(data: map<string, string>) returns (ok: bool)
      modifies this`clock, this`secret
      ensures clock == old(clock) + 1 && (ok <==> effects(old(clock)) == Works)
      ensures secret == if effects(old(clock)) != Fails then old(secret) + data else old(secret)
    {
      var effect := NextEffect();
      if effect != Fails { secret := secret + data; }
      ok := effect == Works;
    }

    method Activate(ref: string) returns (ok: bool)
      modifies this`clock, this`active
      ensures clock == old(clock) + 1 && (ok <==> effects(old(clock)) == Works)
      ensures active == if effects(old(clock)) != Fails then ref else old(active)
    {
      var effect := NextEffect();
      if effect != Fails { active := ref; }
      ok := effect == Works;
    }

    /** Applies one extra; the server decides the rest of the object. */
    method Apply(key: string, doc: Plan.Doc) returns (ok: bool)
      modifies this`clock, this`objects
      ensures clock == old(clock) + 1 && (ok <==> effects(old(clock)) == Works)
      ensures effects(old(clock)) == Fails ==> objects == old(objects)
      ensures OnlyTouched(old(objects), objects, {key})
      ensures ok ==> key in objects && objects[key].owned && objects[key].doc == doc
    {
      var effect := NextEffect();
      var status: string := *;
      if effect != Fails { objects := objects[key := Live(doc, true, status)]; }
      ok := effect == Works;
    }

    /** Deletes one extra. A missing one is an error unless that is ignored. */
    method Delete(key: string, ignoreNotFound: bool) returns (ok: bool)
      modifies this`clock, this`objects
      ensures clock == old(clock) + 1
      ensures ok <==> effects(old(clock)) == Works && (ignoreNotFound || key in old(objects))
      ensures objects == if effects(old(clock)) != Fails then old(objects) - {key} else old(objects)
    {
      var effect := NextEffect();
      ok := effect == Works && (ignoreNotFound || key in objects);
      if effect != Fails { objects := objects - {key}; }
    }

    // ----- the steps of a deployment -----

    method ApplyAll(docs: Docs) returns (ok: bool)
      modifies this`clock, this`objects
      ensures clock >= old(clock) && (ok <==> Calm(effects, old(clock), clock))
      ensures OnlyTouched(old(objects), objects, docs.Keys)
      ensures ok ==> Holds(objects, docs)
    {
      var todo := docs.Keys;
      while todo != {}
        invariant todo <= docs.Keys
        invariant clock >= old(clock) && Calm(effects, old(clock), clock)
        invariant OnlyTouched(old(objects), objects, docs.Keys)
        invariant forall k :: k in docs && k !in todo ==> k in objects && objects[k].owned && objects[k].doc == docs[k]
        decreases todo
      {
        var key :| key in todo;
        var applied := Apply(key, docs[key]);
        if !applied { return false; }
        todo := todo - {key};
      }
      ok := true;
    }

    method DeleteAll(keys: set<string>, ignoreNotFound: bool) returns (ok: bool)
      requires ignoreNotFound || keys <= objects.Keys
      modifies this`clock, this`objects
      ensures clock >= old(clock) && (ok <==> Calm(effects, old(clock), clock))
      ensures OnlyTouched(old(objects), objects, keys)
      ensures ok ==> forall k :: k in keys ==> k !in objects
    {
      var todo := keys;
      while todo != {}
        invariant todo <= keys && (ignoreNotFound || todo <= objects.Keys)
        invariant clock >= old(clock) && Calm(effects, old(clock), clock)
        invariant OnlyTouched(old(objects), objects, keys)
        invariant forall k :: k in keys && k !in todo ==> k !in objects
        decreases todo
      {
        var key :| key in todo;
        var deleted := Delete(key, ignoreNotFound);
        if !deleted { return false; }
        todo := todo - {key};
      }
      ok := true;
    }

    /** The chart plan between the release and the desired manifest is empty. */
    method NothingPlanned(desired: Docs) returns (quiet: bool)
      ensures quiet <==> manifest == desired
    {
      var plan := Plan.DeploymentPlan(manifest, desired, None, None);
      Plan.ChartPlanEmptyIff(plan.value, manifest, desired);
      quiet := plan.value == Plan.Lists([], [], [], []);
    }

    /** _helm_values: Helm runs unless neither the rendered chart nor the previous values would change. */
    method HelmValues(wanted: Entries, previous: Option<Entries>) returns (ok: bool, upgraded: bool)
      requires previous.Some? ==> previous.value == values
      modifies this`clock, this`values, this`manifest
      ensures clock > old(clock) && (ok <==> Calm(effects, old(clock), clock))
      ensures ok ==> values == wanted && manifest == chart(wanted)
      ensures ok ==> (upgraded <==> previous != Some(wanted) || old(manifest) != chart(wanted))
      ensures (values == old(values) && manifest == old(manifest)) || (upgraded && values == wanted && manifest == chart(wanted))
    {
      ok := Command();
      if !ok { return false, false; }
      var quiet := NothingPlanned(chart(wanted));
      if quiet && previous == Some(wanted) { return true, false; }
      var effect := NextEffect();
      if effect != Fails { values, manifest := wanted, chart(wanted); }
      ok, upgraded := effect == Works, true;
    }

    /** owned_extras: this instance's extras, or nothing when a desired key is taken by a foreign object. */
    method OwnedExtras(desired: Docs, charted: set<string>) returns (owned: Option<Docs>)
      ensures owned == if Foreign(objects, charted, desired) then None else Some(Owned(objects))
    {
      if exists k :: k in desired && k in charted { return None; }
      var found: Docs, todo := map[], objects.Keys;
      while todo != {}
        invariant todo <= objects.Keys
        invariant forall k :: k in objects && k !in todo && !objects[k].owned ==> k !in desired
        invariant forall k :: k in found <==> k in objects && k !in todo && objects[k].owned
        invariant forall k :: k in found ==> found[k] == objects[k].doc
        decreases todo
      {
        var key :| key in todo;
        if objects[key].owned {
          found := found[key := objects[key].doc];
        } else if key in desired {
          return None;
        }
        todo := todo - {key};
      }
      owned := Some(found);
      assert found == Owned(objects);
    }

    method ApplyPhase(r: Request, oldExtras: Docs, wanted: Docs, desired: Entries) returns (ok: bool)
      requires oldExtras.Keys <= objects.Keys
      modifies this`clock, this`head, this`secret, this`values, this`manifest, this`objects, this`active
      ensures clock >= old(clock) && (ok <==> Calm(effects, old(clock), clock))
      ensures OnlyTouched(old(objects), objects, oldExtras.Keys + wanted.Keys)
      ensures secret == if SecretTaken(effects, old(clock), r, old(secret)) then old(secret) + r.secret else old(secret)
      ensures ok ==> clock > SecretStep(old(clock), r) + (if r.secret != old(secret) then 1 else 0)
      ensures !r.remote ==> head == old(head)
      ensures ok ==> head == (if r.remote then r.commit else old(head)) && active == r.ref
      ensures ok ==> secret == old(secret) + r.secret && values == desired && manifest == chart(desired)
      ensures ok ==> Holds(objects, wanted) && forall k :: k in oldExtras && k !in wanted ==> k !in objects
    {
      ok := ApplyConfig(r, desired);
      if !ok { return; }
      ok := ApplyExtras(oldExtras, wanted);
      if !ok { return; }
      ok := Command();
      if !ok { return; }
      ok := Activate(r.ref);
    }

    /** Checkout, secret and release. */
    method ApplyConfig(r: Request, desired: Entries) returns (ok: bool)
      modifies this`clock, this`head, this`secret, this`values, this`manifest
      ensures clock >= old(clock) && (ok <==> Calm(effects, old(clock), clock))
      ensures secret == if SecretTaken(effects, old(clock), r, old(secret)) then old(secret) + r.secret else old(secret)
      ensures ok ==> clock > SecretStep(old(clock), r) + (if r.secret != old(secret) then 1 else 0)
      ensures !r.remote ==> head == old(head)
      ensures ok ==> head == (if r.remote then r.commit else old(head))
      ensures ok ==> secret == old(secret) + r.secret && values == desired && manifest == chart(desired)
    {
      ok := Command();
      if !ok { return; }
      if r.remote {
        ok := Checkout(r.commit);
        if !ok { return; }
      }
      if r.secret != secret {
        assert clock == SecretStep(old(clock), r);
        ok := ApplySecret(r.secret);
        if !ok { return; }
      } else {
        assert secret + r.secret == secret;
      }
      var upgraded: bool;
      ok, upgraded := HelmValues(desired, Some(values));
    }

    method ApplyExtras(oldExtras: Docs, wanted: Docs) returns (ok: bool)
      requires oldExtras.Keys <= objects.Keys
      modifies this`clock, this`objects
      ensures clock >= old(clock) && (ok <==> Calm(effects, old(clock), clock))
      ensures OnlyTouched(old(objects), objects, oldExtras.Keys + wanted.Keys)
      ensures ok ==> Holds(objects, wanted) && forall k :: k in oldExtras && k !in wanted ==> k !in objects
    {
      ok := ApplyAll(wanted);
      if !ok { return; }
      ok := DeleteAll(oldExtras.Keys - wanted.Keys, false);
    }

    method RestoreExtras(oldExtras: Docs, wanted: Docs) returns (ok: bool)
      modifies this`clock, this`objects
      ensures clock >= old(clock) && (ok <==> Calm(effects, old(clock), clock))
      ensures OnlyTouched(old(objects), objects, oldExtras.Keys + wanted.Keys)
      ensures ok ==> Holds(objects, oldExtras) && forall k :: k in wanted && k !in oldExtras ==> k !in objects
    {
      ok := DeleteAll(wanted.Keys - oldExtras.Keys, true);
      if !ok { return; }
      ok := ApplyAll(oldExtras);
    }

    method Recover(
      r: Request, original: string, oldSecret: map<string, string>, current: Entries, oldExtras: Docs, wanted: Docs)
      returns (ok: bool)
      modifies this`clock, this`head, this`secret, this`values, this`manifest, this`objects, this`active
      ensures clock >= old(clock) && (ok <==> Calm(effects, old(clock), clock))
      ensures OnlyTouched(old(objects), objects, oldExtras.Keys + wanted.Keys)
      ensures ok ==> head == (if r.remote then original else old(head)) && active == CurrentRef(r)
      ensures ok ==> secret == old(secret) + oldSecret && values == current && manifest == chart(current)
      ensures ok ==> Holds(objects, oldExtras) && forall k :: k in wanted && k !in oldExtras ==> k !in objects
    {
      ok := RestoreConfig(r, original, oldSecret, current);
      if !ok { return; }
      ok := RestoreExtras(oldExtras, wanted);
      if !ok { return; }
      ok := Activate(CurrentRef(r));
      if !ok { return; }
      ok := Command();
    }

    method RestoreConfig(r: Request, original: string, oldSecret: map<string, string>, current: Entries) returns (ok: bool)
      modifies this`clock, this`head, this`secret, this`values, this`manifest
      ensures clock >= old(clock) && (ok <==> Calm(effects, old(clock), clock))
      ensures ok ==> head == (if r.remote then original else old(head))
      ensures ok ==> secret == old(secret) + oldSecret && values == current && manifest == chart(current)
    {
      ok := Command();
      if !ok { return; }
      if r.remote {
        ok := Checkout(original);
        if !ok { return; }
      }
      ok := ApplySecret(oldSecret);
      if !ok { return; }
      var upgraded: bool;
      ok, upgraded := HelmValues(current, None);
    }

    /** The checks before anything is changed, and what the deployment will apply; nothing when it is refused. */
    method Preflight(r: Request) returns (found: Option<(Docs, Entries)>)
      requires Rendered(r.rendered)
      modifies this`clock
      ensures clock == old(clock) + 1
      ensures found.Some? <==>
        Calm(effects, old(clock), clock) && Admissible(r, head, secret, values, objects)
      ensures found.Some? ==>
        found.value == (Owned(objects), Composition(r, values).values)
    {
      var oldExtras := Checked(r);
      if oldExtras.None? { return None; }
      var composed := ComposeCandidateValues(values, r.rendered, r.images, RecordedRef(r), Ui(r));
      if !composed.Composed? { return None; }
      var backed := Backup(r);
      if !backed { return None; }
      found := Some((oldExtras.value, composed.values));
    }

    /** The checks on checkout, extras, config and secret. */
    method Checked(r: Request) returns (oldExtras: Option<Docs>)
      modifies this`clock
      ensures clock == old(clock) + 1
      ensures oldExtras == if Calm(effects, old(clock), clock) && DriftFree(r, head) && NamesCheckout(values)
                              && ExtrasAllowed(r, objects) && r.valid && !Rotates(secret, r.secret)
                           then Some(Owned(objects)) else None
    {
      var readable := Command();
      if !readable { return None; }
      var drift := Drifted(r);
      if drift || !NamesCheckout(values) { return None; }
      oldExtras := AllowedExtras(r);
      if !r.valid || Rotates(secret, r.secret) { return None; }
    }

    method Backup(r: Request) returns (ok: bool)
      ensures ok <==> BackedUp(r)
    {
      if r.backupsEnabled {
        ok := r.backupWorks;
      } else {
        ok := !r.remote;
      }
    }

    method Drifted(r: Request) returns (drift: bool)
      ensures drift <==> !DriftFree(r, head)
    {
      if r.remote && (!r.clean || (r.recorded != "" && r.recorded != head)) { return true; }
      var commit := if r.remote then r.commit else head;
      drift := r.expected != "" && commit != r.expected;
    }

    /** The owned extras, unless the wanted ones take a foreign object or drop an extra's storage. */
    method AllowedExtras(r: Request) returns (oldExtras: Option<Docs>)
      ensures oldExtras == if ExtrasAllowed(r, objects) then Some(Owned(objects)) else None
    {
      if r.wanted.None? { return None; }
      oldExtras := OwnedExtras(r.wanted.value, r.charted);
      if oldExtras.Some? && Plan.DropsStorage(oldExtras.value, r.wanted.value) { oldExtras := None; }
    }

    /** Applies the deployment and, when a step fails, undoes it from wherever it stopped. */
    method Transact(r: Request, oldExtras: Docs, desired: Entries) returns (outcome: Outcome)
      requires r.wanted.Some? && oldExtras == Owned(objects) && !Foreign(objects, r.charted, r.wanted.value)
      modifies this`clock, this`head, this`secret, this`values, this`manifest, this`objects, this`active
      ensures clock >= old(clock)
      ensures Transacted(chart, effects, r, desired, old(clock), clock, old(Now()), Now(), outcome)
    {
      var original, oldSecret, current, wanted := head, secret, values, r.wanted.value;
      ghost var before := objects;
      var applied := ApplyPhase(r, oldExtras, wanted, desired);
      if applied {
        DeliveredFromThere(before, objects, wanted);
        return Complete;
      }
      ghost var changed := objects;
      ghost var failed: nat :| old(clock) <= failed < clock && effects(failed) != Works;
      var recovered := Recover(r, original, oldSecret, current, oldExtras, wanted);
      if !recovered {
        return RecoveryFailed;
      }
      assert oldSecret + oldSecret == oldSecret;
      Undone(before, changed, objects, r.charted, wanted);
      outcome := RolledBack;
    }

    /** deploy_in_cluster under the lock: preflight, transaction, and the last annotation. */
    method DeployLocked(r: Request) returns (outcome: Outcome)
      requires Rendered(r.rendered)
      modifies this`clock, this`head, this`secret, this`values, this`manifest, this`objects, this`active
      ensures clock > old(clock)
      ensures outcome == Refused <==> !Passes(r, effects, old(clock), old(Now()))
      ensures Outcomes(chart, effects, r, old(clock), clock, old(Now()), Now(), outcome)
    {
      var found := Preflight(r);
      if found.None? { return Refused; }
      outcome := Transact(r, found.value.0, found.value.1);
      ExplainedWithEnds(effects, old(clock), clock, outcome);
      if outcome == Complete {
        var announced := Command();
        if !announced { outcome := Unannounced; }
      }
    }

    /** deploy_in_cluster: the new state as a whole, or the old one back. */
    method DeployInCluster(r: Request, handedOver: bool) returns (outcome: Outcome)
      requires Rendered(r.rendered)
      modifies this
      ensures locked == old(locked) && clock >= old(clock)
      ensures outcome == Refused <==>
        !(r.refAllowed && r.managed && !old(locked) && !(r.handsOver && !handedOver) && Passes(r, effects, old(clock), old(Now())))
      ensures Outcomes(chart, effects, r, old(clock), clock, old(Now()), Now(), outcome)
      decreases !handedOver
    {
      if !r.refAllowed || !r.managed || locked { return Refused; }
      locked := true;
      if r.handsOver && !handedOver {
        outcome := DeployInCluster(r, true);
      } else {
        outcome := DeployLocked(r);
      }
      locked := false;
    }
  }

  function CurrentRef(r: Request): string { if r.currentRef != "" then r.currentRef else "working-tree" }

  /**
   * After a recovery every old entry has its old value, and the secret as a whole is what it was exactly when
   * the Secret command took no effect or added no entry; otherwise the added entries are still there.
   */
  lemma {:induction false} SecretRestoredIff(before: map<string, string>, applied: map<string, string>, taken: bool)
    ensures var now := RestoredSecret(before, applied, taken);
      && (forall k :: k in before ==> k in now && now[k] == before[k])
      && (forall k :: k in now && k !in before <==> taken && k in applied && k !in before)
      && (now == before <==> !taken || applied.Keys <= before.Keys)
  {
    var now := RestoredSecret(before, applied, taken);
    if taken && now == before {
      forall k | k in applied ensures k in before { assert k in now; }
    }
    if taken && applied.Keys <= before.Keys { assert now.Keys == before.Keys; }
  }

  /**
   * Runs in which a rolled-back deployment leaves an entry behind: any admissible request that adds one, when
   * the command after the Secret step is the only one to fail.
   */
  method AddedEntryStays(c: Cluster, r: Request, added: string) returns (outcome: Outcome)
    requires Rendered(r.rendered) && r.refAllowed && r.managed && !r.handsOver && !c.locked
    requires Passes(r, c.effects, c.clock, c.Now()) && added in r.secret && added !in c.secret
    requires forall n :: c.effects(n) == if n == SecretStep(c.clock + 1, r) + 1 then Fails else Works
    modifies c
    ensures outcome == RolledBack && added in c.secret && c.secret != old(c.secret)
  {
    outcome := c.DeployInCluster(r, false);
    OneFailureRollsBack(c.chart, c.effects, r, old(c.clock), c.clock, old(c.Now()), c.Now(), outcome);
    SecretRestoredIff(old(c.secret), r.secret, true);
  }

  lemma {:induction false} OneFailureRollsBack(
    chart: Entries -> Docs, effects: nat -> Effect, r: Request, start: nat, end: nat, before: State, now: State, outcome: Outcome)
    requires Rendered(r.rendered) && Outcomes(chart, effects, r, start, end, before, now, outcome)
    requires outcome != Refused && r.secret != before.secret
    requires forall n :: effects(n) == if n == SecretStep(start + 1, r) + 1 then Fails else Works
    ensures outcome == RolledBack && now.secret == RestoredSecret(before.secret, r.secret, true)
  {
    var step := SecretStep(start + 1, r);
    assert effects(step) == Works && effects(step + 1) == Fails;
    assert outcome == Complete ==> !Calm(effects, start, end);
    assert SecretTaken(effects, start + 1, r, before.secret);
  }

  /** After a completed deployment the same request composes the same values, and its chart plan is empty. */
  lemma {:induction false} RedeployIsQuiet(chart: Entries -> Docs, before: Entries, r: Request, plan: Plan.Lists)
    requires Rendered(r.rendered) && Composition(r, before).Composed?
    requires var values := Composition(r, before).values;
      Plan.IsChartPlan(plan, chart(values), chart(values))
    ensures var values := Composition(r, before).values;
      Composition(r, values) == Composed(values) && plan == Plan.Lists([], [], [], [])
  {
    ComposeTwice(before, r.rendered, r.images, RecordedRef(r), Ui(r));
    var values := Composition(r, before).values;
    Plan.ChartPlanEmptyIff(plan, chart(values), chart(values));
  }
}
