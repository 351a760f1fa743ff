/** The state of one Redkey in the API server and the events that change it. `Legal` says when
    the protocol allows an event; every run of the operator, the user and Robin is a sequence
    of legal events, and the lemmas below hold of every such sequence. */
module Protocol {
  import opened Types
  import opened Identity
  import opened Conditions
  import opened Robin
  import opened Admission

  /** Who wrote a status and from what. */
  datatype Writer =
    | Aggregation(active: Config, observed: nat, now: nat)
    | ScaledToZero(observed: nat, now: nat)

  function Compute(writer: Writer, cluster: Redkey): Status {
    match writer
    case Aggregation(active, observed, now) => AggregatedStatus(cluster, active, observed, now)
    case ScaledToZero(observed, now) => ScaledToZeroStatus(cluster, observed, now)
  }

  /** `configs` is keyed by sequence, which determines the name. Three history variables:
      `specs` lists the spec of every generation; `intact` says that no full cleanup has deleted a
      config since the start or since the operator last saw the store empty while it was; `lock`
      holds the topology of a steady cluster from the edit that scaled it to zero until the edit
      that leaves zero. */
  datatype World = World(
    cluster: Redkey,
    configs: map<nat, Config>,
    rbac: map<RbacKind, RbacObject>,
    deployment: Option<Deployment>,
    specs: seq<Spec>,
    intact: bool,
    lock: Option<Topology>)

  datatype Event =
    // the user, Robin and anybody else with access to the namespace
    | Edited(spec: Spec, steady: bool, listed: nat)
    | Touched
    | RobinWrote(sequence: nat, status: ConfigStatus)
    | Tampered(rbac: map<RbacKind, RbacObject>, deployment: Option<Deployment>)
    // the operator
    | CreatedConfig(generation: nat, sequence: nat)
    | DroppedConfig(sequence: nat)
    | WipedConfig(sequence: nat)
    | WroteStatus(writer: Writer)
    | PutRbac(kind: RbacKind, object_: RbacObject)
    | DroppedRbac(kind: RbacKind)
    | PutDeployment(value: Deployment)
    | DroppedDeployment
    | SawEmpty

  function NextLock(w: World, spec: Spec, steady: bool): Option<Topology> {
    if spec.primaries != 0 then None
    else if steady && w.cluster.spec.primaries != 0 then Some(w.cluster.spec.Topo())
    else w.lock
  }

  function Apply(w: World, e: Event): World {
    var c := w.cluster;
    match e
    case Edited(spec, steady, _) =>
      w.(cluster := c.(spec := spec, generation := c.generation + 1, resourceVersion := c.resourceVersion + 1),
         specs := w.specs + [spec], lock := NextLock(w, spec, steady))
    case Touched => w.(cluster := c.(resourceVersion := c.resourceVersion + 1))
    case RobinWrote(k, st) => if k in w.configs then w.(configs := w.configs[k := w.configs[k].(status := st)]) else w
    case Tampered(rbac, d) => w.(rbac := rbac, deployment := d)
    case CreatedConfig(g, k) =>
      if 1 <= g <= |w.specs|
      then w.(configs := w.configs[k := BuildConfig(w.specs[g - 1], g, k)]) else w
    case DroppedConfig(k) => w.(configs := w.configs - {k})
    case WipedConfig(k) => w.(configs := w.configs - {k}, intact := false)
    case WroteStatus(writer) =>
      w.(cluster := c.(status := Compute(writer, c), resourceVersion := c.resourceVersion + 1))
    case PutRbac(kind, o) => w.(rbac := w.rbac[kind := o])
    case DroppedRbac(kind) => w.(rbac := w.rbac - {kind})
    case PutDeployment(d) => w.(deployment := Some(d))
    case DroppedDeployment => w.(deployment := None)
    case SawEmpty => w.(intact := true)
  }

  // ----- what the protocol allows -----

  predicate RobinGone(w: World) {
    w.rbac == map[] && w.deployment == None
  }

  predicate RobinComplete(w: World) {
    ServiceAccountKind in w.rbac && RoleKind in w.rbac && RoleBindingKind in w.rbac && w.deployment.Some?
  }

  /** Creating `k` appends to the run of live sequence numbers. */
  ghost predicate IsAppend(m: map<nat, Config>, k: nat) {
    (forall j :: j in m ==> j < k) && (m != map[] ==> k >= 1 && k - 1 in m)
  }

  predicate Records(writer: Writer, cluster: Redkey) {
    && writer.Aggregation? && !cluster.spec.ephemeral
    && writer.active.status.configPhase == Applied && writer.active.spec.primaries > 0
  }

  predicate Fits(t: Topology, locked: Topology) {
    t.primaries == 0 || t == locked
  }

  ghost predicate Legal(w: World, e: Event) {
    match e
    case Edited(spec, steady, _) =>
      && Admits(w.cluster, spec) && spec != w.cluster.spec && w.cluster.generation < MAX_INT64
      && (steady ==>
            && !spec.ephemeral && w.cluster.spec.primaries > 0
            && w.cluster.status.LastApplied() == w.cluster.spec.Topo())
    case Touched => true
    case RobinWrote(k, _) => k in w.configs
    case Tampered(rbac, d) => rbac.Keys == w.rbac.Keys && d.Some? == w.deployment.Some?
    case CreatedConfig(g, k) =>
      && 1 <= g <= |w.specs| && 1 <= k && k !in w.configs
      && (w.intact ==> IsAppend(w.configs, k))
      && (w.lock.Some? ==> Fits(w.specs[g - 1].Topo(), w.lock.value))
    case DroppedConfig(k) =>
      && k in w.configs
      && (w.intact ==> (exists j :: j in w.configs && j > k) && (forall j :: j in w.configs ==> j >= k))
    case WipedConfig(k) => k in w.configs && RobinGone(w)
    case WroteStatus(writer) =>
      && w.cluster.status.observedGeneration <= writer.observed <= w.cluster.generation
      && SchemaValid(Compute(writer, w.cluster))
      && (w.lock.Some? && Records(writer, w.cluster) ==> writer.active.spec.Topo() == w.lock.value)
    case DroppedRbac(kind) => kind in w.rbac
    case DroppedDeployment => w.deployment.Some?
    case SawEmpty => w.configs == map[]
    case _ => true
  }

  ghost predicate Initial(w: World) {
    && w.cluster.generation == 1 && w.cluster.status == FRESH_STATUS && ValidSpec(w.cluster.spec)
    && w.configs == map[] && RobinGone(w)
    && w.specs == [w.cluster.spec] && w.intact && w.lock == None
  }

  /** `h` is the history the events in `log` produce from a newly created Redkey. */
  ghost predicate Trace(h: seq<World>, log: seq<Event>)
    ensures Trace(h, log) ==> |h| == |log| + 1
    decreases |log|
  {
    && |h| == |log| + 1
    && if log == [] then Initial(h[0])
       else
         var n := |log| - 1;
         Trace(h[..n + 1], log[..n]) && Legal(h[n], log[n]) && h[n + 1] == Apply(h[n], log[n])
  }

  // ----- what holds in every state -----

  /** A config is exactly the snapshot of the spec at the generation it was created for. */
  ghost predicate IsSnapshot(specs: seq<Spec>, k: nat, c: Config) {
    && 1 <= k == c.spec.sequence
    && 1 <= c.generation <= |specs| && Carries(c.spec, specs[c.generation - 1])
  }

  ghost predicate GapFree(m: map<nat, Config>) {
    forall a, b, c :: a in m && c in m && a < b < c ==> b in m
  }

  ghost predicate SpecsSound(w: World) {
    && 1 <= w.cluster.generation == |w.specs| <= MAX_INT64
    && w.specs[|w.specs| - 1] == w.cluster.spec
  }

  ghost predicate ConfigsSound(w: World) {
    forall k :: k in w.configs ==> IsSnapshot(w.specs, k, w.configs[k])
  }

  /** The status has never been written or its conditions and phase agree; it observes no
      generation that does not exist; an ephemeral cluster records no topology. */
  ghost predicate StatusSound(w: World) {
    var st := w.cluster.status;
    && (st == FRESH_STATUS || Agrees(st))
    && SchemaValid(st)
    && st.observedGeneration <= w.cluster.generation
    && (w.cluster.spec.ephemeral ==> st.lastAppliedPrimaries == 0)
  }

  ghost predicate LockSound(w: World) {
    w.lock.Some? ==>
      && w.cluster.spec.primaries == 0 && !w.cluster.spec.ephemeral
      && w.lock.value.primaries > 0 && w.cluster.status.LastApplied() == w.lock.value
  }

  ghost predicate Sound(w: World) {
    && SpecsSound(w)
    && ConfigsSound(w)
    && StatusSound(w)
    && (w.intact ==> GapFree(w.configs))
    && LockSound(w)
  }

  /** What time preserves: generations, recorded specs and resource versions only grow, a
      resource version names one object, and the observed generation and the recorded topology
      are never taken back. */
  ghost predicate Later(a: World, b: World) {
    && a.cluster.name == b.cluster.name && a.cluster.namespace == b.cluster.namespace
    && a.cluster.spec.ephemeral == b.cluster.spec.ephemeral
    && a.cluster.generation <= b.cluster.generation
    && a.specs <= b.specs
    && a.cluster.resourceVersion <= b.cluster.resourceVersion
    && (a.cluster.resourceVersion == b.cluster.resourceVersion ==> a.cluster == b.cluster)
    && a.cluster.status.observedGeneration <= b.cluster.status.observedGeneration
    && (a.cluster.status.lastAppliedPrimaries != 0 ==> b.cluster.status.lastAppliedPrimaries != 0)
  }

  /** All of a config but its status, which is Robin's to write. */
  predicate SameIdentity(a: Config, b: Config) {
    a.generation == b.generation && a.spec == b.spec
  }

  ghost predicate Subconfigs(m: map<nat, Config>, of: map<nat, Config>) {
    forall k :: k in m ==> k in of && SameIdentity(m[k], of[k])
  }

  lemma ConfigsStaySound(w: World, w': World)
    requires ConfigsSound(w) && w.specs <= w'.specs && Subconfigs(w'.configs, w.configs)
    ensures ConfigsSound(w')
  {
    forall k | k in w'.configs
      ensures IsSnapshot(w'.specs, k, w'.configs[k])
    {
      assert IsSnapshot(w.specs, k, w.configs[k]);
      assert SameIdentity(w'.configs[k], w.configs[k]);
    }
  }

  lemma WritersAgree(writer: Writer, cluster: Redkey)
    requires cluster.status == FRESH_STATUS || Agrees(cluster.status)
    ensures Agrees(Compute(writer, cluster))
    ensures forall rv :: WroteOver(writer, cluster.status,
                                   cluster.(status := Compute(writer, cluster), resourceVersion := rv))
  {
    hide Aggregated, ShowsNothing, AggregatedStatus, ScaledToZeroStatus, Find;
    match writer
    case Aggregation(active, observed, now) =>
      AggregationAgrees(cluster, active, observed, now);
      AggregationMirrors(cluster, active, observed, now);
    case ScaledToZero(observed, now) =>
      ScaledToZeroAgrees(cluster, observed, now);
      ScaledToZeroShows(cluster, observed, now);
  }

  /** What each writer leaves in `c` over the status `before`. */
  ghost predicate WroteOver(writer: Writer, before: Status, c: Redkey) {
    match writer
    case Aggregation(active, observed, now) => Aggregated(before, c, active, observed, now)
    case ScaledToZero(observed, now) => ShowsNothing(before, c.status, observed, now)
  }

  lemma StatusWriteKeepsSound(w: World, writer: Writer)
    requires Sound(w) && Legal(w, WroteStatus(writer))
    ensures Sound(Apply(w, WroteStatus(writer))) && Later(w, Apply(w, WroteStatus(writer)))
  {
    hide Agrees, AggregatedConditions, SetAll, WroteOver;
    WritersAgree(writer, w.cluster);
  }

  lemma CreateKeepsSound(w: World, g: nat, k: nat)
    requires Sound(w) && Legal(w, CreatedConfig(g, k))
    ensures Sound(Apply(w, CreatedConfig(g, k))) && Later(w, Apply(w, CreatedConfig(g, k)))
  {
    hide Agrees;
  }

  lemma DeleteKeepsSound(w: World, e: Event)
    requires e.DroppedConfig? || e.WipedConfig?
    requires Sound(w) && Legal(w, e)
    ensures Sound(Apply(w, e)) && Later(w, Apply(w, e))
  {
    hide Agrees;
  }

  lemma EditKeepsSound(w: World, e: Event)
    requires Sound(w) && e.Edited? && Legal(w, e)
    ensures Sound(Apply(w, e)) && Later(w, Apply(w, e))
  {
    hide Agrees;
    ConfigsStaySound(w, Apply(w, e));
  }

  lemma StepKeepsSound(w: World, e: Event)
    requires Sound(w) && Legal(w, e)
    ensures Sound(Apply(w, e)) && Later(w, Apply(w, e))
  {
    hide Agrees, Compute, IsSnapshot;
    match e
    case Edited(_, _, _) => EditKeepsSound(w, e);
    case WroteStatus(writer) => StatusWriteKeepsSound(w, writer);
    case CreatedConfig(g, k) => CreateKeepsSound(w, g, k);
    case DroppedConfig(_) => DeleteKeepsSound(w, e);
    case WipedConfig(_) => DeleteKeepsSound(w, e);
    case _ => ConfigsStaySound(w, Apply(w, e));
  }

  // ----- what holds of every run -----

  lemma {:induction false} TracePrefix(h: seq<World>, log: seq<Event>, n: nat)
    requires Trace(h, log) && n <= |log|
    ensures Trace(h[..n + 1], log[..n])
    decreases |log|
  {
    hide Legal, Apply, Initial;
    var m := |log| - 1;
    if n == |log| {
      assert h[..n + 1] == h && log[..n] == log;
    } else {
      TracePrefix(h[..m + 1], log[..m], n);
      assert h[..m + 1][..n + 1] == h[..n + 1] && log[..m][..n] == log[..n];
    }
  }

  /** The step taken at position `i` of a run. */
  lemma {:induction false} TraceStep(h: seq<World>, log: seq<Event>, i: nat)
    requires Trace(h, log) && i < |log|
    ensures Legal(h[i], log[i]) && h[i + 1] == Apply(h[i], log[i])
  {
    hide Legal, Apply, Initial;
    TracePrefix(h, log, i + 1);
    var h', log' := h[..i + 2], log[..i + 1];
    assert h'[i] == h[i] && h'[i + 1] == h[i + 1] && log'[i] == log[i];
  }

  lemma {:induction false} EveryStateSound(h: seq<World>, log: seq<Event>, i: nat)
    requires Trace(h, log) && i < |h|
    ensures Sound(h[i])
  {
    hide Legal, Apply, Later, Agrees, IsSnapshot;
    if i == 0 {
      TracePrefix(h, log, 0);
      assert Initial(h[0]);
    } else {
      EveryStateSound(h, log, i - 1);
      TraceStep(h, log, i - 1);
      StepKeepsSound(h[i - 1], log[i - 1]);
    }
  }

  lemma {:induction false} EveryStateLater(h: seq<World>, log: seq<Event>, i: nat, j: nat)
    requires Trace(h, log) && i <= j < |h|
    ensures Later(h[i], h[j])
    decreases j
  {
    hide Legal, Apply, Sound, Trace;
    if i < j {
      EveryStateLater(h, log, i, j - 1);
      EveryStateSound(h, log, j - 1);
      TraceStep(h, log, j - 1);
      StepKeepsSound(h[j - 1], log[j - 1]);
    }
  }

  /** Whatever the user edits, every spec of a run is well-formed and the settings fixed at creation
      are the same in all of them. */
  lemma {:induction false} SettingsNeverChange(h: seq<World>, log: seq<Event>, i: nat, j: nat)
    requires Trace(h, log) && i <= j < |h|
    ensures WellFormed(h[j].cluster.spec) && SameForGood(h[i].cluster.spec, h[j].cluster.spec)
    decreases j
  {
    hide Trace, Compute, ValidSpec, KeepsImmutable;
    if j == 0 {
      FirstGeneration(h, log);
      ValidIsWellFormed(h[0].cluster.spec);
    } else {
      SettingsNeverChange(h, log, if i < j then i else j - 1, j - 1);
      TraceStep(h, log, j - 1);
      if log[j - 1].Edited? {
        LockIsExact(h[j - 1].cluster, log[j - 1].spec);
      }
    }
  }

  /** The observed generation never exceeds the live one and never decreases. */
  lemma {:induction false} ObservedGenerationMonotone(h: seq<World>, log: seq<Event>, i: nat, j: nat)
    requires Trace(h, log) && i <= j < |h|
    ensures h[i].cluster.status.observedGeneration <= h[j].cluster.status.observedGeneration <= h[j].cluster.generation
  {
    hide Trace;
    EveryStateLater(h, log, i, j);
    EveryStateSound(h, log, j);
  }

  /** Only a status write records a topology. */
  lemma RecordedIsWritten(w: World)
    requires Sound(w) && w.cluster.status.lastAppliedPrimaries > 0
    ensures Written(w.cluster.status)
  {
    hide Find, Holds;
  }

  /** A recorded topology is never cleared, and an ephemeral cluster never records one. */
  lemma {:induction false} RecordedTopologyNeverCleared(h: seq<World>, log: seq<Event>, i: nat, j: nat)
    requires Trace(h, log) && i <= j < |h|
    ensures h[i].cluster.status.lastAppliedPrimaries != 0 ==> h[j].cluster.status.lastAppliedPrimaries != 0
    ensures h[i].cluster.spec.ephemeral ==> h[j].cluster.status.lastAppliedPrimaries == 0
  {
    hide Trace;
    EveryStateLater(h, log, i, j);
    EveryStateSound(h, log, j);
  }

  /** Status writes form a chain: whatever changes the status is a write computed from exactly
      the object it replaces, under a new resource version, and it leaves conditions and phase
      in agreement. */
  lemma {:induction false} StatusWritesFormChain(h: seq<World>, log: seq<Event>, i: nat)
    requires Trace(h, log) && i < |log| && h[i + 1].cluster.status != h[i].cluster.status
    ensures log[i].WroteStatus? && WroteOver(log[i].writer, h[i].cluster.status, h[i + 1].cluster)
    ensures h[i + 1].cluster == h[i].cluster.(status := h[i + 1].cluster.status,
                                              resourceVersion := h[i].cluster.resourceVersion + 1)
    ensures Agrees(h[i + 1].cluster.status)
  {
    hide Trace, Agrees, Compute, WroteOver, Apply, Legal, ConfigsSound, SpecsSound;
    TraceStep(h, log, i);
    EveryStateSound(h, log, i);
    OnlyWritesMoveStatus(h[i], log[i]);
    WritersAgree(log[i].writer, h[i].cluster);
  }

  lemma OnlyWritesMoveStatus(w: World, e: Event)
    requires Apply(w, e).cluster.status != w.cluster.status
    ensures e.WroteStatus?
    ensures Apply(w, e).cluster == w.cluster.(status := Compute(e.writer, w.cluster),
                                              resourceVersion := w.cluster.resourceVersion + 1)
  {
    hide Compute;
  }

  /** Every config was copied from a spec the Redkey really had, at the generation it names. */
  lemma {:induction false} ConfigIsPastSpec(h: seq<World>, log: seq<Event>, i: nat, k: nat) returns (m: nat)
    requires Trace(h, log) && i < |h| && k in h[i].configs
    ensures m <= i && h[m].cluster.generation == h[i].configs[k].generation
    ensures h[i].configs[k].spec.sequence == k && Carries(h[i].configs[k].spec, h[m].cluster.spec)
  {
    hide Trace, Agrees;
    EveryStateSound(h, log, i);
    assert IsSnapshot(h[i].specs, k, h[i].configs[k]);
    m := GenerationHappened(h, log, i, h[i].configs[k].generation);
  }

  lemma {:induction false} GenerationHappened(h: seq<World>, log: seq<Event>, i: nat, g: nat) returns (m: nat)
    requires Trace(h, log) && i < |h| && 1 <= g <= |h[i].specs|
    ensures m <= i && h[m].cluster.generation == g && h[i].specs[g - 1] == h[m].cluster.spec
    decreases i
  {
    hide Trace, Agrees, IsSnapshot, Legal, Apply;
    EveryStateSound(h, log, i);
    if g == h[i].cluster.generation {
      m := i;
    } else if i == 0 {
      TracePrefix(h, log, 0);
      EveryStateLater(h, log, 0, 0);
      FirstGeneration(h, log);
      assert false;
    } else {
      EveryStateSound(h, log, i - 1);
      TraceStep(h, log, i - 1);
      SpecsGrow(h[i - 1], log[i - 1]);
      m := GenerationHappened(h, log, i - 1, g);
    }
  }

  lemma SpecsGrow(w: World, e: Event)
    ensures var w' := Apply(w, e); w.specs <= w'.specs && |w'.specs| <= |w.specs| + 1
  {
    hide Compute;
  }

  lemma {:induction false} FirstGeneration(h: seq<World>, log: seq<Event>)
    requires Trace(h, log)
    ensures Initial(h[0])
  {
    hide Legal, Apply, Initial;
    TracePrefix(h, log, 0);
    assert h[..1][0] == h[0];
  }

  /** A lineage is intact from the start, or from when the operator saw the emptied store while it
      was still empty, until a full cleanup deletes a config. */
  lemma {:induction false} LineageStaysIntact(h: seq<World>, log: seq<Event>, i: nat, j: nat)
    requires Trace(h, log) && i <= j < |h| && (i == 0 || log[i - 1].SawEmpty?)
    requires forall m :: i <= m < j ==> !log[m].WipedConfig?
    ensures h[j].intact && GapFree(h[j].configs)
    ensures j < |log| && log[j].CreatedConfig? ==> IsAppend(h[j].configs, log[j].sequence)
    decreases j
  {
    hide Trace, Compute, GapFree, IsAppend, Legal;
    if i == j {
      FirstGeneration(h, log);
      if i > 0 {
        TraceStep(h, log, i - 1);
      }
    } else {
      LineageStaysIntact(h, log, i, j - 1);
      TraceStep(h, log, j - 1);
    }
    LineageHasNoGaps(h, log, j);
  }

  /** In a lineage that no full cleanup has touched, the live sequence numbers have no gap,
      however many cleanups were cut short, and a config is only ever created directly after the
      newest one. */
  lemma {:induction false} LineageHasNoGaps(h: seq<World>, log: seq<Event>, i: nat)
    requires Trace(h, log) && i < |h| && h[i].intact
    ensures GapFree(h[i].configs)
    ensures i < |log| && log[i].CreatedConfig? ==> IsAppend(h[i].configs, log[i].sequence)
  {
    hide Trace;
    EveryStateSound(h, log, i);
    if i < |log| {
      TraceStep(h, log, i);
    }
  }

  /** A config disappears by a full cleanup only when every Robin object is already gone, so no
      interruption leaves Robin objects behind an emptied store; and an intact store is never
      emptied by ordinary cleanup. */
  lemma {:induction false} RobinGoesBeforeItsConfigs(h: seq<World>, log: seq<Event>, i: nat)
    requires Trace(h, log) && i < |log|
    ensures log[i].WipedConfig? ==> RobinGone(h[i]) && RobinGone(h[i + 1])
    ensures h[i].configs != map[] && h[i + 1].configs == map[] && h[i].intact ==> log[i].WipedConfig?
  {
    hide Trace, Compute;
    TraceStep(h, log, i);
    if log[i].DroppedConfig? && h[i].intact {
      var j :| j in h[i].configs && j > log[i].sequence;
      assert j in h[i + 1].configs;
    } else if log[i].RobinWrote? {
      assert log[i].sequence in h[i + 1].configs;
    } else if log[i].CreatedConfig? {
      assert log[i].sequence in h[i + 1].configs;
    }
  }

  /** The lock window: after a steady storage cluster is scaled to zero, the recorded topology
      stays what it was for as long as the spec stays at zero, and the edit that leaves zero
      carries exactly that topology. */
  lemma {:induction false} LockWindow(h: seq<World>, log: seq<Event>, i: nat, j: nat)
    requires Trace(h, log) && i < j < |h|
    requires log[i].Edited? && log[i].steady
    requires forall m :: i < m <= j ==> h[m].cluster.spec.primaries == 0
    ensures h[i].cluster.spec.primaries > 0
    ensures h[j].lock == Some(h[i].cluster.spec.Topo())
    ensures h[j].cluster.status.LastApplied() == h[i].cluster.spec.Topo()
    ensures j < |log| && h[j + 1].cluster.spec.primaries > 0 ==>
              h[j + 1].cluster.spec.Topo() == h[i].cluster.spec.Topo()
    decreases j
  {
    hide Trace, Compute, Agrees, IsSnapshot;
    TraceStep(h, log, i);
    TraceStep(h, log, j - 1);
    if j > i + 1 {
      LockWindow(h, log, i, j - 1);
    }
    assert h[j].lock == Some(h[i].cluster.spec.Topo());
    EveryStateSound(h, log, j);
    if j < |log| {
      TraceStep(h, log, j);
      if log[j].Edited? {
        LockIsExact(h[j].cluster, log[j].spec);
      }
    }
  }
}
