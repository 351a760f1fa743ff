/** Why the run theorems carry the premises they do: runs in which a property fails without its
    premise, and exact conditions. */
module Premises {
  import opened Types
  import opened Identity
  import opened Conditions
  import opened Robin
  import opened Admission
  import opened Protocol
  import opened Views
  import opened Selection
  import opened ApiServers
  import opened Reconcilers

  // ----- lists that lag -----

  /** The store after a create that may find its name taken. */
  function Created(cluster: Redkey, k: nat, m: map<nat, Config>): map<nat, Config> {
    if k in m then m else m[k := BuildConfig(cluster.spec, cluster.generation, k)]
  }

  /** While the newest config is for an older generation, a create whose sequence number comes from
      a list `seen` brings one for the live generation exactly when that list shows nothing newer
      in the store `m` to come after. */
  lemma CreateLandsIffListShowsNewest(cluster: Redkey, seen: map<nat, Config>, m: map<nat, Config>)
    requires !Covers(m, cluster.generation)
    ensures Covers(Created(cluster, Top(seen.Keys) + 1, m), cluster.generation) <==> Top(seen.Keys) >= Top(m.Keys)
  {
    hide SnapshotSpec;
    var k := Top(seen.Keys) + 1;
    if k !in m {
      var m' := Created(cluster, k, m);
      assert m'.Keys == m.Keys + {k};
      TopIs(m'.Keys, if k > Top(m.Keys) then k else Top(m.Keys));
    }
  }

  /** A create numbered from a list is an append exactly when the store is empty or the list shows
      its highest sequence number. */
  lemma CreateAppendsIff(seen: map<nat, Config>, m: map<nat, Config>)
    requires Top(seen.Keys) + 1 !in m
    ensures IsAppend(m, Top(seen.Keys) + 1) <==> m == map[] || Top(seen.Keys) == Top(m.Keys)
  {
    var k := Top(seen.Keys) + 1;
    if m != map[] && IsAppend(m, k) {
      TopIs(m.Keys, k - 1);
    }
  }

  /** The operator has just listed, the list lacks the newest config, and no config is for the
      live generation yet. */
  ghost predicate AboutToLose(s: Sys) {
    && Inv(s) && SeenCluster(s) == Live(s).cluster && s.missed > 0 && Live(s).intact
    && Live(s).cluster.spec.primaries > 0
    && Live(s).cluster.status.observedGeneration < Live(s).cluster.generation
    && !Covers(Live(s).configs, Live(s).cluster.generation)
    && SeenConfigs(s) != map[] && !Covers(SeenConfigs(s), Live(s).cluster.generation)
    && Top(SeenConfigs(s).Keys) < Top(Live(s).configs.Keys)
  }

  /** Then the generation is lost: a config is asked for, its name is taken, which counts as
      success, and the status write marks the generation observed. From then on the decision is
      that no config is needed, although none is for this generation. */
  lemma LaggingListLosesGeneration(s: Sys, k: nat, now: nat) returns (s': Sys)
    requires AboutToLose(s) && Chosen(SeenConfigs(s), k)
    requires SchemaValid(AggregatedStatus(Live(s).cluster, SeenConfigs(s)[k], Live(s).cluster.generation, now))
    ensures NeedsNewConfig(Live(s).cluster, Some(SeenConfigs(s)[Top(SeenConfigs(s).Keys)]))
    ensures Top(SeenConfigs(s).Keys) + 1 in Live(s).configs
    ensures Inv(s') && Live(s').configs == Live(s).configs && Live(s').cluster.generation == Live(s).cluster.generation
    ensures Live(s').cluster.status.observedGeneration == Live(s').cluster.generation
    ensures !Covers(Live(s').configs, Live(s').cluster.generation)
    ensures forall latest :: !NeedsNewConfig(Live(s').cluster, latest)
  {
    hide Trace, RecordsApplied, RestIsSteady, OnlyTopology, LineageSeen, NeedsNewConfig, AggregatedConditions,
      SchemaValid, ConfigsSound, Legal, Apply, NothingLost, ObservedWasSeen, Chosen;
    var c := Live(s).cluster;
    var writer := Aggregation(SeenConfigs(s)[k], c.generation, now);
    ObservedBound(s);
    StatusKeepsInv(s, writer, k);
    StatusOnlyWritten(Live(s), writer);
    s' := Push(s, WroteStatus(writer));
    NextSequence(s.hist, s.configView);
    assert KeysAt(s.hist, |s.hist| - 1) == Live(s).configs.Keys && KeysAt(s.hist, s.configView) == SeenConfigs(s).Keys;
    ListedConfigsAreSound(s);
    NeedsNewConfigMeaning(c, Some(SeenConfigs(s)[Top(SeenConfigs(s).Keys)]));
    ObservedNotNeeded(Live(s').cluster);
  }

  lemma ObservedNotNeeded(cluster: Redkey)
    requires cluster.status.observedGeneration == cluster.generation
    ensures forall latest :: !NeedsNewConfig(cluster, latest)
  {
    hide MetadataOf, AnnotatedGeneration;
  }

  /** Once a generation is observed no later decision asks for a config for it, whatever the list
      shows. */
  lemma {:induction false} ObservedIsNeverAskedFor(h: seq<World>, log: seq<Event>, i: nat, j: nat,
                                                   latest: Option<Config>)
    requires Trace(h, log) && i <= j < |h|
    requires h[i].cluster.status.observedGeneration == h[i].cluster.generation == h[j].cluster.generation
    ensures !NeedsNewConfig(h[j].cluster, latest)
  {
    hide Trace, NeedsNewConfig;
    ObservedGenerationMonotone(h, log, i, j);
    ObservedNotNeeded(h[j].cluster);
  }

  // ----- runs, one step at a time -----

  /** The operator reads the live Redkey. */
  predicate ReadsLive(s: Sys) {
    Shaped(s) && s.clusterView == |s.hist| - 1
  }

  /** `s'` is `s` after `e`, which the operator sees on the Redkey; its list stays the last one. */
  ghost predicate Stepped(s: Sys, s': Sys, e: Event) {
    && Shaped(s) && Inv(s') && ReadsLive(s')
    && s' == s.(hist := s.hist + [Live(s')], log := s.log + [e], clusterView := |s.hist|,
                missed := MissedFrom(s, Live(s').cluster.generation))
  }

  lemma Reread(s: Sys) returns (s': Sys)
    requires Inv(s)
    ensures Inv(s') && ReadsLive(s')
    ensures s' == s.(clusterView := |s.hist| - 1, missed := MissedFrom(s, Live(s).cluster.generation))
  {
    hide Inv;
    ReadCluster(s, |s.hist| - 1);
    s' := s.(clusterView := |s.hist| - 1, missed := MissedFrom(s, Live(s).cluster.generation));
  }

  /** A list that is up to date. */
  lemma Listed(s: Sys) returns (s': Sys)
    requires Inv(s)
    ensures Inv(s') && s' == s.(configView := |s.hist| - 1) && SeenConfigs(s') == Live(s').configs
    ensures ShowsNewest(SeenConfigs(s'), Live(s').configs)
  {
    hide Inv, ShowsNewest;
    ReadConfigs(s, |s.hist| - 1, s.staleLists, s.missed);
    s' := s.(configView := |s.hist| - 1);
    ShowsItself(Live(s').configs);
  }

  /** A list that shows state `v`. */
  lemma ListedLate(s: Sys, v: nat) returns (s': Sys)
    requires Inv(s) && s.configView <= v < |s.hist|
    ensures Inv(s') && s' == s.(configView := v, staleLists := s.staleLists + 1, missed := s.missed + 1)
  {
    hide Inv;
    ReadConfigs(s, v, s.staleLists + 1, s.missed + 1);
    s' := s.(configView := v, staleLists := s.staleLists + 1, missed := s.missed + 1);
  }

  lemma RobinStep(s: Sys, e: Event) returns (s': Sys)
    requires Inv(s) && IsRobinEvent(e) && (e.DroppedRbac? || e.DroppedDeployment? ==> Targeted(Live(s), e))
    ensures Stepped(s, s', e) && Live(s') == RobinApplied(Live(s), e)
  {
    hide Inv, Compute;
    NeutralKeepsInv(s, e);
    s' := Reread(Push(s, e));
  }

  lemma ReportStep(s: Sys, k: nat, st: ConfigStatus) returns (s': Sys)
    requires Inv(s) && k in Live(s).configs
    ensures Stepped(s, s', RobinWrote(k, st))
    ensures Live(s') == Live(s).(configs := Live(s).configs[k := Live(s).configs[k].(status := st)])
  {
    hide Inv, Compute;
    NeutralKeepsInv(s, RobinWrote(k, st));
    s' := Reread(Push(s, RobinWrote(k, st)));
  }

  lemma EditStep(s: Sys, spec: Spec) returns (s': Sys)
    requires Inv(s) && Accepts(Live(s).cluster, spec)
    ensures Stepped(s, s', Edited(spec, Steady(s), s.configView))
    ensures var c := Live(s).cluster;
            && Live(s').cluster == c.(spec := spec, generation := c.generation + 1,
                                      resourceVersion := c.resourceVersion + 1)
            && Live(s') == Live(s).(cluster := Live(s').cluster, specs := Live(s').specs, lock := Live(s').lock)
  {
    hide Inv, Legal, Admits, Steady;
    EditKeepsInv(s, spec);
    s' := Reread(EditedBy(s, spec));
  }

  lemma CreateStep(s: Sys, k: nat) returns (s': Sys)
    requires Inv(s) && ReadsLive(s) && k == Top(SeenConfigs(s).Keys) + 1 && k !in Live(s).configs
    requires s.missed == 0 ==> ShowsNewest(SeenConfigs(s), Live(s).configs)
    ensures var c := Live(s).cluster;
            && Stepped(s, s', CreatedConfig(c.generation, k))
            && Live(s') == Live(s).(configs := Live(s).configs[k := BuildConfig(c.spec, c.generation, k)])
  {
    hide Inv, Legal, Apply, BuildConfig, ShowsNewest;
    CreateKeepsInv(s, k);
    CreateOnlyAdds(s, k);
    s' := Reread(Push(s, CreatedConfig(SeenCluster(s).generation, k)));
  }

  /** Aggregation of config `k` of the list. */
  lemma StatusStep(s: Sys, k: nat) returns (s': Sys)
    requires Inv(s) && ReadsLive(s) && Chosen(SeenConfigs(s), k) && RecordFits(Live(s).cluster, SeenConfigs(s)[k])
    requires Live(s).cluster.spec.primaries > 0 ==> Covers(Live(s).configs, Live(s).cluster.generation)
    ensures var c := Live(s).cluster;
            && Stepped(s, s', WroteStatus(Aggregation(SeenConfigs(s)[k], c.generation, 0)))
            && Live(s') == Live(s).(cluster := c.(status := AggregatedStatus(c, SeenConfigs(s)[k], c.generation, 0),
                                                  resourceVersion := c.resourceVersion + 1))
  {
    hide Inv, Legal, Apply, AggregatedStatus, Covers, SchemaValid, RecordFits;
    var c := Live(s).cluster;
    var writer := Aggregation(SeenConfigs(s)[k], c.generation, 0);
    LiveStatusValid(s);
    RecordFitsIsExact(c, SeenConfigs(s)[k], c.generation, 0);
    ObservedBound(s);
    StatusKeepsInv(s, writer, k);
    StatusOnlyWritten(Live(s), writer);
    s' := Reread(Push(s, WroteStatus(writer)));
  }

  lemma ZeroStatusStep(s: Sys) returns (s': Sys)
    requires Inv(s) && ReadsLive(s) && Live(s).cluster.spec.primaries == 0
    ensures var c := Live(s).cluster;
            && Stepped(s, s', WroteStatus(ScaledToZero(c.generation, 0)))
            && Live(s') == Live(s).(cluster := c.(status := ScaledToZeroStatus(c, c.generation, 0),
                                                  resourceVersion := c.resourceVersion + 1))
  {
    hide Inv, Legal, Apply, SetAll, SchemaValid;
    var writer := ScaledToZero(Live(s).cluster.generation, 0);
    ZeroStatusIsValid(s, 0);
    ObservedBound(s);
    StatusKeepsInv(s, writer, 0);
    StatusOnlyWritten(Live(s), writer);
    s' := Reread(Push(s, WroteStatus(writer)));
  }

  /** Cleanup of config `k`, after a list that is up to date. */
  lemma DropStep(s: Sys, k: nat) returns (s': Sys)
    requires Inv(s) && SeenConfigs(s) == Live(s).configs && k in Live(s).configs && k < Top(Live(s).configs.Keys)
    requires forall j :: j in Live(s).configs ==> j >= k
    ensures Stepped(s, s', DroppedConfig(k)) && Live(s') == Live(s).(configs := Live(s).configs - {k})
  {
    hide Inv, Compute;
    DropKeepsInv(s, k);
    s' := Reread(Push(s, DroppedConfig(k)));
  }

  lemma WipeStep(s: Sys, k: nat) returns (s': Sys)
    requires Inv(s) && ReadsLive(s) && k in Live(s).configs && RobinGone(Live(s)) && Live(s).cluster.spec.primaries == 0
    ensures Stepped(s, s', WipedConfig(k)) && Live(s') == Live(s).(configs := Live(s).configs - {k}, intact := false)
  {
    hide Inv, Compute;
    WipeKeepsInv(s, k);
    s' := Reread(Push(s, WipedConfig(k)));
  }

  lemma EmptyStep(s: Sys) returns (s': Sys)
    requires Inv(s) && SeenEmpty(s)
    ensures Stepped(s, s', SawEmpty) && Live(s') == Live(s).(intact := true)
  {
    hide Inv, Compute;
    LineageRestarts(s);
    s' := Reread(Push(s, SawEmpty));
  }

  // ----- where every run begins -----

  function ExampleSpec(primaries: nat, ephemeral: bool): Spec {
    Spec(ClusterMode, primaries, 1, ephemeral, if ephemeral then None else Some("1Gi"),
         "", [], false, false, map[], map[],
         RobinSpec("robin", None), Workload("redis", "8", "", "", false, Nil))
  }

  function NewRedkey(spec: Spec): Redkey {
    Redkey("c", "n", 1, 1, spec, FRESH_STATUS)
  }

  function RobinObjects(c: Redkey): map<RbacKind, RbacObject> {
    map[ServiceAccountKind := DesiredRbac(c, ServiceAccountKind), RoleKind := DesiredRbac(c, RoleKind),
        RoleBindingKind := DesiredRbac(c, RoleBindingKind)]
  }

  const APPLIED := ConfigStatus(Applied, ReadyStatus, NO_SUBSTATUS, map[], [])

  /** No read of the operator's has lagged. */
  predicate NeverLagged(s: Sys) {
    s.staleLists == s.missed == s.phantoms == 0 && s.objects == ObjectViews(0, 0, 0, 0)
  }

  /** The run began with a first reconcile of a Redkey with this spec. */
  ghost predicate Begun(s: Sys, spec: Spec) {
    && 5 <= |s.hist| && 5 <= |s.log| && s.log[4] == CreatedConfig(1, 1)
    && s.hist[4] == World(NewRedkey(spec), map[], RobinObjects(NewRedkey(spec)),
                          Some(DesiredDeployment(NewRedkey(spec))), [spec], true, None)
  }

  lemma FirstState(spec: Spec) returns (s: Sys)
    requires ValidSpec(spec)
    ensures Inv(s) && ReadsLive(s) && NeverLagged(s) && |s.hist| == 1 && s.log == []
    ensures Live(s) == World(NewRedkey(spec), map[], map[], None, [spec], true, None)
  {
    var w := World(NewRedkey(spec), map[], map[], None, [spec], true, None);
    s := Sys([w], [], 0, 0, ObjectViews(0, 0, 0, 0), 0, 0, 0);
  }

  /** The operator puts Robin's objects in place. */
  lemma RobinCreated(s: Sys) returns (s': Sys)
    requires Inv(s) && ReadsLive(s) && RobinGone(Live(s))
    ensures Inv(s') && ReadsLive(s') && |s'.hist| == |s.hist| + 4 && |s'.log| == |s.log| + 4
    ensures s.hist <= s'.hist && s.log <= s'.log
    ensures s' == s.(hist := s'.hist, log := s'.log, clusterView := s'.clusterView)
    ensures var c := Live(s).cluster;
            Live(s') == Live(s).(rbac := RobinObjects(c), deployment := Some(DesiredDeployment(c)))
  {
    hide Inv, DesiredRbac, DesiredDeployment;
    var c := Live(s).cluster;
    s' := RobinStep(s, PutRbac(ServiceAccountKind, DesiredRbac(c, ServiceAccountKind)));
    s' := RobinStep(s', PutRbac(RoleKind, DesiredRbac(c, RoleKind)));
    s' := RobinStep(s', PutRbac(RoleBindingKind, DesiredRbac(c, RoleBindingKind)));
    s' := RobinStep(s', PutDeployment(DesiredDeployment(c)));
  }

  /** The first reconcile of a new Redkey, without a fault. */
  lemma FirstReconcile(spec: Spec) returns (s: Sys)
    requires ValidSpec(spec) && spec.primaries > 0
    ensures Inv(s) && ReadsLive(s) && NeverLagged(s) && Begun(s, spec)
    ensures Live(s).configs == SeenConfigs(s) == map[1 := BuildConfig(spec, 1, 1)]
    ensures Live(s).rbac == RobinObjects(NewRedkey(spec)) && Live(s).deployment.Some? && Live(s).intact
    ensures var c := Live(s).cluster;
            c.spec == spec && c.generation == c.status.observedGeneration == 1 && c.status.lastAppliedPrimaries == 0
  {
    hide Inv, BuildConfig, AggregatedConditions, DesiredRbac, DesiredDeployment, ShowsNewest;
    s := FirstState(spec);
    s := RobinCreated(s);
    assert s.hist[4] == Live(s);
    s := Listed(s);
    s := CreateStep(s, 1);
    BuiltFor(spec, 1, 1);
    TopIs(Live(s).configs.Keys, 1);
    s := Listed(s);
    s := StatusStep(s, 1);
  }

  lemma BuiltFor(spec: Spec, g: nat, k: nat)
    ensures var c := BuildConfig(spec, g, k);
            && c.generation == g && c.spec.sequence == k
            && c.spec.primaries == spec.primaries && c.spec.Topo() == spec.Topo()
    ensures !IsApplied(BuildConfig(spec, g, k)) && !IsInProgress(BuildConfig(spec, g, k))
  {
  }

  // ----- a lost generation -----

  /** A state that is about to lose its generation is reached by two edits around a reconcile that
      is cut short after its create. */
  lemma LaggingStateExists() returns (s: Sys)
    ensures AboutToLose(s) && 1 in SeenConfigs(s)
  {
    hide Inv, BuildConfig, ShowsNewest, DesiredRbac, DesiredDeployment;
    s := FirstReconcile(ExampleSpec(3, true));
    s := EditStep(s, ExampleSpec(4, true));
    TopIs(Live(s).configs.Keys, 1);
    s := Listed(s);
    s := CreateStep(s, 2);
    s := EditStep(s, ExampleSpec(5, true));
    s := ListedLate(s, s.configView);
    TopIs(Live(s).configs.Keys, 2);
    BuiltFor(ExampleSpec(3, true), 1, 1);
    BuiltFor(ExampleSpec(4, true), 2, 2);
  }

  // ----- a topology that was applied but not recorded -----

  /** No status write between `i` and `j` records a topology. */
  ghost predicate NothingRecorded(h: seq<World>, log: seq<Event>, i: nat, j: nat)
    requires j < |h| == |log| + 1
  {
    forall m :: i <= m < j && log[m].WroteStatus? ==> !Records(log[m].writer, h[m].cluster)
  }

  lemma {:induction false} RecordStays(h: seq<World>, log: seq<Event>, i: nat, j: nat)
    requires Trace(h, log) && i <= j < |h| && NothingRecorded(h, log, i, j)
    ensures h[j].cluster.status.LastApplied() == h[i].cluster.status.LastApplied()
    decreases j
  {
    hide Trace, Legal, AggregatedConditions, SetAll;
    if i < j {
      RecordStays(h, log, i, j - 1);
      TraceStep(h, log, j - 1);
    }
  }

  /** Whatever state it was scaled to zero from, a storage cluster that has recorded a topology may
      return to the one it had in state `i` exactly when that is the recorded one; and unless an
      aggregation at zero recorded another, that is the one recorded in state `i`. */
  lemma {:induction false} ReturnFromZero(h: seq<World>, log: seq<Event>, i: nat, j: nat, back: Spec)
    requires Trace(h, log) && i < j < |h| && h[i].cluster.spec.primaries > 0 && h[j].cluster.spec.primaries == 0
    requires !back.ephemeral && WellFormed(back) && SameForGood(h[j].cluster.spec, back)
    requires back.Topo() == h[i].cluster.spec.Topo() && h[i].cluster.status.lastAppliedPrimaries > 0
    ensures Admits(h[j].cluster, back) <==> h[j].cluster.status.LastApplied() == back.Topo()
    ensures NothingRecorded(h, log, i, j) ==>
              (Admits(h[j].cluster, back) <==> h[i].cluster.status.LastApplied() == back.Topo())
  {
    hide Trace, Admits, WellFormed;
    RecordedTopologyNeverCleared(h, log, i, j);
    LockIsExact(h[j].cluster, back);
    EveryStateSound(h, log, j);
    RecordedIsWritten(h[j]);
    if NothingRecorded(h, log, i, j) {
      RecordStays(h, log, i, j);
    }
  }

  /** Rest is reached: a first reconcile, Robin applies, a second reconcile records, a third lists.
      An edit to zero then is one the lock theorem is about. */
  lemma RestIsReached() returns (s: Sys, i: nat)
    ensures Inv(s) && |s.hist| == |s.log| + 1 == i + 2 && Live(s).cluster.spec.primaries == 0
    ensures s.log[i].Edited? && AtRest(s.hist, i, s.log[i].listed)
  {
    hide Inv, BuildConfig, ShowsNewest;
    s := ThreeRecorded();
    s := Listed(s);
    InvIsTrace(s);
    i := |s.log|;
    var v := s.configView;
    s := EditStep(s, ExampleSpec(0, false));
    assert SoleConfig(s.hist, i, v, 1);
  }

  /** So is rest right after a reconcile that lists both configs of a change of topology, deletes the
      older one and records the newer, before the operator lists again. */
  lemma RestAfterCleanup() returns (s: Sys, i: nat)
    ensures Inv(s) && NeverLagged(s) && |s.hist| == |s.log| + 1 == i + 2 && Live(s).cluster.spec.primaries == 0
    ensures s.log[i].Edited? && AtRest(s.hist, i, s.log[i].listed)
    ensures s.log[i].listed < i && s.hist[s.log[i].listed].configs.Keys == {1, 2}
  {
    hide Inv, SoleConfig, Stepped;
    var s1 := CleanedUpAndRecorded();
    InvIsTrace(s1);
    i := |s1.log|;
    assert AtRest(s1.hist, i, s1.configView);
    s := EditStep(s1, ExampleSpec(0, false));
    SteppedOn(s1, s, Edited(ExampleSpec(0, false), Steady(s1), s1.configView));
    RestCarries(s1.hist, s.hist, i, s.log[i]);
  }

  /** The last list shows both configs; the older one has been deleted and the newer recorded. */
  lemma CleanedUpAndRecorded() returns (s: Sys)
    ensures Inv(s) && ReadsLive(s) && NeverLagged(s) && s.configView < |s.hist| - 1
    ensures Live(s).cluster.spec == ExampleSpec(5, false) && Live(s).cluster.generation == 2
    ensures SeenConfigs(s).Keys == {1, 2} && SoleConfig(s.hist, |s.hist| - 1, s.configView, 2)
  {
    hide Inv, BuildConfig, ShowsNewest, AggregatedConditions, Stepped;
    var s0 := ScaledToFive();
    s0 := Listed(s0);
    TopIs(Live(s0).configs.Keys, 2);
    var s1 := DropStep(s0, 1);
    SteppedOn(s0, s1, DroppedConfig(1));
    TopIs(Live(s1).configs.Keys, 2);
    s := StatusStep(s1, 2);
    SteppedOn(s1, s, WroteStatus(Aggregation(SeenConfigs(s1)[2], 2, 0)));
    var h, n := s.hist, |s0.hist| - 1;
    assert h[n] == Live(s0) && h[n + 1] == Live(s1) && h[n + 2] == Live(s) && |h| == n + 3;
    assert SoleOrNewest(h[n].configs, 2) && SoleOrNewest(h[n + 1].configs, 2) && SoleOrNewest(h[n + 2].configs, 2);
  }

  lemma SteppedOn(s: Sys, s': Sys, e: Event)
    requires Stepped(s, s', e)
    ensures Inv(s') && ReadsLive(s') && s'.configView == s.configView && s'.hist == s.hist + [Live(s')]
    ensures s'.log == s.log + [e] && (NeverLagged(s) ==> NeverLagged(s'))
  {
  }

  /** A storage cluster is scaled from 3 to 5 primaries, Robin applies that, cleanup leaves its
      config alone in the store, but the status write that would record it fails. Everything about
      the state is steady except that the recorded topology is not the live one. When the user
      then scales to zero, the cluster's own topology is refused and only the older one admitted. */
  lemma LockedOutOfItsTopology() returns (s: Sys, s': Sys)
    ensures Inv(s) && Inv(s') && Stepped(s, s', Edited(ExampleSpec(0, false), Steady(s), s.configView))
    ensures var five, zero := ExampleSpec(5, false), ExampleSpec(0, false);
            && Live(s).cluster.spec == five && !Steady(s) && Live(s).cluster.status.LastApplied() != five.Topo()
            && OnlyTopology(s.hist, s.clusterView, s.configView, five.Topo())
            && Live(s).configs.Keys == {2} && IsApplied(Live(s).configs[2])
            && Live(s).configs[2].spec.Topo() == five.Topo()
            && Live(s').cluster.spec == zero
            && !Admits(Live(s').cluster, five) && Admits(Live(s').cluster, ExampleSpec(3, false))
  {
    hide Inv, BuildConfig, OnlyTopology, AggregatedConditions;
    s := ScaledButNotRecorded();
    s' := EditStep(s, ExampleSpec(0, false));
    InvIsTrace(s');
    EveryStateSound(s'.hist, s'.log, |s'.hist| - 1);
    RecordedIsWritten(Live(s'));
  }

  lemma ScaledButNotRecorded() returns (s: Sys)
    ensures Inv(s) && Live(s).cluster.spec == ExampleSpec(5, false) && Live(s).cluster.generation == 2
    ensures Live(s).cluster.status.LastApplied() == ExampleSpec(3, false).Topo()
    ensures Live(s).configs.Keys == {2} && IsApplied(Live(s).configs[2])
    ensures Live(s).configs[2].spec.Topo() == ExampleSpec(5, false).Topo()
    ensures OnlyTopology(s.hist, s.clusterView, s.configView, ExampleSpec(5, false).Topo())
  {
    hide Inv, BuildConfig, OnlyTopology, SpecsSound, Stepped, ShowsNewest;
    var five := ExampleSpec(5, false);
    s := ScaledToFive();
    s := Listed(s);
    TopIs(Live(s).configs.Keys, 2);
    var s1 := DropStep(s, 1);
    SteppedFrom(s, s1, DroppedConfig(1));
    s := Listed(s1);
    NewestSpecSeen(s, 2);
    OneTopology(s, 2, five.Topo());
  }

  lemma SteppedFrom(s: Sys, s': Sys, e: Event)
    requires Stepped(s, s', e)
    ensures Inv(s') && ReadsLive(s')
  {
  }

  /** Three primaries are applied and recorded, then five are applied. */
  lemma ScaledToFive() returns (s: Sys)
    ensures Inv(s) && ReadsLive(s) && NeverLagged(s)
    ensures Live(s).cluster.spec == ExampleSpec(5, false) && Live(s).cluster.generation == 2
    ensures Live(s).cluster.status.LastApplied() == ExampleSpec(3, false).Topo()
    ensures Live(s).configs.Keys == {1, 2} && AppliedWith(Live(s).configs[1], ExampleSpec(3, false), 1, 1)
    ensures AppliedWith(Live(s).configs[2], ExampleSpec(5, false), 2, 2)
  {
    hide Inv, BuildConfig, AggregatedConditions, ShowsNewest, DesiredRbac, DesiredDeployment;
    var five := ExampleSpec(5, false);
    BuiltFor(five, 2, 2);
    s := ThreeRecorded();
    s := EditStep(s, five);
    TopIs(Live(s).configs.Keys, 1);
    s := Listed(s);
    s := CreateStep(s, 2);
    TopIs(Live(s).configs.Keys, 2);
    s := StatusStep(s, 1);
    s := ReportStep(s, 2, APPLIED);
  }

  predicate AppliedWith(c: Config, spec: Spec, g: nat, k: nat) {
    c.status == APPLIED && c.generation == g && c.spec.Topo() == spec.Topo() && c.spec.sequence == k
  }

  lemma ThreeRecorded() returns (s: Sys)
    ensures Inv(s) && ReadsLive(s) && NeverLagged(s)
    ensures Live(s).cluster.spec == ExampleSpec(3, false) && Live(s).cluster.generation == 1
    ensures Live(s).cluster.status.LastApplied() == ExampleSpec(3, false).Topo()
    ensures Live(s).configs.Keys == {1} && AppliedWith(Live(s).configs[1], ExampleSpec(3, false), 1, 1)
  {
    hide Inv, BuildConfig, AggregatedConditions, ShowsNewest, DesiredRbac, DesiredDeployment;
    BuiltFor(ExampleSpec(3, false), 1, 1);
    s := FirstReconcile(ExampleSpec(3, false));
    s := ReportStep(s, 1, APPLIED);
    TopIs(Live(s).configs.Keys, 1);
    s := Listed(s);
    s := StatusStep(s, 1);
  }

  /** No failure and no lag is needed: if the user scales to zero right after Robin applied 5, the
      zero config is created and the list, which is not cleaned up at zero, is aggregated from its
      oldest config. So 3 is recorded while 5 is listed as applied, and 5 is refused. */
  lemma LockedOutWithoutFault() returns (s: Sys)
    ensures Inv(s) && NeverLagged(s) && Live(s).cluster.spec == ExampleSpec(0, false)
    ensures s.log != [] && s.log[|s.log| - 1].WroteStatus? && s.log[|s.log| - 1].writer.Aggregation?
    ensures 1 in Live(s).configs && 2 in Live(s).configs && 3 in Live(s).configs
    ensures AppliedWith(Live(s).configs[2], ExampleSpec(5, false), 2, 2) && IsApplied(Live(s).configs[1])
    ensures s.log[|s.log| - 1].writer.active == Active([Live(s).configs[1], Live(s).configs[2], Live(s).configs[3]])
    ensures Live(s).cluster.status.LastApplied() == ExampleSpec(3, false).Topo()
    ensures !Admits(Live(s).cluster, ExampleSpec(5, false)) && Admits(Live(s).cluster, ExampleSpec(3, false))
  {
    hide Inv, BuildConfig, AggregatedConditions, ShowsNewest;
    var zero := ExampleSpec(0, false);
    BuiltFor(zero, 3, 3);
    s := ScaledToFive();
    s := EditStep(s, zero);
    s := Listed(s);
    TopIs(Live(s).configs.Keys, 2);
    s := CreateStep(s, 3);
    s := Listed(s);
    OldestIsActive(Live(s).configs[1], Live(s).configs[2], Live(s).configs[3]);
    s := StatusStep(s, 1);
  }

  lemma OldestIsActive(a: Config, b: Config, c: Config)
    requires !IsInProgress(a) && !IsInProgress(b) && !IsInProgress(c)
    ensures Active([a, b, c]) == a
  {
    var l := [a, b, c];
    assert forall i :: 0 <= i < |l| ==> !IsInProgress(l[i]);
  }

  // ----- a topology the schema refuses to record -----

  /** The spec admits more primaries than the status may record: once such a config is applied,
      the status is stuck. */
  lemma StatusRefused() returns (s: Sys)
    ensures Inv(s) && Stuck(Live(s)) && ValidSpec(Live(s).cluster.spec)
    ensures Live(s).cluster.spec == ExampleSpec(200_000, false)
  {
    hide Inv, BuildConfig, Covers, DesiredRbac, DesiredDeployment;
    var spec := ExampleSpec(200_000, false);
    BuiltFor(spec, 1, 1);
    s := FirstReconcile(spec);
    s := ReportStep(s, 1, APPLIED);
    var l := [Live(s).configs[1]];
    assert LastApplied(l) == 0;
    assert IsListing(l, Live(s).configs);
    assert Active(l) == l[0];
  }

  // ----- sequence numbers across a full cleanup -----

  /** A run that scales to zero and back creates sequence number 1 twice. */
  lemma SequencesRestart() returns (s: Sys)
    ensures Inv(s) && |s.log| > 5 && s.log[4] == CreatedConfig(1, 1) && s.log[|s.log| - 1] == CreatedConfig(3, 1)
  {
    hide Inv, BuildConfig, ShowsNewest, DesiredRbac, DesiredDeployment;
    s := BackFromZero();
    s := Listed(s);
    s := EmptyStep(s);
    s := Listed(s);
    s := CreateStep(s, 1);
  }

  /** If the list that numbers the first config after a full cleanup is older than the cleanup, and
      the next one shows the emptied store, the new lineage begins at 3 and goes on with 1: it has
      a gap, although no config was deleted since the store was empty. */
  lemma LineageWithGap() returns (s: Sys)
    ensures Inv(s) && |s.log| >= 2 && s.hist[|s.log| - 2].configs == map[] && !Live(s).intact
    ensures s.log[|s.log| - 2] == CreatedConfig(3, 3) && s.log[|s.log| - 1] == CreatedConfig(3, 1)
    ensures Live(s).configs.Keys == {1, 3} && !GapFree(Live(s).configs) && !IsAppend(s.hist[|s.log| - 1].configs, 1)
  {
    hide Inv, BuildConfig, ShowsNewest;
    s := NumberedFromOldList();
    InvIsTrace(s);
    s := ListedLate(s, |s.hist| - 2);
    s := CreateStep(s, 1);
    assert Live(s).configs.Keys == {1, 3} && 2 !in Live(s).configs;
    assert 3 in s.hist[|s.log| - 1].configs;
  }

  lemma NumberedFromOldList() returns (s: Sys)
    ensures Inv(s) && ReadsLive(s) && s.missed > 0 && |s.hist| >= 2 && s.configView <= |s.hist| - 2
    ensures s.hist[|s.hist| - 2].configs == map[] && Live(s).configs.Keys == {3} && !Live(s).intact
    ensures Live(s).cluster.generation == 3 && s.log != [] && s.log[|s.log| - 1] == CreatedConfig(3, 3)
  {
    hide Inv, BuildConfig, ShowsNewest, Begun;
    s := BackFromZero();
    TopIs(SeenConfigs(s).Keys, 2);
    s := ListedLate(s, s.configView);
    s := CreateStep(s, 3);
    assert Live(s).configs.Keys == {3};
  }

  /** Scaled to zero, cleaned up, and asked for primaries again. The operator's last list is from
      before the deletes. */
  lemma BackFromZero() returns (s: Sys)
    ensures Inv(s) && ReadsLive(s) && NeverLagged(s) && Begun(s, ExampleSpec(3, true))
    ensures SeenConfigs(s).Keys == {1, 2} && Live(s).configs == map[] && RobinGone(Live(s)) && !Live(s).intact
    ensures Live(s).cluster.spec == ExampleSpec(3, true) && Live(s).cluster.generation == 3
    ensures Live(s).cluster.status.observedGeneration == 2
  {
    hide Inv, SetAll, DesiredRbac, DesiredDeployment;
    s := DrainedRun();
    s := EditStep(s, ExampleSpec(3, true));
  }

  lemma DrainedRun() returns (s: Sys)
    ensures Inv(s) && ReadsLive(s) && NeverLagged(s) && Begun(s, ExampleSpec(3, true))
    ensures SeenConfigs(s).Keys == {1, 2} && Live(s).configs == map[] && RobinGone(Live(s)) && !Live(s).intact
    ensures Live(s).cluster.spec == ExampleSpec(0, true) && Live(s).cluster.generation == 2
    ensures Live(s).cluster.status.observedGeneration == 2 && Live(s).cluster.status.lastAppliedPrimaries == 0
  {
    hide Inv, SetAll, DesiredRbac, DesiredDeployment;
    s := ZeroApplied();
    s := RobinRemoved(s);
    s := WipeStep(s, 1);
    s := WipeStep(s, 2);
    assert Live(s).configs == map[];
    s := ZeroStatusStep(s);
  }

  /** The operator removes Robin's objects. */
  lemma RobinRemoved(s: Sys) returns (s': Sys)
    requires Inv(s) && ReadsLive(s) && Live(s).deployment.Some?
    requires Live(s).rbac.Keys == {ServiceAccountKind, RoleKind, RoleBindingKind}
    ensures Inv(s') && ReadsLive(s') && s.hist <= s'.hist && s.log <= s'.log
    ensures s' == s.(hist := s'.hist, log := s'.log, clusterView := s'.clusterView)
    ensures Live(s') == Live(s).(rbac := map[], deployment := None)
  {
    hide Inv;
    s' := RobinStep(s, DroppedDeployment);
    s' := RobinStep(s', DroppedRbac(RoleBindingKind));
    s' := RobinStep(s', DroppedRbac(RoleKind));
    s' := RobinStep(s', DroppedRbac(ServiceAccountKind));
    assert Live(s').rbac.Keys == {};
  }

  lemma ZeroApplied() returns (s: Sys)
    ensures Inv(s) && ReadsLive(s) && NeverLagged(s) && Begun(s, ExampleSpec(3, true))
    ensures SeenConfigs(s) == Live(s).configs && Live(s).configs.Keys == {1, 2} && Rank(Live(s).configs) == 1
    ensures Live(s).cluster.spec == ExampleSpec(0, true) && Live(s).cluster.generation == 2
    ensures Live(s).cluster.status.lastAppliedPrimaries == 0
    ensures Live(s).deployment.Some? && Live(s).rbac.Keys == {ServiceAccountKind, RoleKind, RoleBindingKind}
  {
    hide Inv, BuildConfig, AggregatedConditions, ShowsNewest, DesiredRbac, DesiredDeployment;
    s := FirstApplied();
    s := EditStep(s, ExampleSpec(0, true));
    s := Listed(s);
    TopIs(Live(s).configs.Keys, 1);
    s := CreateStep(s, 2);
    BuiltFor(ExampleSpec(0, true), 2, 2);
    s := ReportStep(s, 2, APPLIED);
    s := Listed(s);
    assert Live(s).configs.Keys == {1, 2};
    TopIs(Live(s).configs.Keys, 2);
  }

  lemma FirstApplied() returns (s: Sys)
    ensures Inv(s) && ReadsLive(s) && NeverLagged(s) && Begun(s, ExampleSpec(3, true)) && Live(s).configs.Keys == {1}
    ensures Live(s).cluster.spec == ExampleSpec(3, true) && Live(s).cluster.generation == 1
    ensures Live(s).cluster.status.lastAppliedPrimaries == 0
    ensures Live(s).deployment.Some? && Live(s).rbac.Keys == {ServiceAccountKind, RoleKind, RoleBindingKind}
  {
    hide Inv, BuildConfig, AggregatedConditions, ShowsNewest, DesiredRbac, DesiredDeployment;
    s := FirstReconcile(ExampleSpec(3, true));
    s := ReportStep(s, 1, APPLIED);
    TopIs(Live(s).configs.Keys, 1);
    BuiltFor(ExampleSpec(3, true), 1, 1);
    s := Listed(s);
    s := StatusStep(s, 1);
  }

  // ----- Robin objects without a config, and configs without Robin -----

  /** If the very first reconcile fails between its objects and its config, and the user then
      asks for zero primaries, there is no config to clean up after: the objects stay, and the
      status says the cluster is at rest. */
  lemma RobinLeftBehind() returns (s: Sys)
    ensures Inv(s) && Live(s).configs == map[] && RobinComplete(Live(s)) && ShowsZero(Live(s).cluster)
  {
    hide Inv, SetAll, DesiredRbac, DesiredDeployment;
    s := FirstState(ExampleSpec(3, true));
    s := RobinCreated(s);
    s := EditStep(s, ExampleSpec(0, true));
    s := ZeroStatusStep(s);
  }

  /** A list at zero primaries that lacks the newest config can lead to full cleanup while that
      config is live: the zero config is applied, the user goes back to primaries, a config is
      created, the user asks for zero again, and lists that lag by that one config still show the
      applied zero config as the newest. Robin and the configs listed are deleted, and the status
      says the cluster is at rest. */
  lemma ConfigOutlivesCleanup() returns (s: Sys)
    ensures Inv(s) && Live(s).configs.Keys == {3} && Live(s).configs[3].spec.primaries > 0
    ensures RobinGone(Live(s)) && ShowsZero(Live(s).cluster)
    ensures SeenConfigs(s).Keys == {1, 2} && Rank(SeenConfigs(s)) == 1
  {
    hide Inv, SetAll, BuildConfig, ShowsNewest;
    s := AskedForZeroAgain();
    s := ListedLate(s, s.configView);
    s := RobinRemoved(s);
    s := WipeStep(s, 1);
    s := WipeStep(s, 2);
    assert Live(s).configs.Keys == {3};
    s := ZeroStatusStep(s);
  }

  lemma AskedForZeroAgain() returns (s: Sys)
    ensures Inv(s) && ReadsLive(s) && Live(s).cluster.spec == ExampleSpec(0, true)
    ensures Live(s).configs.Keys == {1, 2, 3} && Live(s).configs[3].spec.primaries > 0
    ensures SeenConfigs(s).Keys == {1, 2} && Rank(SeenConfigs(s)) == 1
    ensures Live(s).deployment.Some? && Live(s).rbac.Keys == {ServiceAccountKind, RoleKind, RoleBindingKind}
  {
    hide Inv, BuildConfig, ShowsNewest, Begun;
    s := ZeroApplied();
    s := EditStep(s, ExampleSpec(3, true));
    s := Listed(s);
    TopIs(Live(s).configs.Keys, 2);
    s := CreateStep(s, 3);
    BuiltFor(ExampleSpec(3, true), 3, 3);
    s := EditStep(s, ExampleSpec(0, true));
    assert Live(s).configs.Keys == {1, 2, 3};
  }

  /** After a full cleanup and an edit back to primaries, reads that still show Robin's objects find
      nothing to do; the reconcile then creates and publishes a config that no Robin works on. */
  lemma ConfigWithoutRobin() returns (s: Sys)
    ensures Inv(s) && Live(s).configs != map[] && RobinGone(Live(s)) && Live(s).cluster.spec.primaries > 0
    ensures Live(s).cluster.status.observedGeneration == Live(s).cluster.generation
    ensures s.staleLists == s.missed == 0 && s.phantoms == 4 && s.objects == ObjectViews(4, 4, 4, 4)
    ensures 4 < |s.hist| && RobinSettled(s.hist[4], Live(s).cluster)
  {
    hide Inv, BuildConfig, AggregatedConditions, ShowsNewest, DesiredRbac, DesiredDeployment, RobinSettled;
    s := BackFromZero();
    ReadObjects(s, ObjectViews(4, 4, 4, 4), 4);
    s := s.(objects := ObjectViews(4, 4, 4, 4), phantoms := 4);
    s := Listed(s);
    s := EmptyStep(s);
    s := Listed(s);
    s := CreateStep(s, 1);
    BuiltFor(ExampleSpec(3, true), 3, 1);
    TopIs(Live(s).configs.Keys, 1);
    s := Listed(s);
    s := StatusStep(s, 1);
    ShownSettled(s);
  }

  lemma ShownSettled(s: Sys)
    requires Inv(s) && Begun(s, ExampleSpec(3, true)) && Live(s).cluster.spec == ExampleSpec(3, true)
    ensures RobinSettled(s.hist[4], Live(s).cluster)
  {
    hide Inv, RbacServes, Serves, DesiredRbac, DesiredDeployment, SpecsSound, ConfigsSound;
    InvIsTrace(s);
    SeenIsPast(s, 4);
    var c, c' := NewRedkey(ExampleSpec(3, true)), Live(s).cluster;
    ServingIgnoresStatus(c, c');
    forall kind
      ensures RbacServes(DesiredRbac(c, kind), c', kind)
    {
      WrittenRbacServes(c, kind, DesiredRbac(c, kind));
    }
    CreationRollsOut(c);
  }
}
