/** The API server's history together with how far the operator's read caches have got. A read
    may return any state from the last one that cache returned up to the live one: it may lag,
    it never regresses. `Inv` is what every operator run keeps. */
module Views {
  import opened Types
  import opened Identity
  import opened Conditions
  import opened Robin
  import opened Admission
  import opened Protocol

  /** `clusterView`, `configView` and `objects` index the states last returned for the Redkey, for
      config lists and for each of Robin's objects. `staleLists` counts the lists that lagged,
      `missed` those since the operator first read the generation it reads now that did not show
      the newest config, and `phantoms` the reads that showed an object of Robin's which was
      already gone. */
  datatype Sys = Sys(
    hist: seq<World>,
    log: seq<Event>,
    clusterView: nat,
    configView: nat,
    objects: ObjectViews,
    staleLists: nat,
    missed: nat,
    phantoms: nat)

  /** The caches of Robin's objects are independent of each other. */
  datatype ObjectViews = ObjectViews(serviceAccount: nat, role: nat, roleBinding: nat, deployment: nat)
  {
    predicate Within(n: nat) {
      serviceAccount < n && role < n && roleBinding < n && deployment < n
    }

    function Of(kind: RbacKind): nat {
      match kind
      case ServiceAccountKind => serviceAccount
      case RoleKind => role
      case RoleBindingKind => roleBinding
    }

    function Moved(kind: RbacKind, v: nat): ObjectViews {
      match kind
      case ServiceAccountKind => this.(serviceAccount := v)
      case RoleKind => this.(role := v)
      case RoleBindingKind => this.(roleBinding := v)
    }
  }

  /** A list of `seen` shows the newest config of `m`, whatever else it lacks. */
  predicate ShowsNewest(seen: map<nat, Config>, m: map<nat, Config>) {
    if m == map[] then seen == map[]
    else exists k :: k in m && k in seen && SameIdentity(seen[k], m[k]) && NoneAbove(seen, k) && NoneAbove(m, k)
  }

  predicate NoneAbove(m: map<nat, Config>, k: nat) {
    forall j :: j in m ==> j <= k
  }

  lemma ShowsItself(m: map<nat, Config>)
    ensures ShowsNewest(m, m)
  {
    if m != map[] {
      assert NoneAbove(m, Top(m.Keys));
    }
  }

  lemma ShowsNewestTop(seen: map<nat, Config>, m: map<nat, Config>)
    requires ShowsNewest(seen, m)
    ensures Top(seen.Keys) == Top(m.Keys) && (seen == map[] <==> m == map[])
    ensures m != map[] ==> Top(m.Keys) in seen && SameIdentity(seen[Top(m.Keys)], m[Top(m.Keys)])
  {
    if m != map[] {
      var k :| k in m && k in seen && SameIdentity(seen[k], m[k]) && NoneAbove(seen, k) && NoneAbove(m, k);
      TopIs(seen.Keys, k);
      TopIs(m.Keys, k);
    }
  }

  lemma ShowsNewestCarries(seen: map<nat, Config>, m: map<nat, Config>, m': map<nat, Config>)
    requires SameConfigs(m, m')
    ensures ShowsNewest(seen, m) <==> ShowsNewest(seen, m')
  {
    if m != map[] && ShowsNewest(seen, m) {
      var k :| k in m && k in seen && SameIdentity(seen[k], m[k]) && NoneAbove(seen, k) && NoneAbove(m, k);
      assert k in m' && SameIdentity(seen[k], m'[k]) && NoneAbove(m', k);
    }
    if m' != map[] && ShowsNewest(seen, m') {
      var k :| k in m' && k in seen && SameIdentity(seen[k], m'[k]) && NoneAbove(seen, k) && NoneAbove(m', k);
      assert k in m && SameIdentity(seen[k], m[k]) && NoneAbove(m, k);
    }
  }

  predicate Shaped(s: Sys) {
    && s.hist != []
    && s.clusterView < |s.hist| && s.configView < |s.hist| && s.objects.Within(|s.hist|)
  }

  function Live(s: Sys): World
    requires Shaped(s)
  {
    s.hist[|s.hist| - 1]
  }

  /** The Redkey as the operator last read it. */
  function SeenCluster(s: Sys): Redkey
    requires Shaped(s)
  {
    s.hist[s.clusterView].cluster
  }

  /** The configs as the operator last listed them. */
  function SeenConfigs(s: Sys): map<nat, Config>
    requires Shaped(s)
  {
    s.hist[s.configView].configs
  }

  function Push(s: Sys, e: Event): Sys
    requires Shaped(s)
  {
    s.(hist := s.hist + [Apply(Live(s), e)], log := s.log + [e])
  }

  /** The greatest sequence number, zero when there is none. */
  ghost function Top(ks: set<nat>): (t: nat)
    ensures ks == {} ==> t == 0
    ensures ks != {} ==> t in ks && forall k :: k in ks ==> k <= t
  {
    if ks == {} then 0
    else
      var k :| k in ks;
      var t := Top(ks - {k});
      assert forall j :: j in ks ==> j == k || j in ks - {k};
      if t < k then k else t
  }

  lemma TopIs(ks: set<nat>, t: nat)
    requires t in ks && forall k :: k in ks ==> k <= t
    ensures Top(ks) == t
  {
  }

  ghost function KeysAt(h: seq<World>, i: nat): set<nat>
    requires i < |h|
  {
    h[i].configs.Keys
  }

  // ----- the invariant -----

  ghost predicate ObservedWasSeen(s: Sys)
    requires Shaped(s)
  {
    && Live(s).cluster.status.observedGeneration <= SeenCluster(s).generation
    && forall k :: k in Live(s).configs ==> Live(s).configs[k].generation <= SeenCluster(s).generation
  }

  /** The newest config was created for generation `g` or a later one. */
  ghost predicate Covers(m: map<nat, Config>, g: nat) {
    m != map[] && m[Top(m.Keys)].generation >= g
  }

  /** As long as no list for it missed the newest config: if the generation the operator sees has been observed, and it
      asks for primaries, the newest config is for it. */
  ghost predicate NothingLost(s: Sys)
    requires Shaped(s)
  {
    && s.missed == 0
    && Live(s).cluster.status.observedGeneration == SeenCluster(s).generation
    && SeenCluster(s).spec.primaries > 0
    ==> Covers(Live(s).configs, SeenCluster(s).generation)
  }

  /** In an intact lineage, since the last list: the newest sequence number only grows, nothing
      at or above the newest listed one has been deleted, and nothing has appeared below it. */
  ghost predicate LineageSeen(h: seq<World>, view: nat)
    requires view < |h|
  {
    h[|h| - 1].intact ==> Growing(h, view) && Filled(h, view) && Rooted(h, view)
  }

  ghost predicate Growing(h: seq<World>, view: nat) {
    forall i, j :: view <= i <= j < |h| ==> Top(KeysAt(h, i)) <= Top(KeysAt(h, j))
  }

  ghost predicate Filled(h: seq<World>, view: nat)
    requires view < |h|
  {
    var n := |h| - 1;
    forall k :: 1 <= k && Top(KeysAt(h, view)) <= k <= Top(KeysAt(h, n)) ==> k in KeysAt(h, n)
  }

  ghost predicate Rooted(h: seq<World>, view: nat)
    requires view < |h|
  {
    var n := |h| - 1;
    forall i, k :: view <= i <= n && k in KeysAt(h, n) && k <= Top(KeysAt(h, i)) ==> k in KeysAt(h, i)
  }

  predicate AllFit(m: map<nat, Config>, t: Topology) {
    forall k :: k in m ==> Fits(m[k].spec.Topo(), t)
  }

  /** The newest config of `m` is applied, with topology `t`. */
  predicate NewestIs(m: map<nat, Config>, t: Topology) {
    exists k :: k in m && NoneAbove(m, k) && SettledOn(m[k], t)
  }

  predicate SettledOn(c: Config, t: Topology) {
    c.status.configPhase == Applied && c.spec.primaries > 0 && c.spec.Topo() == t
  }

  /** A list of `m` can only lead to a record of topology `t`. */
  predicate LeadsTo(m: map<nat, Config>, t: Topology) {
    AllFit(m, t) || NewestIs(m, t)
  }

  /** What aggregation may take from a list of `m`: if the newest config is applied and asks for
      primaries, that one. */
  predicate Chosen(m: map<nat, Config>, k: nat)
    ensures Chosen(m, k) ==> k in m
  {
    k in m && forall j :: j in m && NoneAbove(m, j) && SettledOn(m[j], m[j].spec.Topo()) ==> j == k
  }

  ghost predicate MayTake(m: map<nat, Config>, c: Config) {
    exists k :: Chosen(m, k) && m[k] == c
  }

  lemma ChosenFits(m: map<nat, Config>, k: nat, t: Topology)
    requires Chosen(m, k) && LeadsTo(m, t)
    ensures Fits(m[k].spec.Topo(), t)
  {
  }

  /** Every spec and every config the operator may still act on fits the locked topology, and so
      does whatever it may record from a list it may still get. */
  predicate OnlyTopology(h: seq<World>, clusterView: nat, configView: nat, t: Topology)
    requires clusterView < |h| && configView < |h|
  {
    var specs := h[|h| - 1].specs;
    && (forall g :: 0 <= g < |specs| && h[clusterView].cluster.generation <= g + 1 ==> Fits(specs[g].Topo(), t))
    && AllFit(h[|h| - 1].configs, t)
    && (forall i :: configView <= i < |h| ==> LeadsTo(h[i].configs, t))
  }

  /** Some state up to `j` shows a config with topology `t` applied. */
  ghost predicate WasApplied(h: seq<World>, j: nat, t: Topology) {
    exists i, k :: AppliedAt(h, i, j, k, t)
  }

  predicate AppliedAt(h: seq<World>, i: nat, j: nat, k: nat, t: Topology) {
    && i <= j && i < |h| && k in h[i].configs
    && h[i].configs[k].status.configPhase == Applied && h[i].configs[k].spec.Topo() == t
  }

  /** Every topology ever recorded had been applied. */
  ghost predicate RecordsApplied(h: seq<World>) {
    forall j :: 0 <= j < |h| ==> RecordApplied(h, j)
  }

  ghost predicate RecordApplied(h: seq<World>, j: nat)
    requires j < |h|
  {
    var st := h[j].cluster.status;
    st.lastAppliedPrimaries != 0 ==> WasApplied(h, j, st.LastApplied())
  }

  /** In state `i`, with the operator's last list from state `v`: a storage cluster with one config,
      applied, recorded and for the live generation; if there were older ones since the list, it
      was the newest and applied already. */
  ghost predicate AtRest(h: seq<World>, i: nat, v: nat)
    requires i < |h|
  {
    !h[i].cluster.spec.ephemeral && h[i].cluster.spec.primaries > 0 && exists k :: SoleConfig(h, i, v, k)
  }

  predicate SoleConfig(h: seq<World>, i: nat, v: nat, k: nat)
    requires i < |h|
  {
    && v <= i && (forall j :: v <= j <= i ==> SoleOrNewest(h[j].configs, k))
    && h[i].configs.Keys == {k} && k in h[i].configs
    && var c := h[i].configs[k];
       && c.generation == h[i].cluster.generation && c.status.configPhase == Applied
       && h[i].cluster.status.LastApplied() == c.spec.Topo()
  }

  predicate SoleOrNewest(m: map<nat, Config>, k: nat) {
    k in m && (m.Keys == {k} || (NoneAbove(m, k) && m[k].status.configPhase == Applied))
  }

  /** An edit of a cluster at rest is marked as one of a steady cluster. */
  ghost predicate RestIsSteady(h: seq<World>, log: seq<Event>) {
    forall i :: 0 <= i < |log| && i < |h| ==> EditMarked(h, log, i)
  }

  ghost predicate EditMarked(h: seq<World>, log: seq<Event>, i: nat)
    requires i < |log| && i < |h|
  {
    log[i].Edited? && AtRest(h, i, log[i].listed) ==> log[i].steady
  }

  /** The user's edit, marked with what the operator is about to act on. */
  function EditedBy(s: Sys, spec: Spec): Sys
    requires Shaped(s)
  {
    Push(s, Edited(spec, Steady(s), s.configView))
  }

  ghost predicate Inv(s: Sys)
    ensures Inv(s) ==> Shaped(s)
  {
    && Shaped(s)
    && Trace(s.hist, s.log)
    && ObservedWasSeen(s)
    && NothingLost(s)
    && LineageSeen(s.hist, s.configView)
    && RecordsApplied(s.hist) && RestIsSteady(s.hist, s.log)
    && (Live(s).lock.Some? ==> OnlyTopology(s.hist, s.clusterView, s.configView, Live(s).lock.value))
  }

  /** A storage cluster at rest: the live topology is positive and recorded, and nothing the
      operator may still act on has another one. */
  predicate Steady(s: Sys)
    requires Shaped(s)
  {
    var c := Live(s).cluster;
    && !c.spec.ephemeral && c.spec.primaries > 0 && c.status.LastApplied() == c.spec.Topo()
    && OnlyTopology(s.hist, s.clusterView, s.configView, c.spec.Topo())
  }

  // ----- facts read off the history -----

  lemma PushTrace(s: Sys, e: Event)
    requires Shaped(s) && Trace(s.hist, s.log) && Legal(Live(s), e)
    ensures Shaped(Push(s, e)) && Trace(Push(s, e).hist, Push(s, e).log)
  {
    hide Legal, Apply;
    var s' := Push(s, e);
    assert s'.hist[..|s.hist|] == s.hist && s'.log[..|s.log|] == s.log;
  }

  lemma RestKept(s: Sys, e: Event)
    requires Shaped(s) && |s.hist| == |s.log| + 1 && RestIsSteady(s.hist, s.log)
    requires e.Edited? && AtRest(s.hist, |s.log|, e.listed) ==> e.steady
    ensures RestIsSteady(Push(s, e).hist, Push(s, e).log)
  {
    hide Apply, AtRest;
    var h, log := Push(s, e).hist, Push(s, e).log;
    forall i | 0 <= i < |log| && i < |h|
      ensures EditMarked(h, log, i)
    {
      assert i < |s.log| ==> EditMarked(s.hist, s.log, i);
      RestCarries(s.hist, h, i, log[i]);
    }
  }

  lemma RestCarries(h: seq<World>, h': seq<World>, i: nat, e: Event)
    requires i < |h| && h <= h'
    ensures e.Edited? ==> (AtRest(h, i, e.listed) <==> AtRest(h', i, e.listed))
  {
    if e.Edited? {
      assert forall k :: SoleConfig(h, i, e.listed, k) <==> SoleConfig(h', i, e.listed, k);
    }
  }

  /** What the operator may conclude about a Redkey it read earlier. */
  lemma SeenIsPast(s: Sys, i: nat)
    requires Shaped(s) && Trace(s.hist, s.log) && i < |s.hist|
    ensures Later(s.hist[i], Live(s))
    ensures SpecsSound(s.hist[i]) && SpecsSound(Live(s))
    ensures s.hist[i].cluster.status.observedGeneration <= s.hist[i].cluster.generation
    ensures Live(s).specs[s.hist[i].cluster.generation - 1] == s.hist[i].cluster.spec
    ensures SchemaValid(Live(s).cluster.status)
    ensures ConfigsSound(Live(s)) && ConfigsSound(s.hist[i])
  {
    hide Trace, Agrees, IsSnapshot;
    EveryStateLater(s.hist, s.log, i, |s.hist| - 1);
    EveryStateSound(s.hist, s.log, i);
    EveryStateSound(s.hist, s.log, |s.hist| - 1);
  }

  lemma SeenOrder(s: Sys, i: nat, j: nat)
    requires Shaped(s) && Trace(s.hist, s.log) && i <= j < |s.hist|
    ensures Later(s.hist[i], s.hist[j])
    ensures SpecsSound(s.hist[i]) && SpecsSound(s.hist[j])
  {
    hide Trace, Agrees, IsSnapshot;
    EveryStateLater(s.hist, s.log, i, j);
    EveryStateSound(s.hist, s.log, i);
    EveryStateSound(s.hist, s.log, j);
  }

  lemma AppliedStays(h: seq<World>, w: World, j: nat, j': nat, t: Topology)
    requires WasApplied(h, j, t) && j <= j'
    ensures WasApplied(h + [w], j', t)
  {
    var i, k :| AppliedAt(h, i, j, k, t);
    assert AppliedAt(h + [w], i, j', k, t);
  }

  lemma RecordsAppliedPast(h: seq<World>, w: World, j: nat)
    requires RecordsApplied(h) && j < |h|
    ensures RecordApplied(h + [w], j)
  {
    assert RecordApplied(h, j) && (h + [w])[j] == h[j];
    var st := h[j].cluster.status;
    if st.lastAppliedPrimaries != 0 {
      AppliedStays(h, w, j, j, st.LastApplied());
    }
  }

  /** A record stays, or comes from a config that was seen applied. */
  lemma RecordsAppliedNext(h: seq<World>, w: World)
    requires h != [] && RecordsApplied(h)
    requires || w.cluster.status.LastApplied() == h[|h| - 1].cluster.status.LastApplied()
             || WasApplied(h, |h| - 1, w.cluster.status.LastApplied())
    ensures RecordsApplied(h + [w])
  {
    hide RecordApplied, WasApplied;
    forall j | 0 <= j < |h + [w]|
      ensures RecordApplied(h + [w], j)
    {
      if j < |h| {
        RecordsAppliedPast(h, w, j);
      } else {
        RecordAppliedLast(h, w);
      }
    }
  }

  lemma RecordAppliedLast(h: seq<World>, w: World)
    requires h != [] && RecordsApplied(h)
    requires || w.cluster.status.LastApplied() == h[|h| - 1].cluster.status.LastApplied()
             || WasApplied(h, |h| - 1, w.cluster.status.LastApplied())
    ensures RecordApplied(h + [w], |h|)
  {
    hide WasApplied;
    var t := w.cluster.status.LastApplied();
    assert RecordApplied(h, |h| - 1) && (h + [w])[|h|] == w;
    if t.primaries != 0 {
      AppliedStays(h, w, |h| - 1, |h|, t);
    }
  }

  // ----- reads -----

  /** `missed` after a read of generation `g`. */
  function MissedFrom(s: Sys, g: nat): nat
    requires Shaped(s)
  {
    if g == SeenCluster(s).generation then s.missed else 0
  }

  /** A newer generation starts with a clean slate: it has not been observed yet. */
  lemma ReadCluster(s: Sys, v: nat)
    requires Inv(s) && s.clusterView <= v < |s.hist|
    ensures Inv(s.(clusterView := v, missed := MissedFrom(s, s.hist[v].cluster.generation)))
  {
    hide Trace, RecordsApplied, RestIsSteady, LineageSeen, ConfigsSound;
    SeenOrder(s, s.clusterView, v);
    SeenIsPast(s, v);
    SeenIsPast(s, s.clusterView);
  }

  lemma ReadObjects(s: Sys, objects: ObjectViews, phantoms: nat)
    requires Inv(s) && objects.Within(|s.hist|)
    ensures Inv(s.(objects := objects, phantoms := phantoms))
  {
    hide Trace, RecordsApplied, RestIsSteady, LineageSeen, OnlyTopology, Covers;
  }

  /** Moving the list cache; a list that lags gives up the guarantee about generations. */
  lemma ReadConfigs(s: Sys, v: nat, staleLists: nat, missed: nat)
    requires Inv(s) && s.configView <= v < |s.hist| && missed >= s.missed
    ensures Inv(s.(configView := v, staleLists := staleLists, missed := missed))
  {
    hide Trace, RecordsApplied, RestIsSteady, Covers;
    ViewAdvances(s.hist, s.configView, v);
  }

  lemma ViewAdvances(h: seq<World>, v: nat, v': nat)
    requires v <= v' < |h| && LineageSeen(h, v)
    ensures LineageSeen(h, v')
  {
    assert Growing(h, v) ==> Top(KeysAt(h, v)) <= Top(KeysAt(h, v'));
  }

  /** The list the operator last got showed the store empty, and it has been empty since. */
  predicate SeenEmpty(s: Sys) {
    forall i :: s.configView <= i < |s.hist| ==> s.hist[i].configs == map[]
  }

  /** Then a new lineage begins. */
  lemma LineageRestarts(s: Sys)
    requires Inv(s) && SeenEmpty(s)
    ensures Legal(Live(s), SawEmpty) && Inv(Push(s, SawEmpty))
    ensures Live(Push(s, SawEmpty)) == Live(s).(intact := true)
  {
    hide Trace, RecordsApplied, RestIsSteady;
    RecordsAppliedNext(s.hist, Apply(Live(s), SawEmpty));
    PushTrace(s, SawEmpty);
    RestKept(s, SawEmpty);
    var s' := Push(s, SawEmpty);
    assert forall i :: s.configView <= i < |s'.hist| ==> KeysAt(s'.hist, i) == {};
  }

  // ----- events that leave the configs, the spec and the status alone -----

  ghost predicate SameConfigs(m: map<nat, Config>, m': map<nat, Config>) {
    m.Keys == m'.Keys && Subconfigs(m', m)
  }

  ghost predicate Neutral(w: World, w': World) {
    && SameConfigs(w.configs, w'.configs)
    && w'.cluster.status == w.cluster.status && w'.specs == w.specs
    && w'.intact == w.intact && w'.lock == w.lock
  }

  lemma NeutralKeepsInv(s: Sys, e: Event)
    requires Inv(s) && Legal(Live(s), e) && Neutral(Live(s), Apply(Live(s), e)) && !e.Edited?
    ensures Inv(Push(s, e))
  {
    hide Trace, RecordsApplied, RestIsSteady, Legal, Apply, LineageSeen;
    RecordsAppliedNext(s.hist, Apply(Live(s), e));
    PushTrace(s, e);
    RestKept(s, e);
    var s' := Push(s, e);
    KeysCarryOver(s.hist, Live(s'), s.configView);
    assert forall k :: k in Live(s').configs ==> SameIdentity(Live(s').configs[k], Live(s).configs[k]);
  }

  lemma KeysCarryOver(h: seq<World>, w: World, view: nat)
    requires view < |h| && LineageSeen(h, view)
    requires w.configs.Keys == h[|h| - 1].configs.Keys && w.intact == h[|h| - 1].intact
    ensures LineageSeen(h + [w], view)
  {
    var n, h' := |h|, h + [w];
    assert forall i :: 0 <= i < n ==> KeysAt(h', i) == KeysAt(h, i);
    assert KeysAt(h', n) == KeysAt(h, n - 1);
  }

  // ----- the user -----

  lemma EditKeepsInv(s: Sys, spec: Spec)
    requires Inv(s) && Admits(Live(s).cluster, spec) && spec != Live(s).cluster.spec
    requires Live(s).cluster.generation < MAX_INT64
    ensures Legal(Live(s), Edited(spec, Steady(s), s.configView)) && Inv(EditedBy(s, spec))
  {
    hide Trace, RecordsApplied, RestIsSteady, LineageSeen, ConfigsSound, Covers, ValidSpec, LockPrimaries, LockReplicas,
      Agrees, AtRest;
    var e := Edited(spec, Steady(s), s.configView);
    RecordsAppliedNext(s.hist, Apply(Live(s), e));
    PushTrace(s, e);
    if AtRest(s.hist, |s.log|, s.configView) {
      RestIsSteadyNow(s);
    }
    RestKept(s, e);
    SeenIsPast(s, s.clusterView);
    KeysCarryOver(s.hist, Apply(Live(s), e), s.configView);
  }

  lemma RestIsSteadyNow(s: Sys)
    requires Inv(s) && AtRest(s.hist, |s.hist| - 1, s.configView)
    ensures Steady(s)
  {
    hide Inv;
    var k :| SoleConfig(s.hist, |s.hist| - 1, s.configView, k);
    SoleAppliedConfigIsSteady(s, k);
  }

  /** The plain form of being at rest: one config, applied and recorded, for the live generation, and
      since the operator's list the newest and applied while there were others. */
  lemma SoleAppliedConfigIsSteady(s: Sys, k: nat)
    requires Inv(s) && !Live(s).cluster.spec.ephemeral && Live(s).cluster.spec.primaries > 0
    requires Live(s).configs.Keys == {k}
    requires forall i :: s.configView <= i < |s.hist| ==> SoleOrNewest(s.hist[i].configs, k)
    requires Live(s).configs[k].generation == Live(s).cluster.generation
    requires Live(s).configs[k].status.configPhase == Applied
    requires Live(s).cluster.status.LastApplied() == Live(s).configs[k].spec.Topo()
    ensures Steady(s)
  {
    hide Inv, Trace, OnlyTopology, SpecsSound;
    InvIsTrace(s);
    NewestSpecSeen(s, k);
    forall i | s.configView <= i < |s.hist|
      ensures s.hist[i].configs[k].spec == Live(s).configs[k].spec
    {
      SameConfigSinceView(s, k, i);
    }
    OneTopology(s, k, Live(s).cluster.spec.Topo());
  }

  lemma InvIsTrace(s: Sys)
    requires Inv(s)
    ensures Trace(s.hist, s.log) && RecordsApplied(s.hist) && RestIsSteady(s.hist, s.log)
  {
    hide Trace, RecordsApplied, RestIsSteady;
  }

  /** A config for the live generation tells that the operator has seen that generation. */
  lemma NewestSpecSeen(s: Sys, k: nat)
    requires Inv(s) && k in Live(s).configs && Live(s).configs[k].generation == Live(s).cluster.generation
    ensures SpecsSound(Live(s)) && SeenCluster(s).generation == |Live(s).specs|
    ensures Live(s).configs[k].spec.Topo() == Live(s).cluster.spec.Topo()
  {
    hide Trace, RecordsApplied, RestIsSteady, LineageSeen, NothingLost, OnlyTopology;
    SeenIsPast(s, s.clusterView);
    assert IsSnapshot(Live(s).specs, k, Live(s).configs[k]);
  }

  lemma OneTopology(s: Sys, k: nat, t: Topology)
    requires Shaped(s) && SpecsSound(Live(s)) && Live(s).cluster.spec.Topo() == t && t.primaries > 0
    requires SeenCluster(s).generation == |Live(s).specs| && Live(s).configs.Keys == {k}
    requires forall i :: s.configView <= i < |s.hist| ==>
               SoleOrNewest(s.hist[i].configs, k) && s.hist[i].configs[k].spec.Topo() == t
    ensures OnlyTopology(s.hist, s.clusterView, s.configView, t)
  {
    hide LeadsTo, AllFit, SoleOrNewest;
    assert SoleOrNewest(Live(s).configs, k) && Live(s).configs[k].spec.Topo() == t;
    SoleFits(Live(s).configs, k, t);
    forall i | s.configView <= i < |s.hist|
      ensures LeadsTo(s.hist[i].configs, t)
    {
      assert SoleOrNewest(s.hist[i].configs, k);
      SoleFits(s.hist[i].configs, k, t);
    }
  }

  lemma SoleFits(m: map<nat, Config>, k: nat, t: Topology)
    requires SoleOrNewest(m, k) && m[k].spec.Topo() == t && t.primaries > 0
    ensures LeadsTo(m, t) && (m.Keys == {k} ==> AllFit(m, t))
  {
    assert forall j :: j in m <==> j in m.Keys;
    assert m.Keys == {k} || SettledOn(m[k], t);
  }

  /** While a sequence number stays live it names the same config. */
  lemma {:induction false} SameConfigSinceView(s: Sys, k: nat, i: nat)
    requires Shaped(s) && Trace(s.hist, s.log) && i < |s.hist|
    requires forall j :: i <= j < |s.hist| ==> k in s.hist[j].configs
    ensures SameIdentity(s.hist[i].configs[k], Live(s).configs[k])
    decreases |s.hist| - i
  {
    hide Trace, RecordsApplied, RestIsSteady, Compute;
    if i < |s.hist| - 1 {
      SameConfigSinceView(s, k, i + 1);
      TraceStep(s.hist, s.log, i);
      assert k in s.hist[i + 1].configs;
    }
  }

  // ----- the operator -----

  /** With a list that may lag, the next sequence number is either taken or the very next. */
  lemma NextSequence(h: seq<World>, view: nat)
    requires view < |h| && LineageSeen(h, view) && h[|h| - 1].intact
    ensures var k := Top(KeysAt(h, view)) + 1;
            k in KeysAt(h, |h| - 1) || k == Top(KeysAt(h, |h| - 1)) + 1
  {
    var n := |h| - 1;
    assert Top(KeysAt(h, view)) <= Top(KeysAt(h, n));
  }

  lemma CreateKeepsLineage(h: seq<World>, view: nat, w: World, k: nat)
    requires view < |h| && LineageSeen(h, view) && k == Top(KeysAt(h, view)) + 1
    requires w.configs.Keys == h[|h| - 1].configs.Keys + {k} && w.intact == h[|h| - 1].intact
    requires k !in h[|h| - 1].configs
    ensures LineageSeen(h + [w], view)
  {
    hide LineageSeen;
    var n, h' := |h|, h + [w];
    assert forall i :: 0 <= i < n ==> KeysAt(h', i) == KeysAt(h, i);
    assert KeysAt(h', n) == KeysAt(h, n - 1) + {k};
    if w.intact {
      NextSequence(h, view);
      LineageAppends(h, h', view, k);
    } else {
      NoLineage(h', view);
    }
  }

  lemma NoLineage(h: seq<World>, view: nat)
    requires view < |h| && !h[|h| - 1].intact
    ensures LineageSeen(h, view)
  {
  }

  ghost predicate Appends(h: seq<World>, h': seq<World>, k: nat) {
    && h != [] && |h'| == |h| + 1 && k == Top(KeysAt(h, |h| - 1)) + 1
    && (forall i :: 0 <= i < |h| ==> KeysAt(h', i) == KeysAt(h, i))
    && KeysAt(h', |h|) == KeysAt(h, |h| - 1) + {k}
  }

  lemma LineageAppends(h: seq<World>, h': seq<World>, view: nat, k: nat)
    requires Appends(h, h', k) && view < |h| && LineageSeen(h, view) && h[|h| - 1].intact
    ensures LineageSeen(h', view)
  {
    hide Growing, Filled, Rooted;
    AppendGrows(h, h', view, k);
    AppendFills(h, h', view, k);
    AppendRoots(h, h', view, k);
  }

  lemma AppendGrows(h: seq<World>, h': seq<World>, view: nat, k: nat)
    requires Appends(h, h', k) && Growing(h, view)
    ensures Growing(h', view)
  {
    TopIs(KeysAt(h', |h|), k);
    forall i, j | view <= i <= j < |h'|
      ensures Top(KeysAt(h', i)) <= Top(KeysAt(h', j))
    {
      assert i < |h| ==> Top(KeysAt(h, i)) <= Top(KeysAt(h, |h| - 1));
    }
  }

  lemma AppendFills(h: seq<World>, h': seq<World>, view: nat, k: nat)
    requires Appends(h, h', k) && view < |h| && Filled(h, view)
    ensures Filled(h', view)
  {
    TopIs(KeysAt(h', |h|), k);
  }

  lemma AppendRoots(h: seq<World>, h': seq<World>, view: nat, k: nat)
    requires Appends(h, h', k) && view < |h| && Growing(h, view) && Rooted(h, view)
    ensures Rooted(h', view)
  {
    TopIs(KeysAt(h', |h|), k);
    forall i, j | view <= i < |h'| && j in KeysAt(h', |h|) && j <= Top(KeysAt(h', i))
      ensures j in KeysAt(h', i)
    {
      assert i < |h| ==> Top(KeysAt(h, i)) <= Top(KeysAt(h, |h| - 1));
    }
  }

  lemma CreateIsLegal(s: Sys, k: nat)
    requires Inv(s) && k == Top(SeenConfigs(s).Keys) + 1 && k !in Live(s).configs
    ensures var e := CreatedConfig(SeenCluster(s).generation, k);
            && Legal(Live(s), e)
            && Apply(Live(s), e)
               == Live(s).(configs :=
                    Live(s).configs[k := BuildConfig(SeenCluster(s).spec, SeenCluster(s).generation, k)])
            && (Live(s).lock.Some? ==> Fits(SeenCluster(s).spec.Topo(), Live(s).lock.value))
  {
    hide Trace, RecordsApplied, RestIsSteady, LineageSeen, ConfigsSound, SchemaValid;
    SeenIsPast(s, s.clusterView);
    if Live(s).intact {
      NextSequence(s.hist, s.configView);
    }
  }

  lemma CreateKeepsInv(s: Sys, k: nat)
    requires Inv(s) && k == Top(SeenConfigs(s).Keys) + 1 && k !in Live(s).configs
    requires s.missed == 0 ==> ShowsNewest(SeenConfigs(s), Live(s).configs)
    ensures var e := CreatedConfig(SeenCluster(s).generation, k);
            && Legal(Live(s), e)
            && Inv(Push(s, e))
            && Live(Push(s, e)).configs
               == Live(s).configs[k := BuildConfig(SeenCluster(s).spec, SeenCluster(s).generation, k)]
  {
    hide Trace, RecordsApplied, RestIsSteady, LineageSeen, Legal, Apply;
    CreateIsLegal(s, k);
    var e := CreatedConfig(SeenCluster(s).generation, k);
    RecordsAppliedNext(s.hist, Apply(Live(s), e));
    PushTrace(s, e);
    RestKept(s, e);
    var s' := Push(s, e);
    assert Live(s').configs.Keys == Live(s).configs.Keys + {k};
    CreateKeepsLineage(s.hist, s.configView, Live(s'), k);
    if s.missed == 0 {
      ShowsNewestTop(SeenConfigs(s), Live(s).configs);
      TopIs(Live(s').configs.Keys, k);
    }
  }

  lemma DropKeepsLineage(h: seq<World>, view: nat, w: World, k: nat)
    requires view < |h| && LineageSeen(h, view) && k < Top(KeysAt(h, view))
    requires w.configs.Keys == h[|h| - 1].configs.Keys - {k} && w.intact == h[|h| - 1].intact
    ensures LineageSeen(h + [w], view)
    ensures w.intact ==> Top(KeysAt(h, view)) in h[|h| - 1].configs
  {
    var n, h' := |h|, h + [w];
    if w.intact {
      assert Top(KeysAt(h, view)) <= Top(KeysAt(h, n - 1));
      assert Top(KeysAt(h, view)) in KeysAt(h, n - 1);
      assert forall i :: 0 <= i < n ==> KeysAt(h', i) == KeysAt(h, i);
      assert KeysAt(h', n) == KeysAt(h, n - 1) - {k};
      TopIs(KeysAt(h', n), Top(KeysAt(h, n - 1)));
    }
  }

  lemma TopologyCarries(h: seq<World>, w: World, clusterView: nat, configView: nat, t: Topology)
    requires clusterView < |h| && configView < |h| && OnlyTopology(h, clusterView, configView, t)
    requires w.specs == h[|h| - 1].specs
    requires forall k :: k in w.configs ==> k in h[|h| - 1].configs && w.configs[k] == h[|h| - 1].configs[k]
    ensures OnlyTopology(h + [w], clusterView, configView, t)
  {
    hide NewestIs;
    var h' := h + [w];
    assert AllFit(w.configs, t);
    forall i | configView <= i < |h'|
      ensures LeadsTo(h'[i].configs, t)
    {
      assert i < |h| ==> h'[i] == h[i];
    }
  }

  /** Ordinary cleanup of a config the operator listed below one it saw applied. */
  lemma DropKeepsInv(s: Sys, k: nat)
    requires Inv(s) && k in Live(s).configs && k < Top(SeenConfigs(s).Keys)
    requires Live(s).intact ==> forall j :: j in Live(s).configs ==> j >= k
    requires s.missed == 0 ==> exists j :: j in Live(s).configs && j > k
    ensures Legal(Live(s), DroppedConfig(k)) && Inv(Push(s, DroppedConfig(k)))
  {
    hide Trace, RecordsApplied, RestIsSteady, LineageSeen, OnlyTopology;
    var s' := Push(s, DroppedConfig(k));
    assert Live(s').configs.Keys == Live(s).configs.Keys - {k};
    DropKeepsLineage(s.hist, s.configView, Live(s'), k);
    RecordsAppliedNext(s.hist, Apply(Live(s), DroppedConfig(k)));
    PushTrace(s, DroppedConfig(k));
    RestKept(s, DroppedConfig(k));
    if Live(s).lock.Some? {
      TopologyCarries(s.hist, Live(s'), s.clusterView, s.configView, Live(s).lock.value);
    }
    if s.missed == 0 {
      var j :| j in Live(s).configs && j > k;
      TopIs(Live(s').configs.Keys, Top(Live(s).configs.Keys));
    }
  }

  /** Full cleanup, which the operator only does for a Redkey it sees at zero primaries. */
  lemma WipeKeepsInv(s: Sys, k: nat)
    requires Inv(s) && k in Live(s).configs && RobinGone(Live(s)) && SeenCluster(s).spec.primaries == 0
    ensures Legal(Live(s), WipedConfig(k)) && Inv(Push(s, WipedConfig(k)))
  {
    hide Trace, RecordsApplied, RestIsSteady;
    RecordsAppliedNext(s.hist, Apply(Live(s), WipedConfig(k)));
    PushTrace(s, WipedConfig(k));
    RestKept(s, WipedConfig(k));
  }

  /** What a status write records was applied in the state the operator listed. */
  lemma StatusRecordsApplied(s: Sys, writer: Writer, k: nat)
    requires Shaped(s) && RecordsApplied(s.hist)
    requires writer.Aggregation? ==> k in SeenConfigs(s) && writer.active == SeenConfigs(s)[k]
    ensures RecordsApplied(s.hist + [Apply(Live(s), WroteStatus(writer))])
  {
    hide RecordsApplied, AggregatedConditions, SetAll, ComputePhase;
    if Records(writer, Live(s).cluster) {
      assert AppliedAt(s.hist, s.configView, |s.hist| - 1, k, writer.active.spec.Topo());
    }
    RecordsAppliedNext(s.hist, Apply(Live(s), WroteStatus(writer)));
  }

  lemma StatusKeepsInv(s: Sys, writer: Writer, k: nat)
    requires Inv(s) && SchemaValid(Compute(writer, Live(s).cluster))
    requires Live(s).cluster.status.observedGeneration <= writer.observed <= SeenCluster(s).generation
    requires s.missed == 0 && SeenCluster(s).generation == writer.observed && SeenCluster(s).spec.primaries > 0
             ==> Covers(Live(s).configs, writer.observed)
    requires writer.Aggregation? ==> Chosen(SeenConfigs(s), k) && writer.active == SeenConfigs(s)[k]
    ensures Legal(Live(s), WroteStatus(writer)) && Inv(Push(s, WroteStatus(writer)))
  {
    hide Trace, RecordsApplied, RestIsSteady, AggregatedConditions, SetAll, ComputePhase, LineageSeen, ConfigsSound,
      Chosen, LeadsTo;
    SeenIsPast(s, s.clusterView);
    if writer.Aggregation? && Live(s).lock.Some? {
      ChosenFits(SeenConfigs(s), k, Live(s).lock.value);
    }
    StatusRecordsApplied(s, writer, k);
    PushTrace(s, WroteStatus(writer));
    RestKept(s, WroteStatus(writer));
    KeysCarryOver(s.hist, Apply(Live(s), WroteStatus(writer)), s.configView);
  }
}
