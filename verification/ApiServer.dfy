/** The API server as the operator reaches it: one method per call. Before each call the
    environment may take any number of steps, a call may fail before or after taking effect, and
    a read may lag; `quiet` switches all of that off. */
module ApiServers {
  import opened Types
  import opened Identity
  import opened Robin
  import opened Admission
  import opened Protocol
  import opened Views

  datatype Reply = Done | AlreadyExists | NotFound | Conflict | Failed

  /** What the environment leaves alone: which configs exist and what they ask for, which Robin
      objects exist, and the Redkey's status. */
  ghost predicate Calm(w: World, w': World) {
    && SameConfigs(w.configs, w'.configs)
    && SameRobin(w, w')
    && w.cluster.status == w'.cluster.status && w.intact == w'.intact
  }

  ghost predicate SameRobin(w: World, w': World) {
    w.rbac.Keys == w'.rbac.Keys && w.deployment.Some? == w'.deployment.Some?
  }

  /** Only the environment acted between `s` and `s'`. */
  ghost predicate EnvOnly(s: Sys, s': Sys) {
    && Shaped(s) && Shaped(s')
    && s.hist <= s'.hist
    && s' == s.(hist := s'.hist, log := s'.log)
    && Calm(Live(s), Live(s'))
  }

  /** The operator's reads are where they were. */
  ghost predicate SameViews(s: Sys, s': Sys) {
    && Shaped(s) && Shaped(s')
    && SeenCluster(s) == SeenCluster(s') && SeenConfigs(s) == SeenConfigs(s')
    && s.staleLists == s'.staleLists && s.missed == s'.missed
  }

  /** The operator worked on Robin's objects only. */
  ghost predicate OnlyRobin(s: Sys, s': Sys) {
    && SameViews(s, s') && s.phantoms <= s'.phantoms
    && SameConfigs(Live(s).configs, Live(s').configs)
    && Live(s).cluster.status == Live(s').cluster.status
  }

  lemma OnlyRobinComposes(s: Sys, s': Sys, s'': Sys)
    requires OnlyRobin(s, s') && OnlyRobin(s', s'')
    ensures OnlyRobin(s, s'')
  {
  }

  /** `b` is a read of the Redkey not older than `a`. */
  ghost predicate NotBefore(a: Redkey, b: Redkey) {
    a.generation <= b.generation && (a.generation == b.generation ==> a.spec == b.spec)
  }

  /** `k` is the one key that is new in `m'`. */
  ghost predicate Grown(m: map<nat, Config>, m': map<nat, Config>, k: nat, c: Config) {
    k !in m && m'.Keys == m.Keys + {k} && m'[k] == c && forall j :: j in m ==> SameIdentity(m'[j], m[j])
  }

  /** `k` is the one key that is gone from `m'`. */
  ghost predicate Shrunk(m: map<nat, Config>, m': map<nat, Config>, k: nat) {
    k in m && m'.Keys == m.Keys - {k} && Subconfigs(m', m)
  }

  class ApiServer {
    var s: Sys
    var quiet: bool

    constructor (name: string, namespace: string, spec: Spec)
      requires ValidSpec(spec)
      ensures Inv(s) && !quiet && s.log == [] && Live(s).cluster.spec == spec
      ensures s.staleLists == s.missed == s.phantoms == 0
    {
      var w := World(Redkey(name, namespace, 1, 1, spec, FRESH_STATUS), map[], map[], None, [spec], true, None);
      s := Sys([w], [], 0, 0, ObjectViews(0, 0, 0, 0), 0, 0, 0);
      quiet := false;
    }

    // ----- the environment -----

    /** One step of the user, of Robin or of anybody else, if the API server accepts it. */
    method EnvStep(e: Event)
      requires Inv(s)
      modifies `s
      ensures Inv(s) && EnvOnly(old(s), s)
      ensures e.RobinWrote? && e.sequence in Live(old(s)).configs ==> s == Push(old(s), e)
      ensures e.Tampered? && SameRobin(Live(old(s)), Live(old(s)).(rbac := e.rbac, deployment := e.deployment)) ==>
                s == Push(old(s), e)
      ensures e.Edited? ==>
                s == if Accepts(Live(old(s)).cluster, e.spec) then EditedBy(old(s), e.spec) else old(s)
    {
      hide Trace, RecordsApplied, RestIsSteady, LineageSeen, OnlyTopology, NothingLost, ObservedWasSeen;
      var w := Live(s);
      match e
      case Edited(spec, _, _) =>
        if Accepts(w.cluster, spec) {
          EditKeepsInv(s, spec);
          s := EditedBy(s, spec);
        }
      case Touched =>
        NeutralKeepsInv(s, e);
        s := Push(s, e);
      case RobinWrote(k, _) =>
        if k in w.configs {
          NeutralKeepsInv(s, e);
          s := Push(s, e);
        }
      case Tampered(rbac, d) =>
        if rbac.Keys == w.rbac.Keys && d.Some? == w.deployment.Some? {
          NeutralKeepsInv(s, e);
          s := Push(s, e);
        }
      case _ =>
    }

    method Interfere()
      requires Inv(s)
      modifies `s
      ensures Inv(s) && EnvOnly(old(s), s)
      ensures quiet ==> s == old(s)
    {
      hide Trace, RecordsApplied, RestIsSteady, LineageSeen, OnlyTopology, NothingLost, ObservedWasSeen;
      if quiet {
        return;
      }
      var n: nat :| n >= 0;
      for i := 0 to n
        invariant Inv(s) && EnvOnly(old(s), s)
      {
        var e: Event := *;
        EnvStep(e);
      }
    }

    /** Whether the call reaches the server, and whether its answer reaches the operator. */
    method Weather() returns (reached: bool, answered: bool)
      ensures quiet ==> reached && answered
    {
      reached, answered := *, *;
      reached, answered := quiet || reached, quiet || answered;
    }

    /** A state the cache may return: not older than the one it returned last. */
    method CacheView(from: nat) returns (v: nat)
      requires from < |s.hist|
      ensures from <= v < |s.hist|
      ensures quiet ==> v == |s.hist| - 1
    {
      var lag: nat :| lag >= 0;
      v := if quiet || lag >= |s.hist| - from then |s.hist| - 1 else |s.hist| - 1 - lag;
    }

    // ----- the Redkey -----

    method GetCluster() returns (r: Option<Redkey>)
      requires Inv(s)
      modifies `s
      ensures Inv(s) && Calm(Live(old(s)), Live(s))
      ensures SeenConfigs(s) == SeenConfigs(old(s))
      ensures s.staleLists == old(s).staleLists && s.phantoms == old(s).phantoms
      ensures s.missed == MissedFrom(old(s), SeenCluster(s).generation)
      ensures NotBefore(SeenCluster(old(s)), SeenCluster(s))
      ensures r.Some? ==> r.value == SeenCluster(s)
      ensures quiet ==> r == Some(Live(s).cluster) && Live(s) == Live(old(s)) && s.log == old(s).log
    {
      hide Trace, RecordsApplied, RestIsSteady, LineageSeen, OnlyTopology, NothingLost, ObservedWasSeen, ConfigsSound;
      Interfere();
      var reached, answered := Weather();
      if !reached || !answered {
        return None;
      }
      var v := CacheView(s.clusterView);
      ReadCluster(s, v);
      SeenOrder(s, s.clusterView, v);
      s := s.(clusterView := v, missed := MissedFrom(s, s.hist[v].cluster.generation));
      r := Some(SeenCluster(s));
    }

    /** Status().Update with the object read last: it succeeds only if that object is still the
        live one, so the status is written over exactly the status it was computed from. */
    method UpdateStatus(obj: Redkey, writer: Writer) returns (r: Reply)
      requires Inv(s) && obj == SeenCluster(s).(status := Compute(writer, SeenCluster(s)))
      requires Live(s).cluster.status.observedGeneration <= writer.observed <= SeenCluster(s).generation
      requires s.missed == 0 && SeenCluster(s).generation == writer.observed && SeenCluster(s).spec.primaries > 0
               ==> Covers(Live(s).configs, writer.observed)
      requires writer.Aggregation? ==> MayTake(SeenConfigs(s), writer.active)
      modifies `s
      ensures Inv(s) && SameViews(old(s), s) && s.phantoms == old(s).phantoms
      ensures SameConfigs(Live(old(s)).configs, Live(s).configs) && SameRobin(Live(old(s)), Live(s))
      ensures Live(s).intact == Live(old(s)).intact
      ensures r in {Done, Conflict, Failed}
      ensures r == Done ==> Overwritten(Live(old(s)).cluster, SeenCluster(s), obj, Live(s).cluster)
      ensures r == Conflict ==> Live(s).cluster.status == Live(old(s)).cluster.status
      ensures r == Failed ==> || Live(s).cluster.status == Live(old(s)).cluster.status
                              || Overwritten(Live(old(s)).cluster, SeenCluster(s), obj, Live(s).cluster)
      ensures quiet && SeenCluster(s) == Live(old(s)).cluster ==>
                if SchemaValid(obj.status)
                then && r == Done && Live(s) == Live(old(s)).(cluster := Live(s).cluster)
                     && s.log == old(s).log + [WroteStatus(writer)]
                else r == Failed && s == old(s)
    {
      hide Trace, RecordsApplied, RestIsSteady, LineageSeen, OnlyTopology, NothingLost, ObservedWasSeen, Compute, Legal,
        Apply, Covers, ConfigsSound, SpecsSound, Chosen;
      ghost var k: nat :| writer.Aggregation? ==> Chosen(SeenConfigs(s), k) && SeenConfigs(s)[k] == writer.active;
      Interfere();
      CoversCarries(Live(old(s)).configs, Live(s).configs, writer.observed);
      var reached, answered := Weather();
      if !reached {
        return Failed;
      }
      if obj.resourceVersion != Live(s).cluster.resourceVersion {
        return Conflict;
      }
      SeenIsPast(s, s.clusterView);
      if !SchemaValid(obj.status) {
        return Failed;
      }
      StatusKeepsInv(s, writer, k);
      StatusOnlyWritten(Live(s), writer);
      s := Push(s, WroteStatus(writer));
      r := if answered then Done else Failed;
    }

    // ----- configs -----

    /** Every config of the cluster, in no particular order. */
    method List() returns (r: Option<map<nat, Config>>)
      requires Inv(s)
      modifies `s
      ensures Inv(s) && SeenCluster(s) == SeenCluster(old(s))
      ensures s.phantoms == old(s).phantoms
      ensures Live(s).cluster.status == Live(old(s)).cluster.status
      ensures SameConfigs(Live(old(s)).configs, Live(s).configs) && SameRobin(Live(old(s)), Live(s))
      ensures old(s).staleLists <= s.staleLists && old(s).missed <= s.missed
      ensures r.Some? ==>
                && r.value == SeenConfigs(s)
                && (forall k :: k in r.value ==> r.value[k].spec.sequence == k && r.value[k].generation <= MAX_INT64)
                && (s.staleLists == old(s).staleLists ==> r.value == Live(s).configs)
                && (s.missed == old(s).missed ==> ShowsNewest(r.value, Live(s).configs))
                && (Live(s).intact <==> Live(old(s)).intact || SeenEmpty(s))
      ensures r == None ==> Live(s).intact == Live(old(s)).intact
      ensures quiet ==>
                && r.Some? && s.staleLists == old(s).staleLists && s.missed == old(s).missed
                && Live(s) == Live(old(s)).(intact := Live(s).intact)
                && (Live(s).configs != map[] ==> s.log == old(s).log && Live(s) == Live(old(s)))
    {
      hide Trace, RecordsApplied, RestIsSteady, LineageSeen, OnlyTopology, NothingLost, ObservedWasSeen, Legal, Apply,
        ConfigsSound, SpecsSound, Later, ShowsNewest;
      Interfere();
      var reached, answered := Weather();
      if !reached || !answered {
        return None;
      }
      var v := CacheView(s.configView);
      var seen := s.hist[v].configs;
      ShowsItself(seen);
      var staleLists := s.staleLists + if seen == Live(s).configs then 0 else 1;
      var missed := s.missed + if ShowsNewest(seen, Live(s).configs) then 0 else 1;
      ReadConfigs(s, v, staleLists, missed);
      s := s.(configView := v, staleLists := staleLists, missed := missed);
      if !Live(s).intact && SeenEmpty(s) {
        LineageRestarts(s);
        s := Push(s, SawEmpty);
      }
      ListedConfigsAreSound(s);
      r := Some(SeenConfigs(s));
    }

    method CreateConfig(c: Config) returns (r: Reply)
      requires Inv(s) && c.spec.sequence == Top(SeenConfigs(s).Keys) + 1
      requires c == BuildConfig(SeenCluster(s).spec, SeenCluster(s).generation, c.spec.sequence)
      requires s.missed == 0 ==> ShowsNewest(SeenConfigs(s), Live(s).configs)
      modifies `s
      ensures Inv(s) && SameViews(old(s), s) && s.phantoms == old(s).phantoms
      ensures SameRobin(Live(old(s)), Live(s)) && Live(s).cluster.status == Live(old(s)).cluster.status
      ensures r in {Done, AlreadyExists, Failed}
      ensures r == AlreadyExists ==> c.spec.sequence in Live(old(s)).configs
      ensures r == Done ==> Grown(Live(old(s)).configs, Live(s).configs, c.spec.sequence, c)
      ensures r != Done ==> SameConfigs(Live(old(s)).configs, Live(s).configs)
                            || (r == Failed && Grown(Live(old(s)).configs, Live(s).configs, c.spec.sequence, c))
      ensures quiet ==> r != Failed
      ensures quiet ==>
                var m := Live(old(s)).configs;
                Live(s) == Live(old(s)).(configs := if r == Done then m[c.spec.sequence := c] else m)
    {
      hide Trace, RecordsApplied, RestIsSteady, LineageSeen, OnlyTopology, NothingLost, ObservedWasSeen, Legal, Apply,
        BuildConfig, Grown, Subconfigs, ShowsNewest;
      Interfere();
      var k := c.spec.sequence;
      var reached, answered := Weather();
      if !reached {
        return Failed;
      }
      if k in Live(s).configs {
        return AlreadyExists;
      }
      ShowsNewestCarries(SeenConfigs(s), Live(old(s)).configs, Live(s).configs);
      CreateKeepsInv(s, k);
      CreateOnlyAdds(s, k);
      GrownAfterCalm(Live(old(s)).configs, Live(s).configs, k, c);
      s := Push(s, CreatedConfig(SeenCluster(s).generation, k));
      r := if answered then Done else Failed;
    }

    /** Deletes a config that cleanup found superseded. */
    method DropConfig(k: nat) returns (r: Reply)
      requires Inv(s) && k < Top(SeenConfigs(s).Keys)
      requires Live(s).intact ==> forall j :: j in Live(s).configs ==> j >= k
      requires s.missed == 0 ==> exists j :: j in Live(s).configs && j > k
      modifies `s
      ensures Inv(s) && AtMostDropped(old(s), s, k)
      ensures r in {Done, NotFound, Failed}
      ensures r != Failed ==> k !in Live(s).configs && (r == NotFound <==> k !in Live(old(s)).configs)
      ensures quiet ==> r != Failed && Live(s) == Live(old(s)).(configs := Live(old(s)).configs - {k})
    {
      hide Trace, RecordsApplied, RestIsSteady, LineageSeen, OnlyTopology, NothingLost, ObservedWasSeen, Legal, Compute,
        Shrunk, Subconfigs;
      Interfere();
      var reached, answered := Weather();
      if !reached {
        return Failed;
      }
      if k !in Live(s).configs {
        assert Live(s).configs - {k} == Live(s).configs;
        return NotFound;
      }
      DropKeepsInv(s, k);
      ShrunkAfterCalm(Live(old(s)).configs, Live(s).configs, k);
      s := Push(s, DroppedConfig(k));
      r := if answered then Done else Failed;
    }

    /** Deletes a config during full cleanup. */
    method WipeConfig(k: nat) returns (r: Reply)
      requires Inv(s) && RobinGone(Live(s)) && SeenCluster(s).spec.primaries == 0
      modifies `s
      ensures Inv(s) && SameViews(old(s), s) && s.phantoms == old(s).phantoms
      ensures RobinGone(Live(s)) && Live(s).cluster.status == Live(old(s)).cluster.status
      ensures r in {Done, NotFound, Failed}
      ensures r == NotFound ==> k !in Live(old(s)).configs
      ensures r == Done ==> Shrunk(Live(old(s)).configs, Live(s).configs, k)
      ensures r != Done ==> SameConfigs(Live(old(s)).configs, Live(s).configs)
                            || (r == Failed && Shrunk(Live(old(s)).configs, Live(s).configs, k))
      ensures quiet ==> r != Failed && Live(s).cluster == Live(old(s)).cluster
    {
      hide Trace, RecordsApplied, RestIsSteady, LineageSeen, OnlyTopology, NothingLost, ObservedWasSeen, Legal;
      Interfere();
      var reached, answered := Weather();
      if !reached {
        return Failed;
      }
      if k !in Live(s).configs {
        return NotFound;
      }
      WipeKeepsInv(s, k);
      s := Push(s, WipedConfig(k));
      r := if answered then Done else Failed;
    }

    // ----- Robin's objects -----

    /** Reads an RBAC object through its cache; absence is an answer too. */
    method GetRbac(kind: RbacKind) returns (r: Option<Option<RbacObject>>)
      requires Inv(s)
      modifies `s
      ensures Inv(s) && OnlyRobin(old(s), s) && SameRobin(Live(old(s)), Live(s))
      ensures s.phantoms == old(s).phantoms + if r.Some? && r.value.Some? && kind !in Live(s).rbac then 1 else 0
      ensures quiet ==>
                && r == Some(if kind in Live(s).rbac then Some(Live(s).rbac[kind]) else None)
                && Live(s) == Live(old(s)) && s.log == old(s).log
    {
      hide Trace, RecordsApplied, RestIsSteady, LineageSeen, OnlyTopology, NothingLost, ObservedWasSeen;
      Interfere();
      var reached, answered := Weather();
      if !reached || !answered {
        return None;
      }
      var v := CacheView(s.objects.Of(kind));
      var shown := s.hist[v].rbac;
      var phantoms := s.phantoms + if kind in shown && kind !in Live(s).rbac then 1 else 0;
      ReadObjects(s, s.objects.Moved(kind, v), phantoms);
      s := s.(objects := s.objects.Moved(kind, v), phantoms := phantoms);
      r := Some(if kind in shown then Some(shown[kind]) else None);
    }

    /** The same for the Deployment. */
    method GetDeployment() returns (r: Option<Option<Deployment>>)
      requires Inv(s)
      modifies `s
      ensures Inv(s) && OnlyRobin(old(s), s) && SameRobin(Live(old(s)), Live(s))
      ensures s.phantoms == old(s).phantoms + if r.Some? && r.value.Some? && Live(s).deployment == None then 1 else 0
      ensures quiet ==> r == Some(Live(s).deployment) && Live(s) == Live(old(s)) && s.log == old(s).log
    {
      hide Trace, RecordsApplied, RestIsSteady, LineageSeen, OnlyTopology, NothingLost, ObservedWasSeen;
      Interfere();
      var reached, answered := Weather();
      if !reached || !answered {
        return None;
      }
      var v := CacheView(s.objects.deployment);
      var shown := s.hist[v].deployment;
      var phantoms := s.phantoms + if shown.Some? && Live(s).deployment == None then 1 else 0;
      ReadObjects(s, s.objects.(deployment := v), phantoms);
      s := s.(objects := s.objects.(deployment := v), phantoms := phantoms);
      r := Some(shown);
    }

    /** Creates, patches or deletes a Robin object: `e` is the event if the server accepts. */
    method WriteRobin(e: Event, mustExist: bool) returns (r: Reply)
      requires Inv(s) && IsRobinEvent(e) && (e.DroppedRbac? || e.DroppedDeployment? ==> mustExist)
      modifies `s
      ensures Inv(s) && OnlyRobin(old(s), s) && s.phantoms == old(s).phantoms
      ensures r in {Done, AlreadyExists, NotFound, Failed}
      ensures (r == NotFound ==> mustExist) && (r == AlreadyExists ==> !mustExist)
      ensures r in {AlreadyExists, NotFound} ==>
                Targeted(Live(old(s)), e) != mustExist && SameRobin(Live(old(s)), Live(s))
      ensures r == Done ==> Targeted(Live(old(s)), e) == mustExist && RobinMoved(Live(old(s)), Live(s), e)
      ensures r == Failed ==> SameRobin(Live(old(s)), Live(s)) || RobinMoved(Live(old(s)), Live(s), e)
      ensures quiet ==> r != Failed && Live(s) == if r == Done then RobinApplied(Live(old(s)), e) else Live(old(s))
    {
      hide Trace, RecordsApplied, RestIsSteady, LineageSeen, OnlyTopology, NothingLost, ObservedWasSeen, Compute;
      Interfere();
      var reached, answered := Weather();
      if !reached {
        return Failed;
      }
      if mustExist != Targeted(Live(s), e) {
        return if mustExist then NotFound else AlreadyExists;
      }
      NeutralKeepsInv(s, e);
      s := Push(s, e);
      r := if answered then Done else Failed;
    }
  }

  /** `obj`, computed from the object read, is the live object now, and only environment steps
      that leave the status alone came between `before` and the one it replaced. */
  predicate Overwritten(before: Redkey, read: Redkey, obj: Redkey, after: Redkey) {
    read.status == before.status && after == obj.(resourceVersion := obj.resourceVersion + 1)
  }

  /** An edit that is admitted and makes a new generation. */
  predicate Accepts(cluster: Redkey, spec: Spec) {
    Admits(cluster, spec) && spec != cluster.spec && cluster.generation < MAX_INT64
  }

  function RobinApplied(w: World, e: Event): World
    requires IsRobinEvent(e)
  {
    match e
    case PutRbac(kind, o) => w.(rbac := w.rbac[kind := o])
    case DroppedRbac(kind) => w.(rbac := w.rbac - {kind})
    case PutDeployment(d) => w.(deployment := Some(d))
    case DroppedDeployment => w.(deployment := None)
  }

  /** Which objects exist after a Robin event. */
  ghost predicate RobinMoved(w: World, w': World, e: Event)
    requires IsRobinEvent(e)
  {
    w'.rbac.Keys == RobinApplied(w, e).rbac.Keys && w'.deployment.Some? == RobinApplied(w, e).deployment.Some?
  }

  predicate IsRobinEvent(e: Event) {
    e.PutRbac? || e.DroppedRbac? || e.PutDeployment? || e.DroppedDeployment?
  }

  /** The object a Robin event is about exists. */
  predicate Targeted(w: World, e: Event)
    requires IsRobinEvent(e)
  {
    match e
    case PutRbac(kind, _) => kind in w.rbac
    case DroppedRbac(kind) => kind in w.rbac
    case _ => w.deployment.Some?
  }

  lemma StatusOnlyWritten(w: World, writer: Writer)
    ensures var c := w.cluster;
            Apply(w, WroteStatus(writer))
            == w.(cluster := c.(status := Compute(writer, c), resourceVersion := c.resourceVersion + 1))
  {
    hide Compute;
  }

  /** At most config `k` is gone, and nothing else the operator relies on has changed. */
  ghost predicate AtMostDropped(s: Sys, s': Sys, k: nat) {
    && SameViews(s, s') && s.phantoms == s'.phantoms
    && SameRobin(Live(s), Live(s')) && Live(s).cluster.status == Live(s').cluster.status
    && Live(s).intact == Live(s').intact
    && (SameConfigs(Live(s).configs, Live(s').configs) || Shrunk(Live(s).configs, Live(s').configs, k))
  }

  lemma GrownAfterCalm(m: map<nat, Config>, m': map<nat, Config>, k: nat, c: Config)
    requires SameConfigs(m, m') && k !in m'
    ensures Grown(m, m'[k := c], k, c)
  {
  }

  lemma ShrunkAfterCalm(m: map<nat, Config>, m': map<nat, Config>, k: nat)
    requires SameConfigs(m, m') && k in m'
    ensures Shrunk(m, m' - {k}, k) && k !in m' - {k}
  {
  }

  lemma CreateOnlyAdds(s: Sys, k: nat)
    requires Inv(s)
    ensures var g := SeenCluster(s).generation;
            Live(Push(s, CreatedConfig(g, k)))
            == Live(s).(configs := Live(s).configs[k := BuildConfig(SeenCluster(s).spec, g, k)])
  {
    hide Trace, RecordsApplied, RestIsSteady, LineageSeen, ConfigsSound;
    SeenIsPast(s, s.clusterView);
  }

  lemma CoversCarries(m: map<nat, Config>, m': map<nat, Config>, g: nat)
    requires SameConfigs(m, m')
    ensures Covers(m, g) <==> Covers(m', g)
  {
    if m != map[] {
      assert SameIdentity(m'[Top(m.Keys)], m[Top(m.Keys)]);
    }
  }

  lemma ListedConfigsAreSound(s: Sys)
    requires Inv(s)
    ensures var m := SeenConfigs(s);
            forall k :: k in m ==> m[k].spec.sequence == k && m[k].generation <= MAX_INT64
  {
    hide Trace, RecordsApplied, RestIsSteady, LineageSeen, Later;
    SeenIsPast(s, s.configView);
    forall k | k in SeenConfigs(s)
      ensures SeenConfigs(s)[k].spec.sequence == k && SeenConfigs(s)[k].generation <= MAX_INT64
    {
      assert IsSnapshot(s.hist[s.configView].specs, k, SeenConfigs(s)[k]);
    }
  }
}
