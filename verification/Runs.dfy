/** Whole runs: a newly created Redkey, then any number of turns in which the environment acts or
    the operator reconciles, with every failure, lag and interleaving the API server allows. */
module Runs {
  import opened Types
  import opened Identity
  import opened Conditions
  import opened Robin
  import opened Admission
  import opened Protocol
  import opened Views
  import opened Selection
  import opened ApiServers
  import opened Reconcilers

  method Turns(operator: RedkeyReconciler)
    requires Inv(operator.client.s)
    modifies operator.client`s
    ensures Inv(operator.client.s)
  {
    hide Inv, NormalDone, ZeroDone;
    var n: nat :| n >= 0;
    for i := 0 to n
      invariant Inv(operator.client.s)
    {
      if * {
        var e: Event := *;
        operator.client.EnvStep(e);
      } else {
        var _, _ := operator.Reconcile();
      }
    }
  }

  method Start(name: string, namespace: string, spec: Spec) returns (operator: RedkeyReconciler)
    requires ValidSpec(spec)
    ensures fresh(operator) && fresh(operator.client) && !operator.client.quiet
    ensures Inv(operator.client.s)
  {
    hide Inv;
    var server := new ApiServer(name, namespace, spec);
    operator := new RedkeyReconciler(server);
  }

  /** Whatever the operator, the user, Robin and the API server do, the result is a run of the
      protocol, so the theorems of module Protocol hold of it; and in each of its states the
      recorded topology is that of a config which that state or an earlier one shows applied. */
  method AnyRun(name: string, namespace: string, spec: Spec) returns (s: Sys)
    requires ValidSpec(spec)
    ensures Inv(s) && Trace(s.hist, s.log) && RecordsApplied(s.hist)
  {
    hide Inv, RecordsApplied;
    var operator := Start(name, namespace, spec);
    Turns(operator);
    s := operator.client.s;
    InvIsTrace(s);
  }

  /** The newest config is for the live generation and carries exactly the live spec. */
  ghost predicate NewestIsLive(w: World) {
    w.configs != map[] &&
    var k := Top(w.configs.Keys);
    && w.configs[k].generation == w.cluster.generation
    && w.configs[k].spec.sequence == k && Carries(w.configs[k].spec, w.cluster.spec)
  }

  lemma CoveredIsLive(s: Sys)
    requires Inv(s) && Covers(Live(s).configs, Live(s).cluster.generation)
    ensures NewestIsLive(Live(s))
  {
    hide Trace, RecordsApplied, RestIsSteady, LineageSeen, OnlyTopology, NothingLost, Carries;
    SeenIsPast(s, s.clusterView);
    var m := Live(s).configs;
    assert IsSnapshot(Live(s).specs, Top(m.Keys), m[Top(m.Keys)]);
  }

  /** No generation is lost. After any run, a reconcile that succeeds on the generation that is live
      when it ends, and asks for primaries, leaves the newest config for that generation with that
      spec, if every list since the operator first read that generation showed the newest config.
      What lists showed before that does not matter. Whatever its list lacked, the status then is the
      report of the config selected from that list. */
  method NoLostGeneration(name: string, namespace: string, spec: Spec)
    returns (s: Sys, ok: bool, seen: Option<Redkey>)
    requires ValidSpec(spec)
    ensures Shaped(s) && Trace(s.hist, s.log) && (ok ==> seen.Some?)
    ensures ok ==>
              var c := seen.value;
              s.missed == 0 && c.spec.primaries > 0 && c.generation == Live(s).cluster.generation ==>
                NewestIsLive(Live(s))
    ensures ok && seen.value.spec.primaries > 0 && SeenConfigs(s) != map[] ==>
              Reported(Live(s).cluster, SeenConfigs(s), seen.value.generation)
  {
    hide Inv, RobinComplete, CalmDone, RecordKept, ZeroDone, NewestIsLive, Covers, Reported;
    var operator := Start(name, namespace, spec);
    Turns(operator);
    ok, seen := operator.Reconcile();
    s := operator.client.s;
    InvIsTrace(s);
    ObservedBound(s);
    if Covers(Live(s).configs, Live(s).cluster.generation) {
      CoveredIsLive(s);
    }
  }

  /** Robin outlives its work. After any run, a successful reconcile that leaves a config leaves
      Robin complete if and only if none of its reads showed an object of Robin's that was already
      gone. At zero primaries that needs a list that is up to date, or one that is not empty and did
      not lead to full cleanup. */
  method RobinOutlivesItsConfigs(name: string, namespace: string, spec: Spec)
    returns (before: Sys, s: Sys, ok: bool, seen: Option<Redkey>)
    requires ValidSpec(spec)
    ensures Shaped(s) && Trace(s.hist, s.log) && (ok ==> seen.Some?)
    ensures ok && Live(s).configs != map[] && (seen.value.spec.primaries > 0 || s.staleLists == before.staleLists) ==>
              (RobinComplete(Live(s)) <==> s.phantoms == before.phantoms)
    ensures ok && SeenConfigs(s) != map[] && !RobinGone(Live(s)) ==>
              (RobinComplete(Live(s)) <==> s.phantoms == before.phantoms)
  {
    hide Inv, RobinComplete, CalmDone, Progressed, Covers, ShowsZero, RecordKept, RobinGone;
    var operator := Start(name, namespace, spec);
    Turns(operator);
    before := operator.client.s;
    ok, seen := operator.Reconcile();
    s := operator.client.s;
    InvIsTrace(s);
  }

  /** A fixpoint. After any run, once nothing disturbs it and no call fails, a reconcile succeeds
      unless the schema refuses the topology it has to record. A successful one leaves the newest
      config for the live generation if every list since that generation was first read showed the
      newest config; in particular it recovers from a lost generation with the next edit. Without
      the revision key in the annotations, and after whatever Kubernetes then does to the Deployment, the next
      one only writes the same status with a new time stamp. */
  method SecondReconcileIsIdle(name: string, namespace: string, spec: Spec, run: seq<Deployment>)
    returns (before: Sys, ok: bool, s: Sys, touched: Sys, again: bool, s': Sys)
    requires ValidSpec(spec)
    ensures Shaped(before) && Shaped(s) && Shaped(touched) && Shaped(s') && Trace(s'.hist, s'.log)
    ensures var c := Live(before).cluster;
            && (c.spec.primaries > 0 && Recordable(Live(before)) ==> ok)
            && (c.spec.primaries > 0 && ok && MissedFrom(before, c.generation) == 0 ==> NewestIsLive(Live(s)))
            && (c.spec.primaries > 0 && ok && REVISION !in c.spec.annotations ==> Converged(Live(s)))
            && (c.spec.primaries > 0 && ok && REVISION !in c.spec.annotations && RunsOn(Live(s), run) ==>
                  && again && OneStatusWrite(touched, s')
                  && OnlyTimeMoved(Live(s).cluster.status, Live(s').cluster.status))
  {
    hide Inv, ZeroDone, RobinComplete, Current, RobinSettled, Covers, OneStatusWrite, Recordable, RecordKept, Stuck,
      NewestIsLive, KubernetesRun;
    var operator := Start(name, namespace, spec);
    Turns(operator);
    before := operator.client.s;
    operator.client.quiet := true;
    var seen;
    ok, seen := operator.Reconcile();
    s := operator.client.s;
    ObservedBound(s);
    if Covers(Live(s).configs, Live(s).cluster.generation) {
      CoveredIsLive(s);
    }
    KubernetesActs(operator.client, run);
    touched := operator.client.s;
    if Converged(Live(s)) && RunsOn(Live(s), run) {
      StillConverged(Live(s), Live(touched), run);
    }
    again, seen := operator.Reconcile();
    s' := operator.client.s;
    InvIsTrace(s');
  }

  /** `run` is what Kubernetes does to the Deployment of `w`, step by step. */
  ghost predicate RunsOn(w: World, run: seq<Deployment>) {
    w.deployment.Some? && KubernetesRun([w.deployment.value] + run)
  }

  function Touched(w: World, run: seq<Deployment>): World {
    if w.deployment == None || run == [] then w else w.(deployment := Some(run[|run| - 1]))
  }

  method KubernetesActs(server: ApiServer, run: seq<Deployment>)
    requires Inv(server.s)
    modifies server`s
    ensures Inv(server.s)
    ensures Live(server.s) == Touched(Live(old(server.s)), run)
  {
    hide Inv;
    if Live(server.s).deployment == None {
      return;
    }
    for i := 0 to |run|
      invariant Inv(server.s)
      invariant Live(server.s) == Touched(Live(old(server.s)), run[..i])
    {
      server.EnvStep(Tampered(Live(server.s).rbac, Some(run[i])));
      assert run[..i + 1][|run[..i + 1]| - 1] == run[i];
    }
    assert run[..|run|] == run;
  }

  lemma StillConverged(w: World, w': World, run: seq<Deployment>)
    requires Converged(w) && RunsOn(w, run) && w' == Touched(w, run)
    ensures Converged(w')
  {
    hide RbacServes, Serves, KubernetesRun, IsListing, Mirrors;
    SettledStaysSettled(w.deployment.value, w.cluster, run);
  }

  /** A refusal is final. After any run, if an undisturbed reconcile of a Redkey with primaries
      fails, every further one fails too, and neither the Redkey nor the configs change. */
  method RefusalIsFinal(name: string, namespace: string, spec: Spec, rounds: nat)
    returns (before: Sys, ok: bool, s: Sys, results: seq<bool>, s': Sys)
    requires ValidSpec(spec)
    ensures Shaped(before) && Shaped(s) && Shaped(s') && Trace(s'.hist, s'.log) && |results| == rounds
    ensures Live(before).cluster.spec.primaries > 0 && !ok ==>
              && Stuck(Live(s)) && Live(s).cluster == Live(before).cluster
              && (forall i :: 0 <= i < rounds ==> !results[i])
              && Live(s').cluster == Live(s).cluster && Live(s').configs == Live(s).configs
  {
    hide Inv, RobinComplete, Current, RobinSettled, Covers, OneStatusWrite, Recordable, RecordKept, Stuck,
      ZeroDone;
    var operator := Start(name, namespace, spec);
    Turns(operator);
    before := operator.client.s;
    operator.client.quiet := true;
    var seen;
    ok, seen := operator.Reconcile();
    s := operator.client.s;
    ghost var refused := Live(before).cluster.spec.primaries > 0 && !ok;
    results := [];
    for i := 0 to rounds
      invariant Inv(operator.client.s)
      invariant operator.client.quiet && |results| == i
      invariant refused ==>
                  && Stuck(Live(operator.client.s)) && forall j :: 0 <= j < i ==> !results[j]
      invariant refused ==>
                  && Live(operator.client.s).cluster == Live(s).cluster
                  && Live(operator.client.s).configs == Live(s).configs
    {
      var r;
      r, seen := operator.Reconcile();
      results := results + [r];
    }
    s' := operator.client.s;
    InvIsTrace(s');
  }

  method NewestKey(m: map<nat, Config>) returns (k: nat)
    requires m != map[]
    ensures k == Top(m.Keys)
  {
    k :| k in m;
    var todo := m.Keys;
    while todo != {}
      invariant todo <= m.Keys && k in m && forall j :: j in m && j !in todo ==> j <= k
      decreases todo
    {
      var j :| j in todo;
      if j > k {
        k := j;
      }
      todo := todo - {j};
    }
    TopIs(m.Keys, k);
  }

  /** The operator reconciles while Robin works; then Robin reports the newest config applied. */
  method RobinApplies(operator: RedkeyReconciler)
    requires Inv(operator.client.s) && operator.client.quiet
    requires Live(operator.client.s).cluster.spec.primaries == 0 && Rank(Live(operator.client.s).configs) == 2
    modifies operator.client`s
    ensures Inv(operator.client.s)
    ensures Live(operator.client.s).cluster.spec.primaries == 0 && Rank(Live(operator.client.s).configs) == 1
  {
    hide Inv, NormalDone, Progressed, RobinComplete, RobinGone, ShowsZero;
    var server := operator.client;
    var n: nat :| n >= 0;
    for i := 0 to n
      invariant Inv(server.s)
      invariant Live(server.s).cluster.spec.primaries == 0 && Rank(Live(server.s).configs) == 2
    {
      var _, _ := operator.Reconcile();
    }
    var k := NewestKey(Live(server.s).configs);
    var st: ConfigStatus := *;
    ghost var m := Live(server.s).configs;
    server.EnvStep(RobinWrote(k, st.(configPhase := Applied)));
    assert Live(server.s).configs.Keys == m.Keys;
  }

  /** Scaling to zero ends. After any run that leaves the spec at zero primaries, undisturbed
      reconciles, with Robin applying the config it is asked to after any number of them, bring
      the rank down to nothing: no config is left and the status says so. Robin's objects are gone
      exactly when there was a config to clean up after or they were gone already. */
  method DrainsToZero(name: string, namespace: string, spec: Spec) returns (before: Sys, s: Sys)
    requires ValidSpec(spec)
    ensures Shaped(before) && Shaped(s) && Trace(s.hist, s.log)
    ensures Live(before).cluster.spec.primaries == 0 ==>
              && Live(s).configs == map[] && ShowsZero(Live(s).cluster)
              && (RobinGone(Live(s)) <==> Live(before).configs != map[] || RobinGone(Live(before)))
  {
    hide Inv, NormalDone, Progressed, RobinComplete, RobinGone, ShowsZero;
    var operator := Start(name, namespace, spec);
    var server := operator.client;
    Turns(operator);
    before := server.s;
    server.quiet := true;
    var drained := Live(server.s).cluster.spec.primaries != 0;
    while !drained
      invariant Inv(server.s) && server.quiet
      invariant Live(before).cluster.spec.primaries == 0 ==>
                  if drained
                  then && Live(server.s).configs == map[] && ShowsZero(Live(server.s).cluster)
                       && (RobinGone(Live(server.s)) <==> Live(before).configs != map[] || RobinGone(Live(before)))
                  else && Live(server.s).cluster.spec.primaries == 0
                       && (if Live(server.s).configs == map[] then Live(server.s) == Live(before)
                           else Live(before).configs != map[])
      invariant !drained ==> Live(before).cluster.spec.primaries == 0
      decreases !drained, Rank(Live(server.s).configs)
    {
      var m := Live(server.s).configs;
      if m != map[] {
        var k := NewestKey(m);
        if m[k].spec.primaries == 0 && m[k].status.configPhase != Applied {
          RobinApplies(operator);
        }
      }
      var _, _ := operator.Reconcile();
      drained := Live(server.s).configs == map[];
    }
    s := server.s;
    InvIsTrace(s);
  }

  /** The rank of a scale-down. After any run, a successful reconcile at zero primaries whose list
      was up to date never raises the rank, whatever happens meanwhile, as long as Robin does not
      take back that it applied a config; and it lowers the rank when the newest config asks for
      primaries and when it is the applied zero config. */
  method RankFalls(name: string, namespace: string, spec: Spec)
    returns (before: Sys, s: Sys, ok: bool, seen: Option<Redkey>)
    requires ValidSpec(spec)
    ensures Shaped(before) && Shaped(s) && Trace(s.hist, s.log) && (ok ==> seen.Some?)
    ensures var m, m' := Live(before).configs, Live(s).configs;
            && ok && seen.value.spec.primaries == 0 && s.staleLists == before.staleLists
            && ReportsStand(m, SeenConfigs(s)) && ReportsStand(SeenConfigs(s), m') ==>
              Rank(m') <= Rank(m) && (Rank(m) in {1, 3} ==> Rank(m') < Rank(m))
  {
    hide Inv, NormalDone, Progressed, ZeroProgress, SameConfigs, RecordAtZero, ReportsStand, RobinComplete, RobinGone,
      ShowsZero;
    var operator := Start(name, namespace, spec);
    Turns(operator);
    before := operator.client.s;
    ok, seen := operator.Reconcile();
    s := operator.client.s;
    InvIsTrace(s);
    ghost var m, m', listed := Live(before).configs, Live(s).configs, SeenConfigs(s);
    if ok && seen.value.spec.primaries == 0 && s.staleLists == before.staleLists && m' != map[]
       && ReportsStand(m, listed) && ReportsStand(listed, m') {
      RankNeverRises(seen.value, m, listed, m');
    }
  }

  /** Nobody asks for primaries from state `i` exclusive to state `j`. */
  predicate AtZero(h: seq<World>, i: nat, j: nat)
    requires j < |h|
  {
    forall m :: i < m <= j ==> h[m].cluster.spec.primaries == 0
  }

  /** `t` is recorded, and is the only positive topology that admission lets back in. */
  ghost predicate LockedTo(w: World, t: Topology) {
    && w.cluster.status.LastApplied() == t
    && forall back: Spec {:trigger back.Topo()} ::
         back.primaries > 0 ==>
           (Admits(w.cluster, back) <==> WellFormed(back) && SameForGood(w.cluster.spec, back) && back.Topo() == t)
  }

  /** The scale-from-zero lock is exact. In any run, wherever an edit scales a storage cluster at
      rest to zero, between two reconciles or inside one, the recorded topology is in every state
      of the time at zero the one the cluster had, and the only positive one that admission lets
      back in. */
  method ScaleFromZeroLock(name: string, namespace: string, spec: Spec) returns (s: Sys)
    requires ValidSpec(spec)
    ensures Shaped(s) && Trace(s.hist, s.log)
    ensures forall i, j :: 0 <= i < |s.log| && i < j < |s.hist| && s.log[i].Edited? && AtZero(s.hist, i, j) ==>
              (AtRest(s.hist, i, s.log[i].listed) ==> LockedTo(s.hist[j], s.hist[i].cluster.spec.Topo()))
  {
    hide Inv, Trace, RestIsSteady, AtRest, LockedTo;
    var operator := Start(name, namespace, spec);
    Turns(operator);
    s := operator.client.s;
    InvIsTrace(s);
    forall i, j | 0 <= i < |s.log| && i < j < |s.hist| && s.log[i].Edited? && AtZero(s.hist, i, j)
      ensures AtRest(s.hist, i, s.log[i].listed) ==> LockedTo(s.hist[j], s.hist[i].cluster.spec.Topo())
    {
      if AtRest(s.hist, i, s.log[i].listed) {
        LockHolds(s.hist, s.log, i, j);
      }
    }
  }

  lemma {:induction false} LockHolds(h: seq<World>, log: seq<Event>, i: nat, j: nat)
    requires Trace(h, log) && RestIsSteady(h, log) && i < |log| && i < j < |h|
    requires log[i].Edited? && AtRest(h, i, log[i].listed) && AtZero(h, i, j)
    ensures LockedTo(h[j], h[i].cluster.spec.Topo())
  {
    hide Trace, AtRest, Admits, WellFormed, IsSnapshot, StatusSound;
    assert EditMarked(h, log, i);
    LockWindow(h, log, i, j);
    EveryStateSound(h, log, j);
    forall back: Spec | back.primaries > 0
      ensures Admits(h[j].cluster, back) <==>
              && WellFormed(back) && SameForGood(h[j].cluster.spec, back)
              && back.Topo() == h[i].cluster.spec.Topo()
    {
      LockIsExact(h[j].cluster, back);
      RecordedIsWritten(h[j]);
    }
  }
}
