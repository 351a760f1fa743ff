/** The reconciler: the sequence of API calls one `Reconcile` makes, with every early return. */
module Reconcilers {
  import opened Types
  import opened Identity
  import opened Conditions
  import opened Robin
  import opened Admission
  import opened Protocol
  import opened Views
  import opened Selection
  import opened ApiServers

  ghost predicate RbacSettled(w: World, cluster: Redkey, kind: RbacKind) {
    kind in w.rbac && RbacServes(w.rbac[kind], cluster, kind)
  }

  ghost predicate DeploymentSettled(w: World, cluster: Redkey) {
    w.deployment.Some? && Serves(w.deployment.value, cluster)
  }

  predicate AllRbacExists(w: World) {
    ServiceAccountKind in w.rbac && RoleKind in w.rbac && RoleBindingKind in w.rbac
  }

  ghost predicate AllRbacSettled(w: World, cluster: Redkey) {
    && RbacSettled(w, cluster, ServiceAccountKind) && RbacSettled(w, cluster, RoleKind)
    && RbacSettled(w, cluster, RoleBindingKind)
  }

  /** Nothing the operator keeps for Robin is missing or drifted. */
  ghost predicate RobinSettled(w: World, cluster: Redkey) {
    AllRbacSettled(w, cluster) && DeploymentSettled(w, cluster)
  }

  class RedkeyReconciler {
    const client: ApiServer

    constructor (client: ApiServer)
      ensures this.client == client
    {
      this.client := client;
    }

    // ----- Robin's objects -----

    /** RoleRef is immutable, so a RoleBinding with another one is deleted and created again. */
    method RecreateRbacObject(kind: RbacKind, desired: RbacObject) returns (ok: bool)
      requires Inv(client.s)
      modifies client`s
      ensures Inv(client.s) && OnlyRobin(old(client.s), client.s)
      ensures old(client.s).phantoms == client.s.phantoms
      ensures Live(old(client.s)).deployment.Some? == Live(client.s).deployment.Some?
      ensures forall other :: other != kind ==> (other in Live(old(client.s)).rbac <==> other in Live(client.s).rbac)
      ensures ok ==> kind in Live(old(client.s)).rbac && kind in Live(client.s).rbac
      ensures client.quiet && kind in Live(old(client.s)).rbac ==>
                ok && Live(client.s) == Live(old(client.s)).(rbac := Live(old(client.s)).rbac[kind := desired])
    {
      hide Inv, OnlyRobin;
      var r := client.WriteRobin(DroppedRbac(kind), true);
      if r != Done {
        return false;
      }
      ghost var s1 := client.s;
      r := client.WriteRobin(PutRbac(kind, desired), false);
      OnlyRobinComposes(old(client.s), s1, client.s);
      return r == Done;
    }

    method EnsureRbacObject(cluster: Redkey, kind: RbacKind) returns (ok: bool)
      requires Inv(client.s)
      modifies client`s
      ensures Inv(client.s) && OnlyRobin(old(client.s), client.s)
      ensures Live(old(client.s)).deployment.Some? == Live(client.s).deployment.Some?
      ensures forall other :: other != kind ==> (other in Live(old(client.s)).rbac <==> other in Live(client.s).rbac)
      ensures ok ==> (kind in Live(client.s).rbac <==> old(client.s).phantoms == client.s.phantoms)
      ensures client.quiet ==>
                && ok && old(client.s).phantoms == client.s.phantoms
                && RbacSettled(Live(client.s), cluster, kind)
                && Live(client.s)
                   == Live(old(client.s)).(rbac := Live(old(client.s)).rbac[kind := Live(client.s).rbac[kind]])
      ensures client.quiet && RbacSettled(Live(old(client.s)), cluster, kind) ==>
                client.s.log == old(client.s).log && Live(client.s) == Live(old(client.s))
    {
      hide Inv, DesiredRbac, OnlyRobin, NeedsRecreate, NeedsPatch, PatchedRbac, RbacServes;
      var desired := DesiredRbac(cluster, kind);
      WrittenRbacServes(cluster, kind, desired);
      var seen := client.GetRbac(kind);
      ghost var s1 := client.s;
      if seen.Some? && seen.value.Some? {
        RbacServesIff(seen.value.value, cluster, kind);
        WrittenRbacServes(cluster, kind, seen.value.value);
      }
      ok := true;
      if seen == None {
        return false;
      } else if seen.value == None {
        var r := client.WriteRobin(PutRbac(kind, desired), false);
        ok := r == Done;
      } else if NeedsRecreate(kind, seen.value.value, desired) {
        ok := RecreateRbacObject(kind, desired);
      } else if NeedsPatch(kind, seen.value.value, desired) {
        var r := client.WriteRobin(PutRbac(kind, PatchedRbac(kind, seen.value.value, desired)), true);
        ok := r == Done;
      } else {
        return true;
      }
      OnlyRobinComposes(old(client.s), s1, client.s);
    }

    method EnsureRBAC(cluster: Redkey) returns (ok: bool)
      requires Inv(client.s)
      modifies client`s
      ensures Inv(client.s) && OnlyRobin(old(client.s), client.s)
      ensures Live(old(client.s)).deployment.Some? == Live(client.s).deployment.Some?
      ensures ok ==> (AllRbacExists(Live(client.s)) <==> old(client.s).phantoms == client.s.phantoms)
      ensures client.quiet ==>
                && ok && old(client.s).phantoms == client.s.phantoms
                && Live(client.s) == Live(old(client.s)).(rbac := Live(client.s).rbac)
                && AllRbacSettled(Live(client.s), cluster)
      ensures client.quiet && AllRbacSettled(Live(old(client.s)), cluster) ==>
                client.s.log == old(client.s).log && Live(client.s) == Live(old(client.s))
    {
      hide Inv, OnlyRobin, RbacServes;
      ok := EnsureRbacObject(cluster, ServiceAccountKind);
      ghost var s1 := client.s;
      OnlyRobinMonotone(old(client.s), s1);
      if !ok {
        return false;
      }
      ok := EnsureRbacObject(cluster, RoleKind);
      OnlyRobinComposes(old(client.s), s1, client.s);
      OnlyRobinMonotone(s1, client.s);
      if !ok {
        return false;
      }
      ghost var s2 := client.s;
      ok := EnsureRbacObject(cluster, RoleBindingKind);
      OnlyRobinComposes(old(client.s), s2, client.s);
      OnlyRobinMonotone(s2, client.s);
    }

    method BuildDesiredRobinDeployment(cluster: Redkey) returns (d: Deployment)
      ensures d == DesiredDeployment(cluster)
      ensures MetadataServes(d, cluster) && PodIs(d.pod, cluster) && d.annotations == cluster.spec.annotations
    {
      DesiredIsDescribed(cluster);
      var spec := cluster.spec;
      var env := DefaultEnv(cluster.name, cluster.namespace);
      var image := spec.robin.image;
      var tplLabels: Labels, tplAnnotations: Labels, overrides := map[], map[], Nil;
      match spec.robin.template {
        case None =>
        case Some(tpl) =>
          tplLabels, tplAnnotations, overrides := tpl.labels, tpl.annotations, tpl.overrides;
          if tpl.image != "" {
            image := tpl.image;
          }
          env := MergeEnvVars(env, tpl.env);
          env := MergeEnvVars(env, DefaultEnv(cluster.name, cluster.namespace));
      }
      d := Deployment(
        MergeMeta(spec.labels, map[], BaseLabels(cluster.name)),
        MergeMeta(spec.annotations, map[], map[]),
        Some(1),
        MergeMeta(spec.labels, tplLabels, BaseLabels(cluster.name)),
        MergeMeta(spec.annotations, tplAnnotations, map[]),
        Record([Text(RobinName(cluster.name)), Items([Record([Text("robin"), Text(image), EnvTree(env)])]),
                overrides]));
    }

    method EnsureRobinDeployment(cluster: Redkey) returns (ok: bool)
      requires Inv(client.s)
      modifies client`s
      ensures Inv(client.s) && OnlyRobin(old(client.s), client.s)
      ensures Live(old(client.s)).rbac.Keys == Live(client.s).rbac.Keys
      ensures ok ==> (Live(client.s).deployment.Some? <==> old(client.s).phantoms == client.s.phantoms)
      ensures client.quiet ==>
                && ok && old(client.s).phantoms == client.s.phantoms
                && Live(client.s) == Live(old(client.s)).(deployment := Live(client.s).deployment)
                && (REVISION !in cluster.spec.annotations ==> DeploymentSettled(Live(client.s), cluster))
                && RolledOut(Live(old(client.s)).deployment, Live(client.s).deployment, cluster)
      ensures client.quiet && DeploymentSettled(Live(old(client.s)), cluster) ==>
                client.s.log == old(client.s).log && Live(client.s) == Live(old(client.s))
    {
      hide Inv, OnlyRobin, DesiredDeployment, NeedsUpdate, Patched, Serves, RolledOut, MetadataServes, PodIs;
      var desired := BuildDesiredRobinDeployment(cluster);
      CreationRollsOut(cluster);
      var seen := client.GetDeployment();
      ghost var s1 := client.s;
      if seen.Some? && seen.value.Some? {
        PatchRollsOut(cluster, seen.value.value);
      }
      ok := true;
      if seen == None {
        return false;
      } else if seen.value == None {
        var r := client.WriteRobin(PutDeployment(desired), false);
        ok := r == Done;
      } else if NeedsUpdate(seen.value.value, desired) {
        var r := client.WriteRobin(PutDeployment(Patched(seen.value.value, desired)), true);
        ok := r == Done;
      } else {
        return true;
      }
      OnlyRobinComposes(old(client.s), s1, client.s);
    }

    // ----- configs -----

    method ListConfigs() returns (r: Option<seq<Config>>)
      requires Inv(client.s)
      modifies client`s
      ensures Inv(client.s) && SeenCluster(client.s) == SeenCluster(old(client.s))
      ensures client.s.phantoms == old(client.s).phantoms
      ensures Live(client.s).cluster.status == Live(old(client.s)).cluster.status
      ensures SameConfigs(Live(old(client.s)).configs, Live(client.s).configs)
      ensures SameRobin(Live(old(client.s)), Live(client.s))
      ensures old(client.s).staleLists <= client.s.staleLists && old(client.s).missed <= client.s.missed
      ensures r.Some? ==>
                && IsListing(r.value, SeenConfigs(client.s))
                && Bounded(SeenConfigs(client.s))
                && (client.s.staleLists == old(client.s).staleLists ==> SeenConfigs(client.s) == Live(client.s).configs)
                && (client.s.missed == old(client.s).missed ==>
                      ShowsNewest(SeenConfigs(client.s), Live(client.s).configs))
      ensures client.quiet ==>
                && r.Some? && client.s.staleLists == old(client.s).staleLists && client.s.missed == old(client.s).missed
                && Live(client.s) == Live(old(client.s)).(intact := Live(client.s).intact)
                && (Live(client.s).configs != map[] ==>
                      client.s.log == old(client.s).log && Live(client.s) == Live(old(client.s)))
    {
      hide Inv, IsListing;
      var m := client.List();
      if m == None {
        return None;
      }
      var l := SortBySequence(m.value);
      r := Some(l);
    }

    method CreateNewConfig(cluster: Redkey, highestSeq: Option<Config>) returns (ok: bool)
      requires Inv(client.s) && cluster == SeenCluster(client.s)
      requires highestSeq == None ==> SeenConfigs(client.s) == map[]
      requires highestSeq.Some? ==> highestSeq.value.spec.sequence == Top(SeenConfigs(client.s).Keys)
      requires client.s.missed == 0 ==> ShowsNewest(SeenConfigs(client.s), Live(client.s).configs)
      modifies client`s
      ensures Inv(client.s) && SameViews(old(client.s), client.s)
      ensures client.s.phantoms == old(client.s).phantoms
      ensures SameRobin(Live(old(client.s)), Live(client.s))
      ensures Live(client.s).cluster.status == Live(old(client.s)).cluster.status
      ensures || Appended(cluster, Top(SeenConfigs(client.s).Keys) + 1,
                          Live(old(client.s)).configs, Live(client.s).configs)
              || SameConfigs(Live(old(client.s)).configs, Live(client.s).configs)
      ensures ok ==> Top(SeenConfigs(client.s).Keys) + 1 in Live(client.s).configs
      ensures client.quiet ==> ok && Live(client.s) == Live(old(client.s)).(configs := Live(client.s).configs)
      ensures client.quiet ==> Submap(Live(old(client.s)).configs, Live(client.s).configs)
    {
      hide Inv, SnapshotSpec;
      var seq_ := 1;
      if highestSeq.Some? {
        seq_ := highestSeq.value.spec.sequence + 1;
      }
      var config := BuildConfig(cluster.spec, cluster.generation, seq_);
      SnapshotCarries(cluster.spec, seq_);
      var r := client.CreateConfig(config);
      // AlreadyExists means an earlier reconcile created it and the list lagged
      ok := r == Done || r == AlreadyExists;
    }

    /** Deletes every listed config older than the newest applied one, oldest first. */
    method CleanupSupersededConfigs(configs: seq<Config>) returns (ok: bool, rest: seq<Config>)
      requires Inv(client.s) && IsListing(configs, SeenConfigs(client.s))
      requires Bounded(SeenConfigs(client.s))
      requires client.s.missed == 0 && configs != [] ==> Top(SeenConfigs(client.s).Keys) in Live(client.s).configs
      modifies client`s
      ensures Inv(client.s) && CleanupFrame(old(client.s), client.s)
      ensures Trimmed(Live(old(client.s)).configs, Live(client.s).configs, Limit(configs))
      ensures ok ==> rest == Survivors(configs)
      ensures ok ==> forall j :: 0 <= j < LastApplied(configs) ==> configs[j].spec.sequence !in Live(client.s).configs
      ensures !ok ==> exists i :: CutShort(Live(old(client.s)).configs, Live(client.s).configs, configs, rest, i)
      ensures client.quiet ==>
                && ok && Live(client.s) == Live(old(client.s)).(configs := Live(client.s).configs)
                && Submap(Live(client.s).configs, Live(old(client.s)).configs)
      ensures LastApplied(configs) <= 0 ==> client.s == old(client.s)
    {
      hide Inv, LastApplied, Cleaning, AtMostDropped, Trimmed, IsListing, Bounded, CutShort;
      TrimmedNothing(Live(client.s).configs, Limit(configs));
      if |configs| <= 1 {
        return true, configs;
      }
      var lastApplied := FindLastApplied(configs);
      if lastApplied <= 0 {
        return true, configs;
      }
      CleaningStarts(client.s, configs);
      for i := 0 to lastApplied
        invariant Inv(client.s) && Cleaning(old(client.s), client.s, configs, i)
        invariant client.quiet ==>
                    && Live(client.s) == Live(old(client.s)).(configs := Live(client.s).configs)
                    && Submap(Live(client.s).configs, Live(old(client.s)).configs)
      {
        ghost var before := client.s;
        CleaningAllows(old(client.s), client.s, configs, i);
        var r := client.DropConfig(configs[i].spec.sequence);
        CleaningFailed(old(client.s), before, client.s, configs, i);
        if r == Failed {
          return false, configs[i..];
        }
        CleaningAdvances(old(client.s), before, client.s, configs, i);
      }
      CleaningDone(old(client.s), client.s, configs);
      return true, configs[lastApplied..];
    }

    // ----- status -----

    /** The fields aggregation writes over a fetched Redkey. */
    method BuildStatus(latest: Redkey, activeConfig: Config, observedGeneration: nat, now: nat) returns (st: Status)
      ensures st == AggregatedStatus(latest, activeConfig, observedGeneration, now)
    {
      var conditions := AggregateConditions(latest.status.conditions, activeConfig, now);
      st := latest.status.(
        replicas := latest.spec.primaries,
        status := activeConfig.status.status,
        substatus := activeConfig.status.substatus,
        nodes := activeConfig.status.nodes,
        conditions := conditions,
        phase := ComputePhase(conditions),
        lastUpdatedAt := now,
        observedGeneration := observedGeneration);
      if !latest.spec.ephemeral && activeConfig.status.configPhase == Applied && activeConfig.spec.primaries > 0 {
        st := st.(lastAppliedPrimaries := activeConfig.spec.primaries,
                  lastAppliedReplicasPerPrimary := activeConfig.spec.replicasPerPrimary);
      }
    }

    /** Writes the aggregation over the Redkey just read. */
    method WriteAggregate(latest: Redkey, activeConfig: Config, observed: nat, now: nat) returns (r: Reply)
      requires Inv(client.s) && latest == SeenCluster(client.s) && MayTake(SeenConfigs(client.s), activeConfig)
      requires Live(client.s).cluster.status.observedGeneration <= observed <= latest.generation
      requires client.s.missed == 0 && latest.generation == observed && latest.spec.primaries > 0 ==>
                Covers(Live(client.s).configs, observed)
      modifies client`s
      ensures Inv(client.s) && SameViews(old(client.s), client.s) && client.s.phantoms == old(client.s).phantoms
      ensures SameConfigs(Live(old(client.s)).configs, Live(client.s).configs)
      ensures SameRobin(Live(old(client.s)), Live(client.s))
      ensures r in {Done, Conflict, Failed}
      ensures r == Done ==>
                Aggregated(Live(old(client.s)).cluster.status, Live(client.s).cluster, activeConfig, observed, now)
      ensures r == Conflict ==> Live(client.s).cluster.status == Live(old(client.s)).cluster.status
      ensures RecordFollows(Live(old(client.s)).cluster.status, Live(client.s).cluster, activeConfig)
      ensures client.quiet && latest == Live(old(client.s)).cluster ==>
                if RecordFits(latest, activeConfig)
                then r == Done && OneStatusWrite(old(client.s), client.s)
                else r == Failed && client.s == old(client.s)
    {
      hide Inv, AggregatedStatus, Covers, SameRobin, Aggregated, MayTake, SchemaValid, SameConfigs, RecordFits,
        Overwritten, RecordFollows, OneStatusWrite;
      var st := BuildStatus(latest, activeConfig, observed, now);
      if latest == Live(client.s).cluster {
        LiveStatusValid(client.s);
        RecordFitsIsExact(latest, activeConfig, observed, now);
      }
      r := client.UpdateStatus(latest.(status := st), Aggregation(activeConfig, observed, now));
      OneWriteMade(old(client.s), client.s, Aggregation(activeConfig, observed, now));
      RecordStays(Live(old(client.s)).cluster.status, Live(client.s).cluster, activeConfig);
      RoundWrites(Live(old(client.s)).cluster, latest, Live(client.s).cluster, activeConfig, observed, now);
    }

    /** One round of refresh and write. The observed generation is the one this reconcile
        started from, not the refreshed one. */
    method TryAggregate(cluster: Redkey, activeConfig: Config, now: nat) returns (r: Reply)
      requires Inv(client.s) && NotBefore(cluster, SeenCluster(client.s))
      requires MayTake(SeenConfigs(client.s), activeConfig)
      requires Live(client.s).cluster.status.observedGeneration <= cluster.generation
      requires && client.s.missed == 0 && cluster.spec.primaries > 0
               && SeenCluster(client.s).generation == cluster.generation ==>
                Covers(Live(client.s).configs, cluster.generation)
      modifies client`s
      ensures Inv(client.s) && StatusFrame(old(client.s), client.s)
      ensures r in {Done, Conflict, Failed}
      ensures r == Done ==>
                Aggregated(Live(old(client.s)).cluster.status, Live(client.s).cluster,
                           activeConfig, cluster.generation, now)
      ensures r == Conflict ==> Live(client.s).cluster.status == Live(old(client.s)).cluster.status
      ensures RecordFollows(Live(old(client.s)).cluster.status, Live(client.s).cluster, activeConfig)
      ensures client.quiet ==>
                if RecordFits(Live(old(client.s)).cluster, activeConfig)
                then r == Done && OneStatusWrite(old(client.s), client.s)
                else r == Failed && Live(client.s) == Live(old(client.s)) && client.s.log == old(client.s).log
    {
      hide Inv, StatusFrame, Covers, SameRobin, Aggregated, MayTake, SameConfigs, RecordFits, RecordFollows,
        OneStatusWrite;
      StatusFrameStarts(client.s);
      var latest := client.GetCluster();
      ghost var s1 := client.s;
      StatusFrameAfterRead(old(client.s), old(client.s), s1);
      if latest == None {
        RecordStays(Live(old(client.s)).cluster.status, Live(s1).cluster, activeConfig);
        return Failed;
      }
      CoversCarries(Live(old(client.s)).configs, Live(s1).configs, cluster.generation);
      r := WriteAggregate(latest.value, activeConfig, cluster.generation, now);
      StatusFrameAfterWrite(old(client.s), s1, client.s);
      if client.quiet && r == Done {
        SameStart(old(client.s), s1, client.s);
      }
    }

    /** Retries on conflict, at most five rounds; any other reply ends it. */
    method AggregateStatus(cluster: Redkey, configs: seq<Config>)
      returns (ok: bool, now: nat, ghost replies: seq<Reply>)
      requires Inv(client.s) && cluster == SeenCluster(client.s)
      requires configs != [] && MayTake(SeenConfigs(client.s), Active(configs))
      requires Live(client.s).cluster.status.observedGeneration <= cluster.generation
      requires client.s.missed == 0 && cluster.spec.primaries > 0 ==>
                Covers(Live(client.s).configs, cluster.generation)
      modifies client`s
      ensures Inv(client.s) && StatusFrame(old(client.s), client.s)
      ensures ok ==>
                Aggregated(Live(old(client.s)).cluster.status, Live(client.s).cluster,
                           Active(configs), cluster.generation, now)
      ensures RecordFollows(Live(old(client.s)).cluster.status, Live(client.s).cluster, Active(configs))
      ensures 1 <= |replies| <= 5 && (|replies| < 5 ==> replies[|replies| - 1] != Conflict)
      ensures ok <==> replies[|replies| - 1] == Done
      ensures forall i :: 0 <= i < |replies| - 1 ==> replies[i] == Conflict
      ensures client.quiet ==>
                if RecordFits(Live(old(client.s)).cluster, Active(configs))
                then ok && OneStatusWrite(old(client.s), client.s)
                else !ok && Live(client.s) == Live(old(client.s)) && client.s.log == old(client.s).log
    {
      hide Inv, StatusFrame, Covers, NextInProgress, MayTake, Aggregated, RecordFits, OneStatusWrite;
      var activeConfig := SelectActiveConfig(configs);
      ghost var before := Live(client.s).cluster.status;
      StatusFrameStarts(client.s);
      replies := [];
      for attempt := 0 to 5
        invariant Inv(client.s) && StatusFrame(old(client.s), client.s)
        invariant Live(client.s).cluster.status == before
        invariant client.quiet ==> attempt == 0 && client.s == old(client.s)
        invariant |replies| == attempt && forall i :: 0 <= i < attempt ==> replies[i] == Conflict
      {
        ghost var s1 := client.s;
        StatusFrameAllows(old(client.s), s1, cluster, activeConfig);
        now :| now >= 0;
        var r := TryAggregate(cluster, activeConfig, now);
        StatusFrameComposes(old(client.s), s1, client.s);
        replies := replies + [r];
        if r != Conflict {
          return r == Done, now, replies;
        }
      }
      return false, 0, replies;
    }

    /** Writes over the Redkey as read at the start of the reconcile, without a retry. */
    method UpdateStatusScaledToZero(cluster: Redkey) returns (ok: bool)
      requires Inv(client.s) && cluster == SeenCluster(client.s)
      requires cluster.spec.primaries == 0
      modifies client`s
      ensures Inv(client.s) && StatusFrame(old(client.s), client.s)
      ensures ok ==> ShowsZero(Live(client.s).cluster)
      ensures Live(client.s).cluster.status.LastApplied() == Live(old(client.s)).cluster.status.LastApplied()
      ensures client.quiet && cluster == Live(old(client.s)).cluster ==>
                ok && Live(client.s) == Live(old(client.s)).(cluster := Live(client.s).cluster)
    {
      hide Inv, StatusFrame, SetAll, SetCondition, SchemaValid;
      var now: nat :| now >= 0;
      var conditions := SetCondition(cluster.status.conditions, Condition(ReadyType, True, "ScaledToZero", "", 0), now);
      conditions := SetCondition(conditions, Condition(ConfigPendingType, False, "ScaledToZero", "", 0), now);
      conditions := SetCondition(conditions, Condition(ErrorType, False, "ScaledToZero", "", 0), now);
      SetAllOfThree(cluster.status.conditions, ZERO_TARGETS[0], ZERO_TARGETS[1], ZERO_TARGETS[2], now);
      var st := cluster.status.(
        replicas := 0,
        phase := PhaseReady,
        status := NoStatus,
        substatus := NO_SUBSTATUS,
        nodes := map[],
        lastUpdatedAt := now,
        observedGeneration := cluster.generation,
        conditions := conditions);
      StatusFrameStarts(client.s);
      ObservedBound(client.s);
      ZeroStatusIsValid(client.s, now);
      var r := client.UpdateStatus(cluster.(status := st), ScaledToZero(cluster.generation, now));
      StatusFrameAfterWrite(old(client.s), old(client.s), client.s);
      ok := r == Done;
    }

    // ----- scaling to zero -----

    method DeleteRobinDeployment() returns (ok: bool)
      requires Inv(client.s)
      modifies client`s
      ensures Inv(client.s) && OnlyRobin(old(client.s), client.s)
      ensures Live(client.s).rbac.Keys == Live(old(client.s)).rbac.Keys
      ensures client.s.phantoms == old(client.s).phantoms
      ensures ok ==> Live(client.s).deployment == None
      ensures client.quiet ==> ok && Live(client.s) == Live(old(client.s)).(deployment := None)
    {
      hide Inv, OnlyRobin;
      var r := client.WriteRobin(DroppedDeployment, true);
      ok := r == Done || r == NotFound;
    }

    method DeleteRBAC() returns (ok: bool)
      requires Inv(client.s)
      modifies client`s
      ensures Inv(client.s) && OnlyRobin(old(client.s), client.s)
      ensures Live(client.s).deployment.Some? == Live(old(client.s)).deployment.Some?
      ensures client.s.phantoms == old(client.s).phantoms
      ensures ok ==> Live(client.s).rbac == map[]
      ensures client.quiet ==> ok && Live(client.s) == Live(old(client.s)).(rbac := map[])
    {
      hide Inv, OnlyRobin;
      var kinds := [RoleBindingKind, RoleKind, ServiceAccountKind];
      OnlyRobinStarts(client.s);
      for i := 0 to |kinds|
        invariant Inv(client.s) && OnlyRobin(old(client.s), client.s)
        invariant client.s.phantoms == old(client.s).phantoms
        invariant Live(client.s).deployment.Some? == Live(old(client.s)).deployment.Some?
        invariant forall j :: 0 <= j < i ==> kinds[j] !in Live(client.s).rbac
        invariant client.quiet ==> Live(client.s) == Live(old(client.s)).(rbac := Live(client.s).rbac)
      {
        ghost var s1 := client.s;
        var r := client.WriteRobin(DroppedRbac(kinds[i]), true);
        OnlyRobinComposes(old(client.s), s1, client.s);
        if r != Done && r != NotFound {
          return false;
        }
      }
      assert kinds[0] !in Live(client.s).rbac && kinds[1] !in Live(client.s).rbac && kinds[2] !in Live(client.s).rbac;
      forall kind
        ensures kind !in Live(client.s).rbac
      {
        match kind case ServiceAccountKind => case RoleKind => case RoleBindingKind =>
      }
      return true;
    }

    /** Deletes whatever a list returns, in any order. */
    method DeleteAllConfigs() returns (ok: bool)
      requires Inv(client.s) && RobinGone(Live(client.s))
      requires SeenCluster(client.s).spec.primaries == 0
      modifies client`s
      ensures Inv(client.s) && SeenCluster(client.s) == SeenCluster(old(client.s))
      ensures client.s.phantoms == old(client.s).phantoms
      ensures RobinGone(Live(client.s)) && Live(client.s).cluster.status == Live(old(client.s)).cluster.status
      ensures old(client.s).staleLists <= client.s.staleLists
      ensures ok && client.s.staleLists == old(client.s).staleLists ==> Live(client.s).configs == map[]
      ensures client.quiet ==>
                && ok && client.s.staleLists == old(client.s).staleLists
                && Live(client.s).cluster == Live(old(client.s)).cluster
    {
      hide Inv, Subconfigs, ShowsNewest, SeenEmpty;
      var listed := client.List();
      if listed == None {
        return false;
      }
      ghost var stale := client.s.staleLists;
      var todo := listed.value.Keys;
      while todo != {}
        invariant Inv(client.s) && todo <= listed.value.Keys
        invariant SeenCluster(client.s) == SeenCluster(old(client.s))
        invariant client.s.phantoms == old(client.s).phantoms
        invariant client.s.staleLists == stale
        invariant RobinGone(Live(client.s)) && Live(client.s).cluster.status == Live(old(client.s)).cluster.status
        invariant stale == old(client.s).staleLists ==> Live(client.s).configs.Keys <= todo
        invariant client.quiet ==> Live(client.s).cluster == Live(old(client.s)).cluster
        decreases todo
      {
        var k :| k in todo;
        var r := client.WipeConfig(k);
        if r == Failed {
          return false;
        }
        todo := todo - {k};
      }
      return true;
    }

    /** Cases B and D keep Robin alive. */
    method KeepRobin(cluster: Redkey) returns (ok: bool)
      requires Inv(client.s)
      modifies client`s
      ensures Inv(client.s) && OnlyRobin(old(client.s), client.s)
      ensures ok ==> (RobinComplete(Live(client.s)) <==> client.s.phantoms == old(client.s).phantoms)
      ensures client.quiet ==>
                && ok && client.s.phantoms == old(client.s).phantoms
                && Live(client.s)
                   == Live(old(client.s)).(rbac := Live(client.s).rbac, deployment := Live(client.s).deployment)
                && (REVISION !in cluster.spec.annotations ==> RobinSettled(Live(client.s), cluster))
      ensures client.quiet && RobinSettled(Live(old(client.s)), cluster) ==>
                client.s.log == old(client.s).log && Live(client.s) == Live(old(client.s))
    {
      hide Inv, OnlyRobin, RbacServes, Serves, RolledOut;
      ok := EnsureRBAC(cluster);
      ghost var s1 := client.s;
      OnlyRobinMonotone(old(client.s), s1);
      if !ok {
        return false;
      }
      ok := EnsureRobinDeployment(cluster);
      OnlyRobinComposes(old(client.s), s1, client.s);
      OnlyRobinMonotone(s1, client.s);
    }

    /** Case C: Robin's objects go first, the configs after them, the status last. */
    method CleanUpAfterZero(cluster: Redkey) returns (ok: bool)
      requires Inv(client.s) && cluster == SeenCluster(client.s)
      requires cluster.spec.primaries == 0
      modifies client`s
      ensures Inv(client.s) && old(client.s).staleLists <= client.s.staleLists
      ensures client.s.phantoms == old(client.s).phantoms
      ensures ok ==> RobinGone(Live(client.s)) && ShowsZero(Live(client.s).cluster)
      ensures Live(client.s).cluster.status.LastApplied() == Live(old(client.s)).cluster.status.LastApplied()
      ensures ok && client.s.staleLists == old(client.s).staleLists ==> Live(client.s).configs == map[]
      ensures client.quiet && cluster == Live(old(client.s)).cluster ==>
                ok && client.s.staleLists == old(client.s).staleLists
    {
      hide Inv, OnlyRobin, StatusFrame, ShowsZero, SameIdentity;
      ok := DeleteRobinDeployment();
      ghost var s1 := client.s;
      OnlyRobinFrame(old(client.s), s1);
      if !ok {
        return false;
      }
      ok := DeleteRBAC();
      OnlyRobinFrame(s1, client.s);
      if !ok {
        return false;
      }
      ok := DeleteAllConfigs();
      if !ok {
        return false;
      }
      ghost var s2 := client.s;
      ok := UpdateStatusScaledToZero(cluster);
      StatusFrameGives(s2, client.s);
    }

    /** Case B: Robin has not been asked to scale down yet. */
    method AskForZero(cluster: Redkey, latest: Config) returns (ok: bool)
      requires Inv(client.s) && cluster == SeenCluster(client.s)
      requires cluster.spec.primaries == 0
      requires SeenConfigs(client.s) != map[] && latest == SeenConfigs(client.s)[Top(SeenConfigs(client.s).Keys)]
      requires latest.spec.sequence == Top(SeenConfigs(client.s).Keys) && latest.spec.primaries != 0
      requires client.s.missed == 0 ==> ShowsNewest(SeenConfigs(client.s), Live(client.s).configs)
      modifies client`s
      ensures Inv(client.s)
      ensures ok ==> (RobinComplete(Live(client.s)) <==> client.s.phantoms == old(client.s).phantoms)
      ensures ZeroDone(cluster, old(client.s), client.s, ok, client.quiet, UpToDate(old(client.s)))
    {
      hide Inv, OnlyRobin, RobinComplete, Appended, SameConfigs, ZeroDone, ShowsNewest, RecordAtZero;
      ok := KeepRobin(cluster);
      ghost var s1 := client.s;
      OnlyRobinFrame(old(client.s), s1);
      ShowsNewestCarries(SeenConfigs(s1), Live(old(client.s)).configs, Live(s1).configs);
      RecordAtZeroKept(Live(old(client.s)).cluster.status, Live(s1).cluster, SeenConfigs(s1));
      if !ok {
        CalledInVain(cluster, old(client.s), s1, UpToDate(old(client.s)));
        return false;
      }
      ok := CreateNewConfig(cluster, Some(latest));
      RecordAtZeroKept(Live(old(client.s)).cluster.status, Live(client.s).cluster, SeenConfigs(client.s));
      RobinCompleteCarries(Live(s1), Live(client.s));
      Asked(cluster, old(client.s), s1, client.s, ok, client.quiet);
    }

    /** Case D: Robin is working. */
    method AwaitZero(cluster: Redkey, configs: seq<Config>) returns (ok: bool)
      requires Inv(client.s) && cluster == SeenCluster(client.s)
      requires cluster.spec.primaries == 0
      requires configs != [] && IsListing(configs, SeenConfigs(client.s)) && Bounded(SeenConfigs(client.s))
      requires SeenConfigs(client.s) != map[]
      requires SeenConfigs(client.s)[Top(SeenConfigs(client.s).Keys)].spec.primaries == 0
      requires SeenConfigs(client.s)[Top(SeenConfigs(client.s).Keys)].status.configPhase != Applied
      modifies client`s
      ensures Inv(client.s)
      ensures ok ==> (RobinComplete(Live(client.s)) <==> client.s.phantoms == old(client.s).phantoms)
      ensures ok ==> ReportedAsIs(Live(client.s).cluster, SeenConfigs(client.s), cluster.generation)
      ensures client.quiet ==> (ok <==> RecordFits(Live(old(client.s)).cluster, Active(configs)))
      ensures ZeroDone(cluster, old(client.s), client.s, ok, client.quiet, UpToDate(old(client.s)))
    {
      hide Inv, OnlyRobin, StatusFrame, RobinComplete, SameIdentity, AggregatedStatus, ZeroDone, OneStatusWrite,
        IsListing, MayTake, RecordAtZero, RecordFollows, Aggregated, ReportedAsIs, RecordFits;
      ZeroMayTake(configs, SeenConfigs(client.s));
      ok := KeepRobin(cluster);
      ghost var s1 := client.s;
      OnlyRobinFrame(old(client.s), s1);
      RecordAtZeroKept(Live(old(client.s)).cluster.status, Live(s1).cluster, SeenConfigs(s1));
      if !ok {
        CalledInVain(cluster, old(client.s), s1, UpToDate(old(client.s)));
        return false;
      }
      ObservedBound(s1);
      ghost var now, replies;
      ok, now, replies := AggregateStatus(cluster, configs);
      StatusFrameGives(s1, client.s);
      RobinCompleteCarries(Live(s1), Live(client.s));
      OneStatusWriteKeeps(s1, client.s);
      RecordAtZeroFrom(Live(old(client.s)).cluster.status, Live(s1).cluster.status, Live(client.s).cluster, configs,
                       SeenConfigs(client.s));
      ReportedFrom(Live(client.s).cluster, configs, SeenConfigs(client.s), Live(s1).cluster.status, cluster.generation,
                   now);
      Awaited(cluster, old(client.s), s1, client.s, ok, client.quiet);
    }

    /** Cases B, C and D, by the newest config listed. */
    method ReconcileLatest(cluster: Redkey, configs: seq<Config>) returns (ok: bool)
      requires Inv(client.s) && cluster == SeenCluster(client.s)
      requires cluster.spec.primaries == 0 && configs != []
      requires IsListing(configs, SeenConfigs(client.s)) && Bounded(SeenConfigs(client.s))
      requires client.s.missed == 0 ==> ShowsNewest(SeenConfigs(client.s), Live(client.s).configs)
      modifies client`s
      ensures Inv(client.s)
      ensures ZeroDone(cluster, old(client.s), client.s, ok, client.quiet, UpToDate(old(client.s)))
    {
      hide Inv, ShowsZero, RobinGone, IsListing, ZeroDone, Bounded, ShowsNewest, Top, RecordAtZero;
      ListingLast(configs, SeenConfigs(client.s));
      var latest := configs[|configs| - 1];
      if latest.spec.primaries != 0 {
        ok := AskForZero(cluster, latest);
      } else if latest.status.configPhase == Applied {
        ok := CleanUpAfterZero(cluster);
        RecordAtZeroKept(Live(old(client.s)).cluster.status, Live(client.s).cluster, SeenConfigs(client.s));
        AllCleanedUp(cluster, old(client.s), client.s, ok, client.quiet);
      } else {
        ok := AwaitZero(cluster, configs);
      }
    }

    method ReconcileScaleToZero(cluster: Redkey) returns (ok: bool)
      requires Inv(client.s) && cluster == SeenCluster(client.s)
      requires cluster.spec.primaries == 0
      modifies client`s
      ensures Inv(client.s)
      ensures ZeroDone(cluster, old(client.s), client.s, ok, client.quiet, true)
    {
      hide Inv, StatusFrame, ShowsZero, IsListing, ZeroDone, SameConfigs, SameRobin, Bounded, ShowsNewest, Top,
        RecordAtZero;
      var configs := ListConfigs();
      if configs == None {
        RecordAtZeroKept(Live(old(client.s)).cluster.status, Live(client.s).cluster, SeenConfigs(client.s));
        CalledInVain(cluster, old(client.s), client.s, true);
        return false;
      }
      ListingTop(configs.value, SeenConfigs(client.s));
      ghost var s1 := client.s;
      // Case A: no configs
      if |configs.value| == 0 {
        ok := UpdateStatusScaledToZero(cluster);
        StatusFrameGives(s1, client.s);
        RecordAtZeroKept(Live(s1).cluster.status, Live(client.s).cluster, SeenConfigs(client.s));
        NothingLeft(cluster, s1, client.s, ok, client.quiet);
      } else {
        ok := ReconcileLatest(cluster, configs.value);
      }
      ZeroDoneSinceList(cluster, old(client.s), s1, client.s, ok, client.quiet);
    }

    // ----- the normal path -----

    method CreateThenList(cluster: Redkey, highestSeq: Option<Config>) returns (r: Option<seq<Config>>)
      requires Inv(client.s) && cluster == SeenCluster(client.s)
      requires highestSeq == None ==> SeenConfigs(client.s) == map[]
      requires highestSeq.Some? ==> highestSeq.value.spec.sequence == Top(SeenConfigs(client.s).Keys)
      requires client.s.missed == 0 ==> ShowsNewest(SeenConfigs(client.s), Live(client.s).configs)
      modifies client`s
      ensures Inv(client.s) && old(client.s).staleLists <= client.s.staleLists
      ensures ListFrame(old(client.s), client.s)
      ensures r.Some? ==> IsListing(r.value, SeenConfigs(client.s)) && Bounded(SeenConfigs(client.s))
      ensures r.Some? && client.s.missed == 0 ==> ShowsNewest(SeenConfigs(client.s), Live(client.s).configs)
      ensures r.Some? && ShowsNewest(SeenConfigs(old(client.s)), Live(old(client.s)).configs) ==>
                Covers(Live(client.s).configs, cluster.generation)
      ensures r.Some? && client.s.staleLists == old(client.s).staleLists ==>
                UpToDate(client.s) && Live(client.s).configs != map[]
      ensures client.quiet ==>
                && r.Some? && client.s.staleLists == old(client.s).staleLists && client.s.missed == old(client.s).missed
                && Live(client.s)
                   == Live(old(client.s)).(configs := Live(client.s).configs, intact := Live(client.s).intact)
      ensures client.quiet && cluster == Live(old(client.s)).cluster && Recordable(Live(old(client.s))) ==>
                Recordable(Live(client.s))
    {
      hide Inv, IsListing, Covers, SameConfigs, Appended, AllInBounds, InBounds, ShowsNewest;
      var ok := CreateNewConfig(cluster, highestSeq);
      ghost var s1 := client.s;
      if !ok {
        return None;
      }
      CreatedNewest(cluster, old(client.s), s1);
      if client.quiet && InBounds(cluster.spec.Topo()) && AllInBounds(Live(old(client.s)).configs) {
        AppendedInBounds(cluster, Top(SeenConfigs(s1).Keys) + 1, Live(old(client.s)).configs, Live(s1).configs);
      }
      r := ListConfigs();
      NewestStays(cluster, s1, client.s);
    }

    /** Lists the configs, and if the Redkey's generation needs a new one creates it and lists
        again. */
    method EnsureNewestConfig(cluster: Redkey) returns (r: Option<seq<Config>>)
      requires Inv(client.s)
      requires cluster == SeenCluster(client.s) && cluster.spec.primaries > 0
      modifies client`s
      ensures Inv(client.s)
      ensures old(client.s).staleLists <= client.s.staleLists && ListFrame(old(client.s), client.s)
      ensures r.Some? ==> IsListing(r.value, SeenConfigs(client.s)) && Bounded(SeenConfigs(client.s))
      ensures r.Some? && client.s.missed == 0 ==>
                && ShowsNewest(SeenConfigs(client.s), Live(client.s).configs)
                && Covers(Live(client.s).configs, cluster.generation)
      ensures r.Some? && client.s.staleLists == old(client.s).staleLists ==>
                UpToDate(client.s) && Live(client.s).configs != map[]
      ensures client.quiet ==> r.Some? && Provisioned(cluster, old(client.s), client.s)
    {
      hide Inv, IsListing, Covers, NeedsNewConfig, SameConfigs, Recordable, ShowsNewest, Provided, Provisioned,
        Bounded, Top;
      r := ListConfigs();
      ghost var s1 := client.s;
      if r == None {
        return;
      }
      ListingTop(r.value, SeenConfigs(s1));
      var highestSeq := None;
      if |r.value| > 0 {
        ListingLast(r.value, SeenConfigs(s1));
        highestSeq := Some(r.value[|r.value| - 1]);
        NeededUnlessProvided(cluster, r.value, SeenConfigs(s1));
      }
      if |r.value| == 0 || NeedsNewConfig(cluster, highestSeq) {
        ShowsItself(Live(s1).configs);
        r := CreateThenList(cluster, highestSeq);
        if client.quiet {
          CreatedProvides(cluster, old(client.s), s1, client.s);
        }
      } else {
        FallbackHidesNothing(s1, r.value);
        if client.quiet {
          ListedProvides(cluster, old(client.s), s1);
        }
      }
    }

    /** Cleans up and publishes what the remaining configs say. */
    method PublishStatus(cluster: Redkey, configs: seq<Config>) returns (ok: bool)
      requires Inv(client.s)
      requires cluster == SeenCluster(client.s) && cluster.spec.primaries > 0
      requires configs != [] && IsListing(configs, SeenConfigs(client.s)) && Bounded(SeenConfigs(client.s))
      requires client.s.missed == 0 ==>
                 && ShowsNewest(SeenConfigs(client.s), Live(client.s).configs)
                 && Covers(Live(client.s).configs, cluster.generation)
      modifies client`s
      ensures Inv(client.s) && SeenConfigs(client.s) == SeenConfigs(old(client.s))
      ensures client.s.staleLists == old(client.s).staleLists && client.s.phantoms == old(client.s).phantoms
      ensures SameRobin(Live(old(client.s)), Live(client.s))
      ensures NotBefore(cluster, SeenCluster(client.s))
      ensures client.s.missed == MissedFrom(old(client.s), SeenCluster(client.s).generation)
      ensures ok && client.s.missed == 0 && SeenCluster(client.s).generation == cluster.generation ==>
                Covers(Live(client.s).configs, cluster.generation)
      ensures ok ==> Live(client.s).cluster.status.observedGeneration == cluster.generation
      ensures ok ==> Reported(Live(client.s).cluster, SeenConfigs(client.s), cluster.generation)
      ensures ok && UpToDate(old(client.s)) ==> Live(client.s).configs != map[]
      ensures RecordKept(Live(old(client.s)).cluster.status, Live(client.s).cluster, SeenConfigs(client.s))
      ensures client.quiet && cluster == Live(old(client.s)).cluster && UpToDate(old(client.s)) ==>
                Published(cluster, old(client.s), client.s, configs, ok)
    {
      hide Inv, IsListing, Covers, StatusFrame, AggregatedStatus, LastApplied, Trimmed, Subconfigs, Aggregated,
        OneStatusWrite, SchemaValid, ShowsNewest, RecordKept, RecordFollows, Published, SameConfigs, Bounded, Top,
        MayTake, Survivors, NextInProgress, Limit, Reported, RecordFits;
      ghost var s1 := client.s;
      ListingTop(configs, SeenConfigs(s1));
      ShowsNewestIsLive(SeenConfigs(s1), Live(s1).configs);
      var rest;
      ok, rest := CleanupSupersededConfigs(configs);
      ghost var s2 := client.s;
      CleanupKeepsNewest(cluster, s1, s2, configs);
      RecordUntouched(Live(s1).cluster.status, Live(s2).cluster, SeenConfigs(s2));
      if !ok {
        return false;
      }
      ObservedBound(s2);
      SelectionMayTake(configs, SeenConfigs(s2));
      ghost var now, replies;
      ok, now, replies := AggregateStatus(cluster, rest);
      StatusFrameGives(s2, client.s);
      NewestStays(cluster, s2, client.s);
      ReportedFrom(Live(client.s).cluster, configs, SeenConfigs(client.s), Live(s2).cluster.status, cluster.generation,
                   now);
      RecordIsNewestApplied(Live(s2).cluster.status, Live(client.s).cluster, configs, SeenConfigs(client.s));
      if client.quiet && cluster == Live(s1).cluster && UpToDate(s1) {
        LiveStatusValid(s1);
        PassPublishes(cluster, s1, s2, client.s, configs, ok, now);
      }
    }

    /** From the list to the status. */
    method ReconcileConfigs(cluster: Redkey) returns (ok: bool)
      requires Inv(client.s)
      requires cluster == SeenCluster(client.s) && cluster.spec.primaries > 0
      modifies client`s
      ensures Inv(client.s)
      ensures old(client.s).staleLists <= client.s.staleLists && client.s.phantoms == old(client.s).phantoms
      ensures SameRobin(Live(old(client.s)), Live(client.s))
      ensures NotBefore(cluster, SeenCluster(client.s))
      ensures ok && client.s.missed == 0 && SeenCluster(client.s).generation == cluster.generation ==>
                Covers(Live(client.s).configs, cluster.generation)
      ensures ok && client.s.staleLists == old(client.s).staleLists ==>
                && Live(client.s).cluster.status.observedGeneration == cluster.generation
                && Live(client.s).configs != map[]
      ensures ok && SeenConfigs(client.s) != map[] ==>
                Reported(Live(client.s).cluster, SeenConfigs(client.s), cluster.generation)
      ensures RecordKept(Live(old(client.s)).cluster.status, Live(client.s).cluster, SeenConfigs(client.s))
      ensures client.quiet ==> client.s.staleLists == old(client.s).staleLists
      ensures client.quiet && cluster == Live(old(client.s)).cluster ==> client.s.missed == old(client.s).missed
      ensures client.quiet && cluster == Live(old(client.s)).cluster ==>
                ConfigsDone(cluster, old(client.s), client.s, ok)
    {
      hide Inv, IsListing, Covers, RecordKept, Published, ConfigsDone, ShowsNewest, Provided, Recordable, Reported;
      var listed := EnsureNewestConfig(cluster);
      ghost var s1 := client.s;
      RecordUntouched(Live(old(client.s)).cluster.status, Live(s1).cluster, SeenConfigs(s1));
      if listed == None {
        return false;
      }
      ListingTop(listed.value, SeenConfigs(s1));
      if |listed.value| == 0 {
        return true;
      }
      ok := PublishStatus(cluster, listed.value);
      if client.quiet && cluster == Live(old(client.s)).cluster {
        PassDone(cluster, old(client.s), s1, client.s, listed.value, ok);
        ObservedBound(client.s);
        PublishedKeepsGeneration(cluster, s1, client.s, listed.value, ok);
      }
    }

    /** A reconcile of a Redkey with primaries. */
    method ReconcilePrimaries(cluster: Redkey) returns (ok: bool)
      requires Inv(client.s)
      requires cluster == SeenCluster(client.s) && cluster.spec.primaries > 0
      modifies client`s
      ensures Inv(client.s)
      ensures NormalDone(cluster, old(client.s), client.s, ok, client.quiet)
    {
      hide Inv, Covers, OnlyRobin, RobinComplete, RobinSettled, SameConfigs, RecordKept, ConfigsDone, CalmDone,
        Reported;
      ok := KeepRobin(cluster);
      ghost var s1 := client.s;
      OnlyRobinFrame(old(client.s), s1);
      RecordUntouched(Live(old(client.s)).cluster.status, Live(s1).cluster, SeenConfigs(s1));
      if !ok {
        return false;
      }
      ok := ReconcileConfigs(cluster);
      RobinCompleteCarries(Live(s1), Live(client.s));
      if client.quiet && cluster == Live(old(client.s)).cluster {
        CalmSinceRobin(cluster, old(client.s), s1, client.s, ok);
      }
    }

    /** One reconcile; `seen` is the Redkey it acted on. */
    method Reconcile() returns (ok: bool, seen: Option<Redkey>)
      requires Inv(client.s)
      modifies client`s
      ensures Inv(client.s) && (ok ==> seen.Some?)
      ensures seen.Some? && seen.value.spec.primaries > 0 ==>
                NormalDone(seen.value, old(client.s), client.s, ok, client.quiet)
      ensures seen.Some? && seen.value.spec.primaries == 0 ==>
                ZeroDone(seen.value, old(client.s), client.s, ok, client.quiet, true)
      ensures client.quiet ==> seen == Some(Live(old(client.s)).cluster)
    {
      hide Inv, NormalDone, ZeroDone;
      var cluster := client.GetCluster();
      ghost var s1 := client.s;
      seen := cluster;
      if cluster == None {
        return false, seen;
      }
      if cluster.value.spec.primaries == 0 {
        ok := ReconcileScaleToZero(cluster.value);
        ZeroDoneSinceGet(cluster.value, old(client.s), s1, client.s, ok, client.quiet);
      } else {
        ok := ReconcilePrimaries(cluster.value);
        NormalDoneSinceGet(cluster.value, old(client.s), s1, client.s, ok, client.quiet);
      }
    }
  }

  /** What a reconcile of a Redkey with primaries achieves between `s` and `s'`. If every list
      showed the newest config, an error-free one leaves the newest config for the generation it
      saw. If its own reads were up to date, that generation is observed and Robin is complete.
      Whatever the list lacked, the status is the report of the config selected from it. What it
      records comes from the newest applied config it listed. */
  ghost predicate NormalDone(cluster: Redkey, s: Sys, s': Sys, ok: bool, quiet: bool) {
    && Shaped(s) && Shaped(s') && s.staleLists <= s'.staleLists && s.phantoms <= s'.phantoms
    && NotBefore(cluster, SeenCluster(s'))
    && (ok && s'.missed == 0 && SeenCluster(s').generation == cluster.generation ==>
          Covers(Live(s').configs, cluster.generation))
    && (ok && s'.staleLists == s.staleLists ==>
          Live(s').cluster.status.observedGeneration == cluster.generation && Live(s').configs != map[])
    && (ok ==> (RobinComplete(Live(s')) <==> s'.phantoms == s.phantoms))
    && (ok && SeenConfigs(s') != map[] ==> Reported(Live(s').cluster, SeenConfigs(s'), cluster.generation))
    && RecordKept(Live(s).cluster.status, Live(s').cluster, SeenConfigs(s'))
    && (quiet && cluster == Live(s).cluster ==>
          && s'.phantoms == s.phantoms && s'.staleLists == s.staleLists
          && s'.missed == MissedFrom(s, cluster.generation) && CalmDone(cluster, s, s', ok))
  }

  /** What it does undisturbed: it succeeds if the schema lets it record what it has to, it
      converges, and once it has it does nothing but write the same status again. If it fails it
      is stuck, and once it is stuck it changes neither the Redkey nor the configs. */
  ghost predicate CalmDone(cluster: Redkey, s: Sys, s': Sys, ok: bool)
    requires Shaped(s) && Shaped(s')
  {
    && (Recordable(Live(s)) ==> ok)
    && (ok ==> Current(Live(s')))
    && (ok && REVISION !in cluster.spec.annotations ==> Converged(Live(s')))
    && (Converged(Live(s)) ==>
          ok && OneStatusWrite(s, s') && OnlyTimeMoved(cluster.status, Live(s').cluster.status))
    && (!ok ==> Stuck(Live(s')) && Live(s').cluster == cluster)
    && (Stuck(Live(s)) ==> !ok && Live(s').configs == Live(s).configs)
  }

  /** The configs are as they should be, but what the status would have to record is refused. */
  ghost predicate Stuck(w: World) {
    && Provided(w)
    && exists l :: IsListing(l, w.configs) && l != [] && LastApplied(l) <= 0 && !RecordFits(w.cluster, Active(l))
  }

  /** The same for the part from the list to the status. */
  ghost predicate ConfigsDone(cluster: Redkey, s: Sys, s': Sys, ok: bool) {
    && Shaped(s) && Shaped(s')
    && (Recordable(Live(s)) ==> ok)
    && (ok ==> Current(Live(s')) && Republished(Live(s), Live(s')))
    && (Current(Live(s)) ==>
          ok && OneStatusWrite(s, s') && OnlyTimeMoved(cluster.status, Live(s').cluster.status))
    && (!ok ==> Stuck(Live(s')) && Live(s').cluster == cluster)
    && (Stuck(Live(s)) ==> !ok && Live(s').configs == Live(s).configs)
  }

  /** The same for cleanup and aggregation of an up-to-date list `l`. */
  ghost predicate Published(cluster: Redkey, s: Sys, s': Sys, l: seq<Config>, ok: bool) {
    && Shaped(s) && Shaped(s') && l != []
    && (ok <==> RecordFits(cluster, Active(Survivors(l))))
    && (ok ==> Current(Live(s')) && Republished(Live(s), Live(s')))
    && (Current(Live(s)) ==>
          ok && OneStatusWrite(s, s') && OnlyTimeMoved(cluster.status, Live(s').cluster.status))
    && (!ok && Provided(Live(s)) ==> Stuck(Live(s')) && Live(s').cluster == cluster)
    && (Stuck(Live(s)) ==> !ok && Live(s').configs == Live(s).configs)
  }

  lemma PublishedKeepsGeneration(cluster: Redkey, s: Sys, s': Sys, l: seq<Config>, ok: bool)
    requires Published(cluster, s, s', l, ok) && Provided(Live(s)) && cluster == Live(s).cluster
    ensures Live(s').cluster.generation == cluster.generation
  {
    hide Current, Stuck, RecordFits, OneStatusWrite, Survivors, NextInProgress;
  }

  /** Cleanup left `s'`, aggregation then `s''`, both undisturbed. */
  lemma PassPublishes(cluster: Redkey, s: Sys, s': Sys, s'': Sys, l: seq<Config>, ok: bool, now: nat)
    requires Shaped(s) && Shaped(s') && Shaped(s'') && cluster == Live(s).cluster && SchemaValid(cluster.status)
    requires l != [] && IsListing(l, Live(s).configs) && Bounded(Live(s).configs)
    requires Live(s') == Live(s).(configs := Live(s').configs) && Submap(Live(s').configs, Live(s).configs)
    requires Trimmed(Live(s).configs, Live(s').configs, Limit(l)) && (LastApplied(l) <= 0 ==> s' == s)
    requires forall j :: 0 <= j < LastApplied(l) ==> l[j].spec.sequence !in Live(s').configs
    requires var active := Active(Survivors(l));
             && (ok ==> Aggregated(cluster.status, Live(s'').cluster, active, cluster.generation, now))
             && if RecordFits(cluster, active)
                then ok && OneStatusWrite(s', s'') else !ok && Live(s'') == Live(s')
    ensures Published(cluster, s, s'', l, ok)
  {
    hide LastApplied, IsListing, NextInProgress, Trimmed, Submap, Aggregated, SchemaValid, RecordFits, OneStatusWrite,
      Current, Stuck, Provided, Limit;
    if ok {
      PassSettles(cluster, s, s', s'', l, now);
    } else {
      PassSticks(cluster, s, s', l);
    }
    if Current(Live(s)) {
      CurrentListing(Live(s), l);
      SettledPass(cluster, s', s'', Active(l), ok, now);
    }
    if Stuck(Live(s)) {
      StuckListing(Live(s), l);
    }
  }

  lemma PassSticks(cluster: Redkey, s: Sys, s': Sys, l: seq<Config>)
    requires Shaped(s) && Shaped(s') && cluster == Live(s).cluster
    requires l != [] && IsListing(l, Live(s).configs) && Bounded(Live(s).configs)
    requires Live(s') == Live(s).(configs := Live(s').configs) && Submap(Live(s').configs, Live(s).configs)
    requires Trimmed(Live(s).configs, Live(s').configs, Limit(l))
    requires forall j :: 0 <= j < LastApplied(l) ==> l[j].spec.sequence !in Live(s').configs
    requires !RecordFits(cluster, Active(Survivors(l)))
    ensures Provided(Live(s)) ==> Stuck(Live(s'))
  {
    hide LastApplied, IsListing, NextInProgress, RecordFits, Covers;
    SurvivorsAreListed(l, Live(s).configs, Live(s').configs);
    SurvivorsSettle(l);
    ListingTop(l, Live(s).configs);
    SurvivorsExist(l, Live(s).configs);
    TrimmedKeepsTop(Live(s).configs, Live(s').configs, Limit(l), cluster.generation);
  }

  lemma StuckListing(w: World, l: seq<Config>)
    requires Stuck(w) && IsListing(l, w.configs) && Bounded(w.configs)
    ensures l != [] && LastApplied(l) <= 0 && !RecordFits(w.cluster, Active(l))
  {
    hide IsListing, RecordFits, LastApplied, NextInProgress, Provided;
    var l' :| IsListing(l', w.configs) && l' != [] && LastApplied(l') <= 0 && !RecordFits(w.cluster, Active(l'));
    ListingIsUnique(l, l', w.configs);
  }

  /** Listing and creating took `s` to `s1`, cleanup and aggregation `s1` to `s'`. */
  lemma PassDone(cluster: Redkey, s: Sys, s1: Sys, s': Sys, l: seq<Config>, ok: bool)
    requires Provisioned(cluster, s, s1) && cluster == Live(s).cluster
    requires Published(cluster, s1, s', l, ok) && IsListing(l, Live(s1).configs)
    ensures ConfigsDone(cluster, s, s', ok)
  {
    hide Recordable, Current, RecordFits, IsListing, OneStatusWrite, Survivors, NextInProgress;
    if Recordable(Live(s1)) {
      SurvivorsExist(l, Live(s1).configs);
      ActiveIsRecordable(Live(s1), l, Survivors(l));
    }
    if Current(Live(s)) {
      CurrentIsProvided(Live(s));
      SameStart(s, s1, s');
    }
  }

  lemma CurrentIsProvided(w: World)
    requires Current(w)
    ensures Provided(w)
  {
    hide Covers, IsListing, Mirrors, LastApplied;
  }

  /** Robin's objects were put in order first. */
  lemma CalmSinceRobin(cluster: Redkey, s: Sys, s1: Sys, s': Sys, ok: bool)
    requires Shaped(s) && Shaped(s1) && cluster == Live(s).cluster && cluster.spec.primaries > 0
    requires Live(s1) == Live(s).(rbac := Live(s1).rbac, deployment := Live(s1).deployment)
    requires REVISION !in cluster.spec.annotations ==> RobinSettled(Live(s1), cluster)
    requires RobinSettled(Live(s), cluster) ==> s1.log == s.log && Live(s1) == Live(s)
    requires ConfigsDone(cluster, s1, s', ok)
    ensures CalmDone(cluster, s, s', ok)
  {
    hide RobinSettled, IsListing, AllInBounds, OneStatusWrite, Mirrors, RecordFits, LastApplied, Covers,
      NextInProgress;
    if ok {
      SettledCarries(cluster, Live(s1), Live(s'));
    }
    if Converged(Live(s)) {
      SameStart(s, s1, s');
    }
  }

  /** After cleanup, an applied newest config is the one selected. */
  lemma SelectionMayTake(l: seq<Config>, m: map<nat, Config>)
    requires IsListing(l, m) && Bounded(m) && l != []
    ensures MayTake(m, Active(Survivors(l)))
  {
    hide IsListing, Bounded, NoneAbove, LastApplied, NextInProgress, Survivors;
    CleanupThenSelect(l);
    var a := LastApplied(l);
    var p := NextInProgress(l, a + 1);
    var i := if p < |l| then p else if a >= 0 then a else 0;
    ListedAt(l, m, i);
    forall j | j in m && NoneAbove(m, j) && SettledOn(m[j], m[j].spec.Topo())
      ensures j == l[i].spec.sequence
    {
      NewestListed(l, m, j);
    }
    assert Chosen(m, l[i].spec.sequence);
  }

  /** Without cleanup, when the newest config asks for no primaries, any will do. */
  lemma ZeroMayTake(l: seq<Config>, m: map<nat, Config>)
    requires IsListing(l, m) && Bounded(m) && l != [] && m != map[] && m[Top(m.Keys)].spec.primaries == 0
    ensures MayTake(m, Active(l))
  {
    hide IsListing, Bounded, NoneAbove, NextInProgress;
    var p := NextInProgress(l, 0);
    var i := if p < |l| then p else 0;
    ListedAt(l, m, i);
    ListingLast(l, m);
    forall j | j in m && NoneAbove(m, j)
      ensures !SettledOn(m[j], m[j].spec.Topo())
    {
      NewestListed(l, m, j);
    }
    assert Chosen(m, l[i].spec.sequence);
  }

  lemma ListedAt(l: seq<Config>, m: map<nat, Config>, i: nat)
    requires IsListing(l, m) && i < |l|
    ensures l[i].spec.sequence in m && m[l[i].spec.sequence] == l[i]
  {
  }

  lemma NewestListed(l: seq<Config>, m: map<nat, Config>, j: nat)
    requires IsListing(l, m) && Bounded(m) && l != [] && j in m && NoneAbove(m, j)
    ensures j == Top(m.Keys) == l[|l| - 1].spec.sequence && m[j] == l[|l| - 1]
  {
    hide IsListing;
    TopIs(m.Keys, j);
    ListingLast(l, m);
  }

  // ----- where a record comes from -----

  /** `t` is the topology of the newest applied config of `m`. */
  ghost predicate NewestApplied(m: map<nat, Config>, t: Topology) {
    exists k :: k in m && IsApplied(m[k]) && m[k].spec.Topo() == t && NoneAppliedAbove(m, k)
  }

  ghost predicate NoneAppliedAbove(m: map<nat, Config>, k: nat) {
    forall j :: j in m && j > k ==> !IsApplied(m[j])
  }

  /** The record is kept, or it is the topology of the newest applied config listed. */
  ghost predicate RecordKept(before: Status, c: Redkey, listed: map<nat, Config>) {
    || c.status.LastApplied() == before.LastApplied()
    || (!c.spec.ephemeral && NewestApplied(listed, c.status.LastApplied()))
  }

  /** The status is the report of the config selected from the list after cleanup. */
  ghost predicate Reported(c: Redkey, listed: map<nat, Config>, g: nat) {
    && c.status.observedGeneration == g
    && exists l :: IsListing(l, listed) && l != [] && Mirrors(c, Active(Survivors(l)))
  }

  lemma RecordUntouched(before: Status, c: Redkey, m: map<nat, Config>)
    ensures c.status == before ==> RecordKept(before, c, m)
  {
  }

  lemma RecordIsNewestApplied(before: Status, c: Redkey, l: seq<Config>, m: map<nat, Config>)
    requires IsListing(l, m) && Bounded(m) && l != []
    requires RecordFollows(before, c, Active(Survivors(l)))
    ensures RecordKept(before, c, m)
  {
    hide LastApplied, NextInProgress, Survivors;
    CleanupThenSelect(l);
    var a := LastApplied(l);
    if c.status.LastApplied() != before.LastApplied() {
      var k := l[a].spec.sequence;
      forall j | j in m && j > k
        ensures !IsApplied(m[j])
      {
        assert m[j] in l;
        var i :| 0 <= i < |l| && l[i] == m[j];
        assert i > a;
      }
      assert k in m && m[k] == l[a] && NoneAppliedAbove(m, k);
    }
  }

  /** There is nothing left to do. */
  ghost predicate Converged(w: World) {
    w.cluster.spec.primaries > 0 && RobinSettled(w, w.cluster) && Current(w)
  }

  lemma SettledCarries(cluster: Redkey, w: World, w': World)
    requires Republished(w, w') && cluster == w.cluster
    ensures RobinSettled(w, cluster) ==> RobinSettled(w', w'.cluster)
  {
    hide RbacServes, Serves;
    ServingIgnoresStatus(cluster, w'.cluster);
  }

  lemma ServingIgnoresStatus(c: Redkey, c': Redkey)
    requires c.name == c'.name && c.namespace == c'.namespace && c.spec == c'.spec
    ensures forall d :: Serves(d, c) <==> Serves(d, c')
    ensures forall o, kind :: RbacServes(o, c, kind) <==> RbacServes(o, c', kind)
  {
    hide Decorated, Environment, ContainerServes, Derives;
  }

  lemma NormalDoneSinceGet(cluster: Redkey, s: Sys, s1: Sys, s': Sys, ok: bool, quiet: bool)
    requires Shaped(s) && Shaped(s1) && NormalDone(cluster, s1, s', ok, quiet)
    requires s1.staleLists == s.staleLists && s1.phantoms == s.phantoms
    requires Live(s1).cluster.status == Live(s).cluster.status && SeenCluster(s1) == cluster
    requires s1.missed == MissedFrom(s, cluster.generation)
    requires quiet ==> Live(s1) == Live(s) && s1.log == s.log
    ensures NormalDone(cluster, s, s', ok, quiet)
  {
    hide Covers, Current, RobinComplete, RobinSettled, RecordKept, Recordable, Stuck, Reported;
    RecordKeptSince(Live(s).cluster.status, Live(s1).cluster.status, Live(s').cluster, SeenConfigs(s'));
  }

  lemma RecordKeptSince(before: Status, before': Status, c: Redkey, m: map<nat, Config>)
    requires before == before'
    ensures RecordKept(before, c, m) == RecordKept(before', c, m)
  {
  }

  lemma ZeroDoneSinceGet(cluster: Redkey, s: Sys, s1: Sys, s': Sys, ok: bool, quiet: bool)
    requires Shaped(s) && Shaped(s1) && ZeroDone(cluster, s1, s', ok, quiet, true)
    requires s1.staleLists == s.staleLists && s1.phantoms == s.phantoms
    requires quiet ==> Live(s1) == Live(s)
    requires SameConfigs(Live(s).configs, Live(s1).configs) && SameRobin(Live(s), Live(s1))
    requires Live(s1).cluster.status == Live(s).cluster.status
    ensures ZeroDone(cluster, s, s', ok, quiet, true)
  {
    hide ShowsZero, RobinComplete, RobinGone, Rank, Progressed, ZeroProgress, RecordAtZero, ReportedAsIs;
    RecordAtZeroSince(Live(s).cluster.status, Live(s1).cluster.status, Live(s').cluster, SeenConfigs(s'));
    RobinGoneCarries(Live(s), Live(s1));
    SameConfigsCompose(Live(s).configs, Live(s).configs, Live(s1).configs);
    if ok && s.staleLists == s'.staleLists {
      ProgressSinceCalm(cluster, Live(s).configs, Live(s1).configs, Live(s').configs);
      if Live(s').configs != map[] {
        SameConfigsCompose(Live(s).configs, Live(s1).configs, SeenConfigs(s'));
      }
    }
  }

  /** The schema accepts whatever topology may have to be recorded. */
  ghost predicate Recordable(w: World) {
    w.cluster.spec.ephemeral || (InBounds(w.cluster.spec.Topo()) && AllInBounds(w.configs))
  }

  ghost predicate AllInBounds(m: map<nat, Config>) {
    forall k :: k in m ==> InBounds(m[k].spec.Topo())
  }

  /** The guard of the one way an undisturbed reconcile fails: what aggregation would record. */
  predicate RecordFits(cluster: Redkey, active: Config) {
    || cluster.spec.ephemeral || !IsApplied(active)
    || active.spec.primaries == 0
    || (active.spec.primaries <= 100_000 && 0 <= active.spec.replicasPerPrimary <= 100_000)
  }

  lemma RecordFitsIsExact(cluster: Redkey, active: Config, observed: nat, now: nat)
    requires SchemaValid(cluster.status)
    ensures SchemaValid(AggregatedStatus(cluster, active, observed, now)) <==> RecordFits(cluster, active)
  {
    hide AggregatedConditions;
  }

  lemma AppendedInBounds(cluster: Redkey, k: nat, m: map<nat, Config>, m': map<nat, Config>)
    requires Appended(cluster, k, m, m') || SameConfigs(m, m')
    requires InBounds(cluster.spec.Topo()) && AllInBounds(m)
    ensures AllInBounds(m')
  {
    hide InBounds;
    forall j | j in m'
      ensures InBounds(m'[j].spec.Topo())
    {
      if j in m {
        assert SameIdentity(m'[j], m[j]);
      }
    }
  }

  lemma ActiveIsRecordable(w: World, l: seq<Config>, r: seq<Config>)
    requires Recordable(w) && IsListing(l, w.configs) && l != [] && r == Survivors(l) && r != []
    ensures RecordFits(w.cluster, Active(r))
  {
    hide LastApplied, NextInProgress;
    var i :| 0 <= i < |l| && l[i] == Active(r);
    assert l[i].spec.sequence in w.configs;
  }

  /** Configs and the status changed, nothing else did. */
  ghost predicate Republished(w: World, w': World) {
    w' == w.(configs := w'.configs, intact := w'.intact,
             cluster := w.cluster.(status := w'.cluster.status, resourceVersion := w.cluster.resourceVersion + 1))
  }

  ghost predicate OnlyTimeMoved(st: Status, st': Status) {
    st' == st.(lastUpdatedAt := st'.lastUpdatedAt)
  }

  lemma SameStart(s0: Sys, s: Sys, s': Sys)
    requires Shaped(s0) && Shaped(s) && Live(s0) == Live(s) && s0.log == s.log && OneStatusWrite(s, s')
    ensures OneStatusWrite(s0, s')
  {
  }

  /** Reading and creating configs leaves the rest alone. */
  ghost predicate ListFrame(s: Sys, s': Sys) {
    && Shaped(s) && Shaped(s')
    && SeenCluster(s') == SeenCluster(s) && s.missed <= s'.missed && s'.phantoms == s.phantoms
    && SameRobin(Live(s), Live(s')) && Live(s').cluster.status == Live(s).cluster.status
  }

  /** No new config is needed. */
  ghost predicate Provided(w: World) {
    && w.configs != map[]
    && (w.cluster.status.observedGeneration >= w.cluster.generation || Covers(w.configs, w.cluster.generation))
  }

  /** What listing and creating do undisturbed. */
  ghost predicate Provisioned(cluster: Redkey, s: Sys, s': Sys) {
    && Shaped(s) && Shaped(s') && s'.staleLists == s.staleLists && s'.missed == s.missed
    && Live(s') == Live(s).(configs := Live(s').configs, intact := Live(s').intact)
    && (cluster == Live(s).cluster ==>
          && Provided(Live(s'))
          && (Provided(Live(s)) ==> Live(s') == Live(s) && s'.log == s.log)
          && (Recordable(Live(s)) ==> Recordable(Live(s'))))
  }

  lemma ListedProvides(cluster: Redkey, s: Sys, s1: Sys)
    requires Shaped(s) && Shaped(s1) && Live(s1).configs != map[]
    requires s1.staleLists == s.staleLists && s1.missed == s.missed
    requires Live(s1) == Live(s) && s1.log == s.log
    requires cluster.status.observedGeneration >= cluster.generation || Covers(Live(s1).configs, cluster.generation)
    ensures Provisioned(cluster, s, s1)
  {
    hide Covers, Recordable;
  }

  lemma CreatedProvides(cluster: Redkey, s: Sys, s1: Sys, s': Sys)
    requires Shaped(s) && Shaped(s1) && Shaped(s') && Live(s').configs != map[]
    requires s'.staleLists == s1.staleLists == s.staleLists && s'.missed == s1.missed == s.missed
    requires Live(s1) == Live(s).(intact := Live(s1).intact)
    requires Live(s') == Live(s1).(configs := Live(s').configs, intact := Live(s').intact)
    requires Covers(Live(s').configs, cluster.generation)
    requires Live(s1).configs == map[] ||
             !(cluster.status.observedGeneration >= cluster.generation || Covers(Live(s1).configs, cluster.generation))
    requires cluster == Live(s1).cluster && Recordable(Live(s1)) ==> Recordable(Live(s'))
    ensures Provisioned(cluster, s, s')
  {
    hide Covers, AllInBounds, InBounds;
  }

  lemma NeededUnlessProvided(cluster: Redkey, l: seq<Config>, m: map<nat, Config>)
    requires IsListing(l, m) && Bounded(m) && l != []
    ensures NeedsNewConfig(cluster, Some(l[|l| - 1])) <==>
              !(cluster.status.observedGeneration >= cluster.generation || Covers(m, cluster.generation))
  {
    hide NeedsNewConfig, IsListing;
    ListingLast(l, m);
    NeedsNewConfigMeaning(cluster, Some(l[|l| - 1]));
  }

  /** The status is up to date with configs of which none is superseded. */
  ghost predicate Current(w: World)
    ensures Current(w) ==> w.configs != map[] && w.cluster.status.observedGeneration == w.cluster.generation
  {
    && w.configs != map[] && w.cluster.status.observedGeneration == w.cluster.generation
    && exists l :: IsListing(l, w.configs) && LastApplied(l) <= 0 && l != [] && Mirrors(w.cluster, Active(l))
  }

  /** With lists that have never lagged, skipping creation because the generation has been
      observed is sound: the newest config is for that generation. */
  lemma FallbackHidesNothing(s: Sys, l: seq<Config>)
    requires Inv(s) && IsListing(l, SeenConfigs(s)) && Bounded(SeenConfigs(s)) && l != []
    requires !NeedsNewConfig(SeenCluster(s), Some(l[|l| - 1])) && SeenCluster(s).spec.primaries > 0
    requires s.missed == 0 ==> ShowsNewest(SeenConfigs(s), Live(s).configs)
    ensures s.missed == 0 ==> Covers(Live(s).configs, SeenCluster(s).generation)
  {
    hide Trace, RecordsApplied, RestIsSteady, LineageSeen, OnlyTopology, ConfigsSound, IsListing, NeedsNewConfig,
      ShowsNewest;
    ListingLast(l, SeenConfigs(s));
    NeedsNewConfigMeaning(SeenCluster(s), Some(l[|l| - 1]));
    ObservedBound(s);
    if s.missed == 0 {
      ShowsNewestTop(SeenConfigs(s), Live(s).configs);
    }
  }

  lemma CreatedNewest(cluster: Redkey, s: Sys, s': Sys)
    requires SameViews(s, s') && cluster == SeenCluster(s)
    requires var k := Top(SeenConfigs(s).Keys) + 1;
             && (|| Appended(cluster, k, Live(s).configs, Live(s').configs)
                 || SameConfigs(Live(s).configs, Live(s').configs))
             && k in Live(s').configs
    ensures Live(s').configs != map[]
    ensures ShowsNewest(SeenConfigs(s), Live(s).configs) ==> Covers(Live(s').configs, cluster.generation)
  {
    hide ShowsNewest;
    if ShowsNewest(SeenConfigs(s), Live(s).configs) {
      ShowsNewestTop(SeenConfigs(s), Live(s).configs);
      NotThereBefore(cluster, Live(s).configs, Live(s).configs, Live(s').configs);
      TopIs(Live(s').configs.Keys, Top(Live(s).configs.Keys) + 1);
    }
  }

  lemma NewestStays(cluster: Redkey, s: Sys, s': Sys)
    requires Shaped(s) && Shaped(s') && SameConfigs(Live(s).configs, Live(s').configs)
    ensures Covers(Live(s).configs, cluster.generation) ==> Covers(Live(s').configs, cluster.generation)
    ensures Live(s).configs != map[] ==> Live(s').configs != map[]
  {
    hide Covers;
    CoversCarries(Live(s).configs, Live(s').configs, cluster.generation);
    SameConfigsCompose(Live(s).configs, Live(s).configs, Live(s').configs);
  }

  /** Cleanup spares the newest config. */
  lemma CleanupKeepsNewest(cluster: Redkey, s: Sys, s': Sys, l: seq<Config>)
    requires Shaped(s) && IsListing(l, SeenConfigs(s)) && Bounded(SeenConfigs(s)) && l != [] && CleanupFrame(s, s')
    requires Trimmed(Live(s).configs, Live(s').configs, Limit(l))
    requires s.missed == 0 ==>
              ShowsNewest(SeenConfigs(s), Live(s).configs) && Covers(Live(s).configs, cluster.generation)
    ensures Survivors(l) != []
    ensures s'.missed == 0 ==> Covers(Live(s').configs, cluster.generation)
    ensures UpToDate(s) ==> Live(s').configs != map[]
  {
    hide LastApplied, Trimmed, Covers, IsListing, Survivors, Limit, ShowsNewest;
    ShowsItself(SeenConfigs(s));
    ListingTop(l, SeenConfigs(s));
    SurvivorsExist(l, SeenConfigs(s));
    if ShowsNewest(SeenConfigs(s), Live(s).configs) {
      ShowsNewestTop(SeenConfigs(s), Live(s).configs);
      TrimmedKeepsTop(Live(s).configs, Live(s').configs, Limit(l), cluster.generation);
    }
  }

  lemma SurvivorsExist(l: seq<Config>, m: map<nat, Config>)
    requires IsListing(l, m) && l != []
    ensures Survivors(l) != []
    ensures Limit(l) <= l[|l| - 1].spec.sequence
  {
    hide LastApplied;
  }

  lemma TrimmedKeepsTop(m: map<nat, Config>, m': map<nat, Config>, limit: nat, g: nat)
    requires m != map[] && Trimmed(m, m', limit) && limit <= Top(m.Keys)
    ensures m' != map[] && (Covers(m, g) <==> Covers(m', g))
  {
    TopIs(m'.Keys, Top(m.Keys));
  }

  lemma ListingWithoutLast(l: seq<Config>, m: map<nat, Config>)
    requires IsListing(l, m) && Bounded(m) && l != []
    ensures IsListing(l[..|l| - 1], m - {Top(m.Keys)})
  {
    hide Top;
    var r, m' := l[..|l| - 1], m - {Top(m.Keys)};
    ListingTop(l, m);
    forall i | 0 <= i < |r|
      ensures r[i].spec.sequence in m' && m'[r[i].spec.sequence] == r[i]
    {
      assert r[i] == l[i] && l[i].spec.sequence < l[|l| - 1].spec.sequence;
    }
    forall k | k in m'
      ensures m'[k] in r
    {
      assert m[k] in l;
      var j :| 0 <= j < |l| && l[j] == m[k];
      assert r[j] == l[j];
    }
  }

  lemma {:induction false} ListingIsUnique(l: seq<Config>, l': seq<Config>, m: map<nat, Config>)
    requires IsListing(l, m) && IsListing(l', m) && Bounded(m)
    ensures l == l'
    decreases |l|
  {
    hide IsListing;
    ListingTop(l, m);
    ListingTop(l', m);
    if l != [] {
      ListingLast(l, m);
      ListingLast(l', m);
      ListingWithoutLast(l, m);
      ListingWithoutLast(l', m);
      ListingIsUnique(l[..|l| - 1], l'[..|l'| - 1], m - {Top(m.Keys)});
      assert l == l[..|l| - 1] + [l[|l| - 1]] && l' == l'[..|l'| - 1] + [l'[|l'| - 1]];
    }
  }

  /** What cleanup leaves of an up-to-date list is a list of what it leaves of the store. */
  lemma SurvivorsAreListed(l: seq<Config>, m: map<nat, Config>, m': map<nat, Config>)
    requires IsListing(l, m) && Bounded(m) && Submap(m', m)
    requires forall k :: k in m && k >= Limit(l) ==> k in m'
    requires forall j :: 0 <= j < LastApplied(l) ==> l[j].spec.sequence !in m'
    ensures IsListing(Survivors(l), m')
  {
    hide LastApplied, IsListing;
    SuffixIsListed(l, m, m', if LastApplied(l) <= 0 then 0 else LastApplied(l), Limit(l));
    assert l[0..] == l;
  }

  lemma SuffixIsListed(l: seq<Config>, m: map<nat, Config>, m': map<nat, Config>, a: nat, limit: nat)
    requires IsListing(l, m) && Submap(m', m) && a <= |l|
    requires if a == 0 then limit == 0 else a < |l| && limit == l[a].spec.sequence
    requires forall k :: k in m && k >= limit ==> k in m'
    requires forall j :: 0 <= j < a ==> l[j].spec.sequence !in m'
    requires Bounded(m)
    ensures IsListing(l[a..], m')
  {
    var r := l[a..];
    forall i | 0 <= i < |r|
      ensures r[i].spec.sequence in m' && m'[r[i].spec.sequence] == r[i]
    {
      assert r[i] == l[a + i];
      assert l[a + i].spec.sequence >= limit;
    }
    forall k | k in m'
      ensures m'[k] in r
    {
      assert m[k] in l;
      var j :| 0 <= j < |l| && l[j] == m[k];
      assert j >= a && r[j - a] == l[j];
    }
  }

  /** An undisturbed pass leaves the status current. */
  lemma PassSettles(cluster: Redkey, s: Sys, s': Sys, s'': Sys, l: seq<Config>, now: nat)
    requires Shaped(s) && Shaped(s') && cluster == Live(s).cluster
    requires l != [] && IsListing(l, Live(s).configs) && Bounded(Live(s).configs)
    requires Live(s') == Live(s).(configs := Live(s').configs) && Submap(Live(s').configs, Live(s).configs)
    requires Trimmed(Live(s).configs, Live(s').configs, Limit(l))
    requires forall j :: 0 <= j < LastApplied(l) ==> l[j].spec.sequence !in Live(s').configs
    requires OneStatusWrite(s', s'') && Survivors(l) != []
    requires Aggregated(cluster.status, Live(s'').cluster, Active(Survivors(l)), cluster.generation, now)
    ensures Current(Live(s'')) && Republished(Live(s), Live(s''))
  {
    hide LastApplied, IsListing, NextInProgress, Mirrors;
    var r := Survivors(l);
    SurvivorsAreListed(l, Live(s).configs, Live(s').configs);
    SurvivorsSettle(l);
    ListingTop(r, Live(s').configs);
  }

  lemma CurrentListing(w: World, l: seq<Config>)
    requires Current(w) && IsListing(l, w.configs) && Bounded(w.configs)
    ensures l != [] && LastApplied(l) <= 0 && Mirrors(w.cluster, Active(l))
  {
    hide IsListing, Mirrors, LastApplied, NextInProgress;
    var l' :| IsListing(l', w.configs) && LastApplied(l') <= 0 && l' != [] && Mirrors(w.cluster, Active(l'));
    ListingIsUnique(l, l', w.configs);
  }

  lemma LiveStatusValid(s: Sys)
    requires Inv(s)
    ensures SchemaValid(Live(s).cluster.status)
  {
    hide Trace, RecordsApplied, RestIsSteady, LineageSeen, OnlyTopology, NothingLost, ConfigsSound;
    SeenIsPast(s, 0);
  }

  /** An undisturbed pass over a current status only moves its time stamp. */
  lemma SettledPass(cluster: Redkey, s: Sys, s': Sys, active: Config, ok: bool, now: nat)
    requires Shaped(s) && Shaped(s') && cluster == Live(s).cluster && Mirrors(cluster, active)
    requires SchemaValid(cluster.status)
    requires RecordFits(cluster, active) ==> ok && OneStatusWrite(s, s')
    requires cluster.status.observedGeneration == cluster.generation
    requires ok ==> Aggregated(cluster.status, Live(s').cluster, active, cluster.generation, now)
    ensures ok && OneStatusWrite(s, s')
    ensures Live(s').cluster.status == cluster.status.(lastUpdatedAt := now)
  {
    hide Aggregated, ConditionsTell;
    MirroredStays(cluster, Live(s').cluster, active, now);
  }

  lemma ShowsNewestIsLive(seen: map<nat, Config>, m: map<nat, Config>)
    requires seen != map[]
    ensures ShowsNewest(seen, m) ==> Top(seen.Keys) in m
  {
    hide ShowsNewest;
    if ShowsNewest(seen, m) {
      ShowsNewestTop(seen, m);
    }
  }

  /** What a reconcile at zero primaries achieves between `s` and `s'`. Whatever its list showed, an
      error-free one leaves Robin complete unless a read showed a Robin object that was gone, or
      removed Robin, or left it alone because the list was empty. If its list was up to date, it
      makes progress on the configs it listed and either leaves no config and says so, or leaves
      Robin complete with the same exception. If it leaves no config, Robin is gone exactly when
      there was a config to clean up after or it was gone before. While Robin works on the zero config
      its report is published. Undisturbed, it lowers the rank except while Robin is at work. */
  ghost predicate ZeroDone(cluster: Redkey, s: Sys, s': Sys, ok: bool, quiet: bool, upToDate: bool) {
    && Shaped(s) && Shaped(s') && s.staleLists <= s'.staleLists && s.phantoms <= s'.phantoms
    && RecordAtZero(Live(s).cluster.status, Live(s').cluster, SeenConfigs(s'))
    && (ok ==>
          || (RobinComplete(Live(s')) <==> s.phantoms == s'.phantoms)
          || RobinGone(Live(s'))
          || (SeenConfigs(s') == map[] && SameRobin(Live(s), Live(s'))))
    && (ok && Rank(SeenConfigs(s')) == 2 && !RobinGone(Live(s')) ==>
          ReportedAsIs(Live(s').cluster, SeenConfigs(s'), cluster.generation))
    && var m, m' := Live(s).configs, Live(s').configs;
    && (ok && upToDate && s.staleLists == s'.staleLists ==>
          && Progressed(cluster, m, m')
          && (m' != map[] ==> SameConfigs(m, SeenConfigs(s')) && ZeroProgress(cluster, SeenConfigs(s'), m'))
          && (m' == map[] ==> ShowsZero(Live(s').cluster))
          && (m' == map[] ==> (RobinGone(Live(s')) <==> m != map[] || RobinGone(Live(s))))
          && (m' != map[] ==> (RobinComplete(Live(s')) <==> s.phantoms == s'.phantoms)))
    && (quiet && upToDate && cluster == Live(s).cluster ==>
          && s.staleLists == s'.staleLists && s.phantoms == s'.phantoms && Live(s').cluster.spec.primaries == 0
          && (Rank(m) == 2 ==> m' == m)
          && (Rank(m) != 2 ==> ok && Rank(m') == if Rank(m) == 3 then 2 else 0))
  }

  /** The status is the report of the active config of the list as it is. */
  ghost predicate ReportedAsIs(c: Redkey, listed: map<nat, Config>, g: nat) {
    c.status.observedGeneration == g && exists l :: IsListing(l, listed) && l != [] && Mirrors(c, Active(l))
  }

  lemma ReportedFrom(c: Redkey, l: seq<Config>, listed: map<nat, Config>, before: Status, g: nat, now: nat)
    requires IsListing(l, listed) && l != []
    ensures Aggregated(before, c, Active(l), g, now) ==> ReportedAsIs(c, listed, g)
    ensures Aggregated(before, c, Active(Survivors(l)), g, now) ==> Reported(c, listed, g)
  {
    hide IsListing, NextInProgress, LastApplied, Mirrors;
  }

  /** At zero the record is kept, or it is the topology of the active config of the list as it is,
      superseded configs included. */
  ghost predicate RecordAtZero(before: Status, c: Redkey, listed: map<nat, Config>) {
    || c.status.LastApplied() == before.LastApplied()
    || exists l :: IsListing(l, listed) && l != [] && RecordFollows(before, c, Active(l))
  }

  lemma RecordAtZeroKept(before: Status, c: Redkey, m: map<nat, Config>)
    requires c.status.LastApplied() == before.LastApplied()
    ensures RecordAtZero(before, c, m)
  {
  }

  lemma RecordAtZeroFrom(before: Status, before': Status, c: Redkey, l: seq<Config>, m: map<nat, Config>)
    requires IsListing(l, m) && l != [] && RecordFollows(before', c, Active(l))
    requires before.LastApplied() == before'.LastApplied()
    ensures RecordAtZero(before, c, m)
  {
    hide IsListing, NextInProgress;
  }

  lemma RecordAtZeroSince(before: Status, before': Status, c: Redkey, m: map<nat, Config>)
    requires RecordAtZero(before', c, m) && before == before'
    ensures RecordAtZero(before, c, m)
  {
  }

  predicate UpToDate(s: Sys)
    requires Shaped(s)
  {
    SeenConfigs(s) == Live(s).configs
  }

  lemma ZeroDoneSinceList(cluster: Redkey, s: Sys, s1: Sys, s': Sys, ok: bool, quiet: bool)
    requires Shaped(s) && Shaped(s1) && ZeroDone(cluster, s1, s', ok, quiet, UpToDate(s1))
    requires SameConfigs(Live(s).configs, Live(s1).configs) && SameRobin(Live(s), Live(s1))
    requires Live(s1).cluster.status == Live(s).cluster.status
    requires s.staleLists <= s1.staleLists && s.phantoms == s1.phantoms
    requires s.staleLists == s1.staleLists ==> UpToDate(s1)
    requires quiet ==> s.staleLists == s1.staleLists && Live(s1) == Live(s).(intact := Live(s1).intact)
    ensures ZeroDone(cluster, s, s', ok, quiet, true)
  {
    hide ShowsZero, RobinComplete, RobinGone, Rank, Progressed, ZeroProgress, RecordAtZero, ReportedAsIs;
    RecordAtZeroSince(Live(s).cluster.status, Live(s1).cluster.status, Live(s').cluster, SeenConfigs(s'));
    RobinGoneCarries(Live(s), Live(s1));
    SameConfigsCompose(Live(s).configs, Live(s).configs, Live(s1).configs);
    if ok && s.staleLists == s'.staleLists {
      ProgressSinceCalm(cluster, Live(s).configs, Live(s1).configs, Live(s').configs);
      if Live(s').configs != map[] {
        SameConfigsCompose(Live(s).configs, Live(s1).configs, SeenConfigs(s'));
      }
    }
  }

  lemma ProgressSinceCalm(cluster: Redkey, m0: map<nat, Config>, m: map<nat, Config>, m': map<nat, Config>)
    requires SameConfigs(m0, m) && Progressed(cluster, m, m')
    ensures Progressed(cluster, m0, m')
  {
    hide ZeroProgress;
    var listed :| SameConfigs(m, listed) && ZeroProgress(cluster, listed, m');
    SameConfigsCompose(m0, m, listed);
  }

  lemma ProgressAtOnce(cluster: Redkey, m: map<nat, Config>, m': map<nat, Config>)
    requires ZeroProgress(cluster, m, m')
    ensures Progressed(cluster, m, m')
  {
    hide ZeroProgress;
    assert SameConfigs(m, m);
  }

  lemma NothingLeft(cluster: Redkey, s: Sys, s': Sys, ok: bool, quiet: bool)
    requires Shaped(s) && SeenConfigs(s) == map[] && StatusFrame(s, s')
    requires ok ==> ShowsZero(Live(s').cluster)
    requires quiet && cluster == Live(s).cluster ==> ok && Live(s') == Live(s).(cluster := Live(s').cluster)
    requires RecordAtZero(Live(s).cluster.status, Live(s').cluster, SeenConfigs(s'))
    ensures ZeroDone(cluster, s, s', ok, quiet, UpToDate(s))
  {
    hide RecordAtZero, RobinComplete, RobinGone, Progressed, ReportedAsIs;
    RobinGoneCarries(Live(s), Live(s'));
    SameConfigsCompose(Live(s).configs, Live(s).configs, Live(s').configs);
    if UpToDate(s) {
      ProgressAtOnce(cluster, Live(s).configs, Live(s').configs);
    }
  }

  lemma AllCleanedUp(cluster: Redkey, s: Sys, s': Sys, ok: bool, quiet: bool)
    requires Shaped(s) && Shaped(s') && s.staleLists <= s'.staleLists && s.phantoms == s'.phantoms
    requires SeenConfigs(s) != map[] && SeenConfigs(s)[Top(SeenConfigs(s).Keys)].spec.primaries == 0
    requires SeenConfigs(s)[Top(SeenConfigs(s).Keys)].status.configPhase == Applied
    requires ok ==> ShowsZero(Live(s').cluster) && RobinGone(Live(s'))
    requires ok && s'.staleLists == s.staleLists ==> Live(s').configs == map[]
    requires quiet && cluster == Live(s).cluster ==> ok && s'.staleLists == s.staleLists
    requires RecordAtZero(Live(s).cluster.status, Live(s').cluster, SeenConfigs(s'))
    ensures ZeroDone(cluster, s, s', ok, quiet, UpToDate(s))
  {
    hide RecordAtZero, RobinComplete, RobinGone, Progressed, ReportedAsIs;
    if ok && UpToDate(s) && s'.staleLists == s.staleLists {
      ProgressAtOnce(cluster, Live(s).configs, Live(s').configs);
    }
  }

  lemma CalledInVain(cluster: Redkey, s: Sys, s': Sys, upToDate: bool)
    requires Shaped(s) && Shaped(s') && s.staleLists <= s'.staleLists && s.phantoms <= s'.phantoms
    requires RecordAtZero(Live(s).cluster.status, Live(s').cluster, SeenConfigs(s'))
    ensures ZeroDone(cluster, s, s', false, false, upToDate)
  {
    hide RecordAtZero;
  }

  lemma Awaited(cluster: Redkey, s: Sys, s1: Sys, s': Sys, ok: bool, quiet: bool)
    requires Shaped(s) && Shaped(s1) && StatusFrame(s1, s') && cluster.spec.primaries == 0
    requires SeenConfigs(s) != map[] && SeenConfigs(s)[Top(SeenConfigs(s).Keys)].spec.primaries == 0
    requires SeenConfigs(s)[Top(SeenConfigs(s).Keys)].status.configPhase != Applied
    requires s.staleLists == s1.staleLists && s.phantoms <= s1.phantoms
    requires SameConfigs(Live(s).configs, Live(s1).configs)
    requires ok ==> (RobinComplete(Live(s1)) <==> s.phantoms == s1.phantoms)
    requires quiet ==>
               && s.phantoms == s1.phantoms && Live(s').configs == Live(s).configs
               && (cluster == Live(s).cluster ==> Live(s').cluster.spec == cluster.spec)
    requires SeenConfigs(s') == SeenConfigs(s)
    requires RecordAtZero(Live(s).cluster.status, Live(s').cluster, SeenConfigs(s'))
    requires ok ==> ReportedAsIs(Live(s').cluster, SeenConfigs(s'), cluster.generation)
    ensures ZeroDone(cluster, s, s', ok, quiet, UpToDate(s))
  {
    hide RecordAtZero, RobinComplete, RobinGone, ShowsZero, Progressed, ReportedAsIs;
    RobinCompleteCarries(Live(s1), Live(s'));
    SameConfigsCompose(Live(s).configs, Live(s1).configs, Live(s').configs);
    if UpToDate(s) {
      ProgressAtOnce(cluster, Live(s).configs, Live(s').configs);
    }
  }

  lemma Asked(cluster: Redkey, s: Sys, s1: Sys, s': Sys, ok: bool, quiet: bool)
    requires Shaped(s) && Shaped(s1) && Shaped(s') && cluster.spec.primaries == 0
    requires SeenConfigs(s) != map[] && SeenConfigs(s)[Top(SeenConfigs(s).Keys)].spec.primaries != 0
    requires s.staleLists == s1.staleLists == s'.staleLists && s.phantoms <= s1.phantoms == s'.phantoms
    requires SameConfigs(Live(s).configs, Live(s1).configs) && SameRobin(Live(s1), Live(s'))
    requires ok ==> (RobinComplete(Live(s1)) <==> s.phantoms == s1.phantoms)
    requires var k := Top(SeenConfigs(s).Keys) + 1;
             && (|| Appended(cluster, k, Live(s1).configs, Live(s').configs)
                 || SameConfigs(Live(s1).configs, Live(s').configs))
             && (ok ==> k in Live(s').configs)
    requires quiet ==> ok && s.phantoms == s1.phantoms && Live(s').cluster == Live(s).cluster
    requires SeenConfigs(s') == SeenConfigs(s)
    requires RecordAtZero(Live(s).cluster.status, Live(s').cluster, SeenConfigs(s'))
    ensures ZeroDone(cluster, s, s', ok, quiet, UpToDate(s))
  {
    hide RecordAtZero, RobinComplete, RobinGone, ShowsZero, Progressed, ZeroProgress, Appended, SameConfigs,
      ReportedAsIs;
    RobinCompleteCarries(Live(s1), Live(s'));
    if ok && UpToDate(s) {
      AskedProgress(cluster, Live(s).configs, Live(s1).configs, Live(s').configs);
    }
  }

  lemma AskedProgress(cluster: Redkey, m: map<nat, Config>, m1: map<nat, Config>, m': map<nat, Config>)
    requires cluster.spec.primaries == 0 && m != map[] && m[Top(m.Keys)].spec.primaries != 0 && SameConfigs(m, m1)
    requires Top(m.Keys) + 1 in m' && (Appended(cluster, Top(m.Keys) + 1, m1, m') || SameConfigs(m1, m'))
    ensures m' != map[] && Progressed(cluster, m, m') && SameConfigs(m, m) && ZeroProgress(cluster, m, m')
    ensures Rank(m) == 3 && Rank(m') == 2
  {
    hide Progressed, Appended;
    NotThereBefore(cluster, m, m1, m');
    ZeroConfigCreated(cluster, m, m1, m');
    ProgressAtOnce(cluster, m, m');
  }

  lemma NotThereBefore(cluster: Redkey, m0: map<nat, Config>, m: map<nat, Config>, m': map<nat, Config>)
    requires SameConfigs(m0, m) && Top(m0.Keys) + 1 in m'
    requires Appended(cluster, Top(m0.Keys) + 1, m, m') || SameConfigs(m, m')
    ensures Appended(cluster, Top(m0.Keys) + 1, m, m')
  {
    hide Appended;
  }

  /** How far scaling to zero still has to go: the newest config asks for primaries, asks for
      none but is not applied, is applied, or there is no config left. */
  ghost function Rank(m: map<nat, Config>): nat {
    if m == map[] then 0
    else
      var c := m[Top(m.Keys)];
      if c.spec.primaries != 0 then 3 else if c.status.configPhase != Applied then 2 else 1
  }

  /** What one reconcile at zero primaries does to the configs it listed. */
  ghost predicate ZeroProgress(cluster: Redkey, listed: map<nat, Config>, m: map<nat, Config>) {
    if listed == map[] then m == map[]
    else
      var latest := listed[Top(listed.Keys)];
      if latest.spec.primaries != 0 then Appended(cluster, Top(listed.Keys) + 1, listed, m)
      else if latest.status.configPhase == Applied then m == map[]
      else SameConfigs(listed, m)
  }

  /** The list shows the configs of `m`, perhaps with newer reports of Robin's. */
  ghost predicate Progressed(cluster: Redkey, m: map<nat, Config>, m': map<nat, Config>) {
    exists listed :: SameConfigs(m, listed) && ZeroProgress(cluster, listed, m')
  }

  /** Robin does not take back that it applied a config. */
  ghost predicate ReportsStand(m: map<nat, Config>, m': map<nat, Config>) {
    forall k :: k in m && k in m' && IsApplied(m[k]) ==> IsApplied(m'[k])
  }

  /** As long as Robin's reports stand, the rank never rises, and it falls when the newest config
      asks for primaries and when it is the applied zero config. */
  lemma RankNeverRises(cluster: Redkey, m: map<nat, Config>, listed: map<nat, Config>, m': map<nat, Config>)
    requires cluster.spec.primaries == 0 && SameConfigs(m, listed) && ZeroProgress(cluster, listed, m')
    requires ReportsStand(m, listed) && ReportsStand(listed, m')
    ensures Rank(m') <= Rank(m) && (Rank(m) in {1, 3} ==> Rank(m') < Rank(m))
  {
    SameConfigsCompose(m, m, listed);
    if listed != map[] && listed[Top(listed.Keys)].spec.primaries != 0 {
      ZeroConfigCreated(cluster, listed, listed, m');
    } else if m' != map[] {
      SameConfigsCompose(listed, listed, m');
    }
  }

  lemma SameConfigsCompose(m: map<nat, Config>, m': map<nat, Config>, m'': map<nat, Config>)
    requires SameConfigs(m, m') && SameConfigs(m', m'')
    ensures SameConfigs(m, m'')
    ensures m != map[] ==> m''[Top(m.Keys)].spec == m[Top(m.Keys)].spec
    ensures m == map[] <==> m'' == map[]
  {
    assert m == map[] <==> m.Keys == {};
    assert m'' == map[] <==> m''.Keys == {};
  }

  lemma ListingLast(l: seq<Config>, m: map<nat, Config>)
    requires IsListing(l, m) && Bounded(m) && l != []
    ensures m != map[] && m[Top(m.Keys)] == l[|l| - 1] && l[|l| - 1].spec.sequence == Top(m.Keys)
    ensures l[|l| - 1].generation <= MAX_INT64
  {
    ListingTop(l, m);
  }

  lemma OnlyRobinFrame(s: Sys, s': Sys)
    requires OnlyRobin(s, s')
    ensures SeenCluster(s') == SeenCluster(s) && SeenConfigs(s') == SeenConfigs(s)
    ensures s'.staleLists == s.staleLists && s'.missed == s.missed && s'.phantoms >= s.phantoms
    ensures SameConfigs(Live(s).configs, Live(s').configs) && Live(s').cluster.status == Live(s).cluster.status
  {
  }

  lemma StatusFrameGives(s: Sys, s': Sys)
    requires StatusFrame(s, s')
    ensures SameConfigs(Live(s).configs, Live(s').configs) && SameRobin(Live(s), Live(s'))
    ensures NotBefore(SeenCluster(s), SeenCluster(s')) && s'.missed == MissedFrom(s, SeenCluster(s').generation)
    ensures SeenConfigs(s') == SeenConfigs(s)
    ensures s'.staleLists == s.staleLists && s'.phantoms == s.phantoms
  {
  }

  lemma RobinGoneCarries(w: World, w': World)
    requires SameRobin(w, w')
    ensures RobinGone(w) == RobinGone(w')
  {
    assert w.rbac == map[] <==> w.rbac.Keys == {};
    assert w'.rbac == map[] <==> w'.rbac.Keys == {};
  }

  lemma RobinCompleteCarries(w: World, w': World)
    requires SameRobin(w, w')
    ensures RobinComplete(w) == RobinComplete(w')
  {
  }

  lemma ZeroConfigCreated(cluster: Redkey, m0: map<nat, Config>, m: map<nat, Config>, m': map<nat, Config>)
    requires m0 != map[] && SameConfigs(m0, m) && cluster.spec.primaries == 0
    requires Appended(cluster, Top(m.Keys) + 1, m, m')
    ensures Appended(cluster, Top(m0.Keys) + 1, m0, m')
    ensures m' != map[] && Rank(m') == 2
  {
    TopIs(m'.Keys, Top(m.Keys) + 1);
  }

  /** A Redkey that tells its user it is at rest with no primaries. */
  ghost predicate ShowsZero(c: Redkey) {
    && c.spec.primaries == 0 && c.status.observedGeneration == c.generation
    && c.status.replicas == 0 && c.status.phase == PhaseReady && c.status.status == NoStatus && c.status.nodes == map[]
  }

  lemma ObservedBound(s: Sys)
    requires Inv(s)
    ensures Live(s).cluster.status.observedGeneration <= SeenCluster(s).generation
    ensures SeenCluster(s).status.observedGeneration <= Live(s).cluster.status.observedGeneration
    ensures SeenCluster(s).generation <= Live(s).cluster.generation <= MAX_INT64
    ensures SeenCluster(s).generation == Live(s).cluster.generation ==> SeenCluster(s).spec == Live(s).cluster.spec
  {
    hide Trace, RecordsApplied, RestIsSteady, LineageSeen, OnlyTopology, NothingLost, ConfigsSound;
    SeenIsPast(s, s.clusterView);
  }

  lemma ZeroStatusIsValid(s: Sys, now: nat)
    requires Inv(s)
    ensures SeenCluster(s) == Live(s).cluster ==>
              SchemaValid(ScaledToZeroStatus(SeenCluster(s), SeenCluster(s).generation, now))
  {
    hide Trace, RecordsApplied, RestIsSteady, LineageSeen, OnlyTopology, NothingLost, ObservedWasSeen, ConfigsSound,
      SetAll;
    SeenIsPast(s, s.clusterView);
  }

  lemma OnlyRobinStarts(s: Sys)
    requires Shaped(s)
    ensures OnlyRobin(s, s)
  {
  }

  /** The record is kept, or it is the topology of an applied config of a storage cluster. */
  predicate RecordFollows(before: Status, c: Redkey, active: Config) {
    || c.status.LastApplied() == before.LastApplied()
    || (&& !c.spec.ephemeral && IsApplied(active) && active.spec.primaries > 0
        && c.status.LastApplied() == active.spec.Topo())
  }

  lemma RecordStays(before: Status, c: Redkey, active: Config)
    ensures c.status == before ==> RecordFollows(before, c, active)
  {
  }

  /** What a round that writes leaves in the live object `after`: the aggregation over `before`. */
  lemma RoundWrites(before: Redkey, read: Redkey, after: Redkey, active: Config, observed: nat, now: nat)
    ensures Overwritten(before, read, read.(status := AggregatedStatus(read, active, observed, now)), after) ==>
              && Aggregated(before.status, after, active, observed, now) && RecordFollows(before.status, after, active)
              && after == read.(status := after.status, resourceVersion := read.resourceVersion + 1)
  {
    hide AggregatedStatus, Aggregated;
    AggregationMirrors(read, active, observed, now);
    RecordFollowsAggregation(before.status, after, active, observed, now);
  }

  lemma RecordFollowsAggregation(before: Status, c: Redkey, active: Config, observed: nat, now: nat)
    ensures Aggregated(before, c, active, observed, now) ==> RecordFollows(before, c, active)
  {
    hide ConditionsTell, TimesFollow, UpdatedInPlace, Find;
  }

  /** The one thing that happened between `s` and `s'` is a status write. */
  ghost predicate OneStatusWrite(s: Sys, s': Sys) {
    && Shaped(s) && Shaped(s')
    && |s'.log| == |s.log| + 1 && s'.log[..|s.log|] == s.log && s'.log[|s.log|].WroteStatus?
    && Live(s') == Live(s).(cluster := Live(s).cluster.(status := Live(s').cluster.status,
                                                        resourceVersion := Live(s).cluster.resourceVersion + 1))
  }

  lemma OneWriteMade(s: Sys, s': Sys, writer: Writer)
    requires Shaped(s) && Shaped(s')
    ensures && Live(s') == Live(s).(cluster := Live(s').cluster) && s'.log == s.log + [WroteStatus(writer)]
            && Live(s').cluster == Live(s).cluster.(status := Live(s').cluster.status,
                                                    resourceVersion := Live(s).cluster.resourceVersion + 1)
            ==> OneStatusWrite(s, s')
  {
  }

  lemma OneStatusWriteKeeps(s: Sys, s': Sys)
    ensures OneStatusWrite(s, s') ==>
              Live(s').configs == Live(s).configs && Live(s').cluster.spec == Live(s).cluster.spec
  {
  }

  /** Only the status may have been written since `s0`. */
  ghost predicate StatusFrame(s0: Sys, s: Sys) {
    && Shaped(s0) && Shaped(s) && s.missed == MissedFrom(s0, SeenCluster(s).generation)
    && SeenConfigs(s0) == SeenConfigs(s) && s0.staleLists == s.staleLists && s0.phantoms == s.phantoms
    && NotBefore(SeenCluster(s0), SeenCluster(s))
    && SameConfigs(Live(s0).configs, Live(s).configs) && SameRobin(Live(s0), Live(s))
  }

  lemma StatusFrameStarts(s: Sys)
    requires Shaped(s)
    ensures StatusFrame(s, s)
  {
  }

  lemma StatusFrameAfterRead(s0: Sys, s: Sys, s': Sys)
    requires StatusFrame(s0, s) && Shaped(s') && Calm(Live(s), Live(s'))
    requires SeenConfigs(s') == SeenConfigs(s) && s'.staleLists == s.staleLists && s'.phantoms == s.phantoms
    requires s'.missed == MissedFrom(s, SeenCluster(s').generation)
    requires NotBefore(SeenCluster(s), SeenCluster(s'))
    ensures StatusFrame(s0, s')
  {
  }

  lemma StatusFrameAllows(s0: Sys, s: Sys, cluster: Redkey, c: Config)
    requires StatusFrame(s0, s) && cluster == SeenCluster(s0)
    requires s0.missed == 0 && cluster.spec.primaries > 0 ==> Covers(Live(s0).configs, cluster.generation)
    requires MayTake(SeenConfigs(s0), c)
    ensures MayTake(SeenConfigs(s), c)
    ensures NotBefore(cluster, SeenCluster(s))
    ensures s.missed == 0 && SeenCluster(s).generation == cluster.generation && cluster.spec.primaries > 0 ==>
              Covers(Live(s).configs, cluster.generation)
  {
    hide Covers;
    CoversCarries(Live(s0).configs, Live(s).configs, cluster.generation);
  }

  lemma StatusFrameComposes(s0: Sys, s: Sys, s': Sys)
    requires StatusFrame(s0, s) && StatusFrame(s, s')
    ensures StatusFrame(s0, s')
  {
  }

  lemma StatusFrameAfterWrite(s0: Sys, s: Sys, s': Sys)
    requires StatusFrame(s0, s) && SameViews(s, s') && s'.phantoms == s.phantoms
    requires SameConfigs(Live(s).configs, Live(s').configs) && SameRobin(Live(s), Live(s'))
    ensures StatusFrame(s0, s')
  {
  }

  /** Cleanup of `configs`, begun in `s0`, has dealt with the first `i` of them. */
  ghost predicate Cleaning(s0: Sys, s: Sys, configs: seq<Config>, i: nat) {
    && i < |configs| && CleanupFrame(s0, s)
    && IsListing(configs, SeenConfigs(s)) && Bounded(SeenConfigs(s))
    && Trimmed(Live(s0).configs, Live(s).configs, configs[i].spec.sequence)
    && (Live(s).intact ==> forall k :: k in Live(s).configs ==> k >= configs[i].spec.sequence)
    && (forall j :: 0 <= j < i ==> configs[j].spec.sequence !in Live(s).configs)
    && (s.missed == 0 ==> Top(SeenConfigs(s).Keys) in Live(s).configs)
  }

  ghost predicate Submap(m: map<nat, Config>, of: map<nat, Config>) {
    forall k :: k in m ==> k in of && m[k] == of[k]
  }

  ghost predicate CleanupFrame(s0: Sys, s: Sys) {
    && SameViews(s0, s) && s0.phantoms == s.phantoms
    && SameRobin(Live(s0), Live(s)) && Live(s0).cluster.status == Live(s).cluster.status
  }

  lemma CleaningStarts(s: Sys, configs: seq<Config>)
    requires Inv(s) && IsListing(configs, SeenConfigs(s)) && Bounded(SeenConfigs(s)) && configs != []
    requires s.missed == 0 ==> Top(SeenConfigs(s).Keys) in Live(s).configs
    ensures Cleaning(s, s, configs, 0)
  {
    hide Inv, Trimmed;
    LiveBelowTopWasListed(s, configs);
    TrimmedNothing(Live(s).configs, configs[0].spec.sequence);
  }

  lemma CleaningAllows(s0: Sys, s: Sys, configs: seq<Config>, i: nat)
    requires Inv(s) && Cleaning(s0, s, configs, i) && i + 1 < |configs|
    ensures var k := configs[i].spec.sequence;
            && k < Top(SeenConfigs(s).Keys)
            && (Live(s).intact ==> forall j :: j in Live(s).configs ==> j >= k)
            && (s.missed == 0 ==> exists j :: j in Live(s).configs && j > k)
  {
    hide Inv, Trimmed;
    ListingTop(configs, SeenConfigs(s));
  }

  /** Cleanup stopped at config `i` of the list: what is listed before it is gone, what comes after
      it is untouched, and it may be gone or not. */
  ghost predicate CutShort(m: map<nat, Config>, m': map<nat, Config>, configs: seq<Config>, rest: seq<Config>, i: nat) {
    && i < LastApplied(configs) && rest == configs[i..]
    && Trimmed(m, m', configs[i + 1].spec.sequence)
    && forall j :: 0 <= j < i ==> configs[j].spec.sequence !in m'
  }

  lemma CleaningFailed(s0: Sys, s: Sys, s': Sys, configs: seq<Config>, i: nat)
    requires Cleaning(s0, s, configs, i) && 0 <= i < LastApplied(configs) && Shaped(s')
    requires AtMostDropped(s, s', configs[i].spec.sequence)
    ensures CleanupFrame(s0, s') && Trimmed(Live(s0).configs, Live(s').configs, Limit(configs))
    ensures CutShort(Live(s0).configs, Live(s').configs, configs, configs[i..], i)
  {
    hide Trimmed, LastApplied;
    var m, k := Live(s).configs, configs[i].spec.sequence;
    TrimmedStep(Live(s0).configs, m, Live(s').configs, k, Limit(configs));
    TrimmedStep(Live(s0).configs, m, Live(s').configs, k, configs[i + 1].spec.sequence);
  }

  lemma CleaningAdvances(s0: Sys, s: Sys, s': Sys, configs: seq<Config>, i: nat)
    requires Inv(s') && Cleaning(s0, s, configs, i) && i + 1 < |configs|
    requires AtMostDropped(s, s', configs[i].spec.sequence) && configs[i].spec.sequence !in Live(s').configs
    ensures Cleaning(s0, s', configs, i + 1)
  {
    hide Inv, Trimmed;
    TrimmedStep(Live(s0).configs, Live(s).configs, Live(s').configs,
                configs[i].spec.sequence, configs[i + 1].spec.sequence);
    NextListed(s', configs, i);
  }

  lemma CleaningDone(s0: Sys, s: Sys, configs: seq<Config>)
    requires LastApplied(configs) > 0 && Cleaning(s0, s, configs, LastApplied(configs))
    ensures CleanupFrame(s0, s) && Trimmed(Live(s0).configs, Live(s).configs, Limit(configs))
    ensures forall j :: 0 <= j < LastApplied(configs) ==> configs[j].spec.sequence !in Live(s).configs
  {
    hide Trimmed, LastApplied;
  }

  /** The configs are filed under their sequence and their generations fit the annotation. */
  ghost predicate Bounded(m: map<nat, Config>) {
    forall k :: k in m ==> m[k].spec.sequence == k && m[k].generation <= MAX_INT64
  }

  ghost predicate Appended(cluster: Redkey, k: nat, m: map<nat, Config>, m': map<nat, Config>) {
    && k in m' && Grown(m, m', k, m'[k])
    && m'[k].generation == cluster.generation
    && m'[k].spec.sequence == k && Carries(m'[k].spec, cluster.spec) && m'[k].status == UNREPORTED
  }

  /** Below this sequence number cleanup may delete; the rest survives. */
  function Limit(configs: seq<Config>): nat {
    if LastApplied(configs) > 0 then configs[LastApplied(configs)].spec.sequence else 0
  }

  /** `m'` is `m` without some configs below `limit`. */
  ghost predicate Trimmed(m: map<nat, Config>, m': map<nat, Config>, limit: nat) {
    Subconfigs(m', m) && forall k :: k in m && k >= limit ==> k in m'
  }

  lemma TrimmedStep(m: map<nat, Config>, m': map<nat, Config>, m'': map<nat, Config>, k: nat, next: nat)
    requires Trimmed(m, m', k) && k < next
    requires SameConfigs(m', m'') || Shrunk(m', m'', k)
    ensures Trimmed(m, m'', next)
  {
  }

  lemma TrimmedNothing(m: map<nat, Config>, limit: nat)
    ensures Trimmed(m, m, limit)
  {
  }

  lemma ListingTop(l: seq<Config>, m: map<nat, Config>)
    requires IsListing(l, m) && Bounded(m)
    ensures l == [] <==> m == map[]
    ensures l != [] ==> l[|l| - 1].spec.sequence == Top(m.Keys)
    ensures l != [] ==> forall k :: k in m ==> k >= l[0].spec.sequence
  {
    if l != [] {
      var last := l[|l| - 1].spec.sequence;
      forall k | k in m
        ensures l[0].spec.sequence <= k <= last
      {
        assert m[k] in l;
      }
      TopIs(m.Keys, last);
    }
  }

  /** In an intact lineage every live config up to the newest listed one is on the list. */
  lemma SeenBelowTop(s: Sys)
    requires Inv(s)
    ensures Live(s).intact ==> forall k :: k in Live(s).configs && k <= Top(SeenConfigs(s).Keys) ==> k in SeenConfigs(s)
  {
    hide Trace, RecordsApplied, RestIsSteady, OnlyTopology, NothingLost, ObservedWasSeen;
    var n := |s.hist| - 1;
    if Live(s).intact {
      forall k | k in Live(s).configs && k <= Top(SeenConfigs(s).Keys)
        ensures k in SeenConfigs(s)
      {
        assert k in KeysAt(s.hist, n) && k <= Top(KeysAt(s.hist, s.configView));
        assert k in KeysAt(s.hist, s.configView);
      }
    }
  }

  lemma LiveBelowTopWasListed(s: Sys, l: seq<Config>)
    requires Inv(s) && IsListing(l, SeenConfigs(s)) && Bounded(SeenConfigs(s)) && l != []
    ensures Live(s).intact ==> forall k :: k in Live(s).configs ==> k >= l[0].spec.sequence
  {
    hide Inv;
    SeenBelowTop(s);
    ListingTop(l, SeenConfigs(s));
  }

  lemma NextListed(s: Sys, l: seq<Config>, i: nat)
    requires Inv(s) && IsListing(l, SeenConfigs(s)) && Bounded(SeenConfigs(s)) && i + 1 < |l|
    requires Live(s).intact ==> forall k :: k in Live(s).configs ==> k > l[i].spec.sequence
    ensures Live(s).intact ==> forall k :: k in Live(s).configs ==> k >= l[i + 1].spec.sequence
  {
    hide Inv;
    SeenBelowTop(s);
    ListingTop(l, SeenConfigs(s));
    if Live(s).intact {
      forall k | k in Live(s).configs
        ensures k >= l[i + 1].spec.sequence
      {
        if k <= Top(SeenConfigs(s).Keys) {
          assert SeenConfigs(s)[k] in l;
          var j :| 0 <= j < |l| && l[j] == SeenConfigs(s)[k];
          assert j > i;
        }
      }
    }
  }

  lemma OnlyRobinMonotone(s: Sys, s': Sys)
    requires OnlyRobin(s, s')
    ensures s.phantoms <= s'.phantoms
  {
  }

  /** What an undisturbed pass makes of the Deployment: one that was missing or did not serve is made
      exactly as asked, one that serves is left alone, and a revision stamp stays. */
  ghost predicate RolledOut(before: Option<Deployment>, after: Option<Deployment>, cluster: Redkey) {
    && after.Some?
    && (before.Some? ==> KeepsRevision(before.value.annotations, after.value.annotations))
    && if before.Some? && Serves(before.value, cluster) then after == before
       else && MetadataServes(after.value, cluster) && PodIs(after.value.pod, cluster)
            && after.value.annotations - {REVISION} == cluster.spec.annotations - {REVISION}
  }

  lemma CreationRollsOut(cluster: Redkey)
    ensures RolledOut(None, Some(DesiredDeployment(cluster)), cluster)
    ensures REVISION !in cluster.spec.annotations ==> Serves(DesiredDeployment(cluster), cluster)
  {
    hide Decorated, PodIs, PodServes, DesiredDeployment, NeedsUpdate;
    var d := DesiredDeployment(cluster);
    DesiredIsDescribed(cluster);
    NoDriftAfterCreate(d, [d]);
    ServesIff(d, cluster);
  }

  lemma PatchRollsOut(cluster: Redkey, existing: Deployment)
    ensures var want := DesiredDeployment(cluster);
            if NeedsUpdate(existing, want)
            then && RolledOut(Some(existing), Some(Patched(existing, want)), cluster)
                 && (REVISION !in cluster.spec.annotations ==> Serves(Patched(existing, want), cluster))
                 && !Serves(existing, cluster)
            else Serves(existing, cluster) && RolledOut(Some(existing), Some(existing), cluster)
  {
    hide MetadataServes, PodIs, PodServes, DesiredDeployment, NeedsUpdate, Patched;
    var want := DesiredDeployment(cluster);
    var d := Patched(existing, want);
    DesiredIsDescribed(cluster);
    PatchIsExact(existing, cluster);
    NoDriftFight(existing, want, [d]);
    ServesIff(d, cluster);
    ServesIff(existing, cluster);
  }
}
