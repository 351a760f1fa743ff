/** Status conditions and the two writers of the Redkey status: aggregation from the active
    config, and the scaled-to-zero path. */
module Conditions {
  import opened Types

  // ----- meta.FindStatusCondition and meta.SetStatusCondition -----

  /** Position of the first condition of a type, or the length when there is none. */
  function IndexOf(cs: seq<Condition>, kind: ConditionType): (i: nat)
    ensures i <= |cs|
    ensures i < |cs| ==> cs[i].kind == kind
    ensures forall j :: 0 <= j < i ==> cs[j].kind != kind
  {
    if cs == [] then 0
    else if cs[0].kind == kind then 0
    else 1 + IndexOf(cs[1..], kind)
  }

  function Find(cs: seq<Condition>, kind: ConditionType): (f: Option<Condition>)
    ensures f.Some? ==> f.value in cs && f.value.kind == kind
    ensures f == None ==> forall i :: 0 <= i < |cs| ==> cs[i].kind != kind
  {
    var i := IndexOf(cs, kind);
    if i < |cs| then Some(cs[i]) else None
  }

  predicate Holds(cs: seq<Condition>, kind: ConditionType) {
    Find(cs, kind).Some? && Find(cs, kind).value.status == True
  }

  /** Updates the first condition of `c`'s type or appends one; the transition time moves only
      with the status. */
  function SetCondition(cs: seq<Condition>, c: Condition, now: nat): seq<Condition> {
    var i := IndexOf(cs, c.kind);
    if i == |cs| then cs + [c.(lastTransition := now)]
    else cs[i := c.(lastTransition := if cs[i].status == c.status then cs[i].lastTransition else now)]
  }

  function SetAll(cs: seq<Condition>, targets: seq<Condition>, now: nat): seq<Condition>
    decreases |targets|
  {
    if targets == [] then cs else SetAll(SetCondition(cs, targets[0], now), targets[1..], now)
  }

  // ----- what aggregation sets -----

  predicate IsTerminal(phase: ConfigPhase) {
    phase == Applied || phase == Superseded
  }

  predicate IsConfigReady(c: Config) {
    IsTerminal(c.status.configPhase) && c.status.status != ErrorStatus
  }

  predicate HasConfigError(c: Config) {
    IsTerminal(c.status.configPhase) && c.status.status == ErrorStatus
  }

  function ConditionStatus(b: bool): Truth {
    if b then True else False
  }

  const HEALTH_TYPES: seq<ConditionType> :=
    [Healthy, MembershipHealthy, SlotsCovered, SlotsBalanced, ReplicasBalanced, ClusterCheckPassing]

  predicate Settled(active: Config) {
    IsTerminal(active.status.configPhase) && active.status.status == ReadyStatus
  }

  function HealthTarget(active: Config, kind: ConditionType): (t: Condition)
    ensures t.kind == kind
  {
    var src := Find(active.status.conditions, kind);
    if Settled(active) && src.Some?
    then Condition(kind, src.value.status, src.value.reason, src.value.message, 0)
    else Condition(kind, Unknown, "Reconciling", "", 0)
  }

  function LifecycleTargets(active: Config): seq<Condition> {
    [Condition(ReadyType, ConditionStatus(IsConfigReady(active)), "StatusAggregated", "", 0),
     Condition(ConfigPendingType, ConditionStatus(!IsTerminal(active.status.configPhase)), "StatusAggregated", "", 0),
     Condition(ErrorType, ConditionStatus(HasConfigError(active)), "StatusAggregated", "", 0)]
  }

  function HealthTargets(active: Config): seq<Condition> {
    seq(|HEALTH_TYPES|, i requires 0 <= i < |HEALTH_TYPES| => HealthTarget(active, HEALTH_TYPES[i]))
  }

  function Targets(active: Config): seq<Condition> {
    LifecycleTargets(active) + HealthTargets(active)
  }

  const ZERO_TARGETS: seq<Condition> :=
    [Condition(ReadyType, True, "ScaledToZero", "", 0),
     Condition(ConfigPendingType, False, "ScaledToZero", "", 0),
     Condition(ErrorType, False, "ScaledToZero", "", 0)]

  function AggregatedConditions(cs: seq<Condition>, active: Config, now: nat): seq<Condition> {
    SetAll(cs, Targets(active), now)
  }

  function ComputePhase(cs: seq<Condition>): Phase {
    if Holds(cs, ErrorType) then PhaseError
    else if Holds(cs, ReadyType) then PhaseReady
    else PhaseConfiguring
  }

  // ----- the code that computes it -----

  lemma {:induction false} SetAllSplits(cs: seq<Condition>, a: seq<Condition>, b: seq<Condition>, now: nat)
    ensures SetAll(cs, a + b, now) == SetAll(SetAll(cs, a, now), b, now)
    decreases |a|
  {
    if a == [] {
      assert a + b == b;
    } else {
      assert (a + b)[1..] == a[1..] + b;
      SetAllSplits(SetCondition(cs, a[0], now), a[1..], b, now);
    }
  }

  method AggregateHealthConditions(conditions: seq<Condition>, active: Config, now: nat)
    returns (out: seq<Condition>)
    ensures out == SetAll(conditions, HealthTargets(active), now)
  {
    var settled := IsTerminal(active.status.configPhase) && active.status.status == ReadyStatus;
    out := conditions;
    ghost var targets := HealthTargets(active);
    for i := 0 to |HEALTH_TYPES|
      invariant out == SetAll(conditions, targets[..i], now)
    {
      var kind := HEALTH_TYPES[i];
      var src := if settled then Find(active.status.conditions, kind) else None;
      assert targets[..i + 1] == targets[..i] + [targets[i]];
      SetAllSplits(conditions, targets[..i], [targets[i]], now);
      if src.Some? {
        out := SetCondition(out, Condition(kind, src.value.status, src.value.reason, src.value.message, 0), now);
      } else {
        out := SetCondition(out, Condition(kind, Unknown, "Reconciling", "", 0), now);
      }
    }
    assert targets[..|HEALTH_TYPES|] == targets;
  }

  lemma SetAllOfThree(cs: seq<Condition>, a: Condition, b: Condition, c: Condition, now: nat)
    ensures SetAll(cs, [a, b, c], now)
         == SetCondition(SetCondition(SetCondition(cs, a, now), b, now), c, now)
  {
    var cs1 := SetCondition(cs, a, now);
    assert [a, b, c][1..] == [b, c];
    assert SetAll(cs1, [b, c], now) == SetAll(SetCondition(cs1, b, now), [c], now);
  }

  method AggregateConditions(existing: seq<Condition>, active: Config, now: nat) returns (out: seq<Condition>)
    ensures out == AggregatedConditions(existing, active, now)
  {
    var ready := Condition(ReadyType, ConditionStatus(IsConfigReady(active)), "StatusAggregated", "", 0);
    var pending := Condition(ConfigPendingType, ConditionStatus(!IsTerminal(active.status.configPhase)),
                             "StatusAggregated", "", 0);
    var error := Condition(ErrorType, ConditionStatus(HasConfigError(active)), "StatusAggregated", "", 0);
    out := SetCondition(existing, ready, now);
    out := SetCondition(out, pending, now);
    out := SetCondition(out, error, now);
    SetAllOfThree(existing, ready, pending, error, now);
    SetAllSplits(existing, LifecycleTargets(active), HealthTargets(active), now);
    out := AggregateHealthConditions(out, active, now);
  }

  // ----- what it means -----

  ghost predicate Distinct(cs: seq<Condition>) {
    forall i, j :: 0 <= i < j < |cs| ==> cs[i].kind != cs[j].kind
  }

  ghost predicate Mentions(cs: seq<Condition>, kind: ConditionType) {
    exists i :: 0 <= i < |cs| && cs[i].kind == kind
  }

  /** `c` is in force: the first condition of its type says what `c` says. */
  ghost predicate InForce(cs: seq<Condition>, c: Condition) {
    var f := Find(cs, c.kind);
    f.Some? && f.value == c.(lastTransition := f.value.lastTransition)
  }

  /** `r` is `cs` with some conditions rewritten and some appended, every one of its transition
      times moved to `now` exactly when the status is new. */
  ghost predicate TimesFollow(cs: seq<Condition>, r: seq<Condition>, now: nat) {
    && |cs| <= |r|
    && (forall i :: 0 <= i < |cs| ==> r[i].kind == cs[i].kind)
    && (forall i :: 0 <= i < |cs| ==>
          r[i].lastTransition == if r[i].status == cs[i].status then cs[i].lastTransition else now)
    && (forall i :: |cs| <= i < |r| ==> r[i].lastTransition == now)
  }

  /** Only the first condition of a type is rewritten, and only missing types are appended. */
  ghost predicate UpdatedInPlace(cs: seq<Condition>, r: seq<Condition>) {
    && |cs| <= |r|
    && (forall i, j :: 0 <= i < j < |cs| && cs[i].kind == cs[j].kind ==> r[j] == cs[j])
    && (forall i, j :: 0 <= i < j < |r| && |cs| <= j ==> r[i].kind != r[j].kind)
  }

  lemma IndexOfFirst(cs: seq<Condition>, kind: ConditionType, i: nat)
    requires i <= |cs| && (i < |cs| ==> cs[i].kind == kind)
    requires forall j :: 0 <= j < i ==> cs[j].kind != kind
    ensures IndexOf(cs, kind) == i
  {
  }

  lemma SetConditionShape(cs: seq<Condition>, c: Condition, now: nat)
    ensures var r := SetCondition(cs, c, now);
            && TimesFollow(cs, r, now)
            && (forall i :: 0 <= i < |cs| && cs[i].kind != c.kind ==> r[i] == cs[i])
            && (forall i :: |cs| <= i < |r| ==> r[i].kind == c.kind)
            && (Distinct(cs) ==> Distinct(r))
  {
  }

  lemma SetConditionEffect(cs: seq<Condition>, c: Condition, now: nat, other: ConditionType)
    ensures InForce(SetCondition(cs, c, now), c)
    ensures other != c.kind ==> Find(SetCondition(cs, c, now), other) == Find(cs, other)
  {
    var r := SetCondition(cs, c, now);
    SetConditionShape(cs, c, now);
    IndexOfFirst(r, c.kind, IndexOf(cs, c.kind));
    if other != c.kind {
      var o := IndexOf(cs, other);
      IndexOfFirst(r, other, if o < |cs| then o else |r|);
    }
  }

  /** Everything a batch of condition updates does and does not do. */
  lemma {:induction false} SetAllEffect(cs: seq<Condition>, ts: seq<Condition>, now: nat, other: ConditionType)
    requires Distinct(ts)
    ensures var r := SetAll(cs, ts, now);
            && (forall t :: t in ts ==> InForce(r, t))
            && (!Mentions(ts, other) ==> Find(r, other) == Find(cs, other))
            && (Distinct(cs) ==> Distinct(r))
            && TimesFollow(cs, r, now)
            && (forall i :: 0 <= i < |cs| && !Mentions(ts, cs[i].kind) ==> r[i] == cs[i])
    decreases |ts|
  {
    hide Find, SetCondition, Mentions;
    if ts != [] {
      var m := SetCondition(cs, ts[0], now);
      var r := SetAll(cs, ts, now);
      SetConditionShape(cs, ts[0], now);
      SetConditionEffect(cs, ts[0], now, other);
      MentionsSplits(ts);
      SetAllEffect(m, ts[1..], now, other);
      SetAllEffect(m, ts[1..], now, ts[0].kind);
      assert r == SetAll(m, ts[1..], now);
      forall t | t in ts
        ensures InForce(r, t)
      {
        assert t == ts[0] || t in ts[1..];
      }
      forall i | 0 <= i < |cs|
        ensures r[i].lastTransition == if r[i].status == cs[i].status then cs[i].lastTransition else now
      {
        assert cs[i].kind == ts[0].kind ==> r[i] == m[i];
      }
    }
  }

  lemma {:induction false} SetAllInPlace(cs: seq<Condition>, ts: seq<Condition>, now: nat)
    ensures var r := SetAll(cs, ts, now);
            UpdatedInPlace(cs, r) && forall i :: 0 <= i < |cs| ==> r[i].kind == cs[i].kind
    decreases |ts|
  {
    if ts != [] {
      SetAllInPlace(SetCondition(cs, ts[0], now), ts[1..], now);
    }
  }

  lemma MentionsSplits(ts: seq<Condition>)
    requires ts != [] && Distinct(ts)
    ensures forall k :: Mentions(ts, k) <==> k == ts[0].kind || Mentions(ts[1..], k)
    ensures !Mentions(ts[1..], ts[0].kind)
  {
    forall k
      ensures Mentions(ts, k) <==> k == ts[0].kind || Mentions(ts[1..], k)
    {
      if Mentions(ts[1..], k) {
        var j :| 0 <= j < |ts[1..]| && ts[1..][j].kind == k;
        assert ts[j + 1].kind == k;
      }
      if Mentions(ts, k) && k != ts[0].kind {
        var j :| 0 <= j < |ts| && ts[j].kind == k;
        assert ts[1..][j - 1].kind == k;
      }
    }
  }

  lemma {:induction false} SetAllOfInForce(cs: seq<Condition>, ts: seq<Condition>, now: nat)
    requires forall t :: t in ts ==> InForce(cs, t)
    ensures SetAll(cs, ts, now) == cs
  {
    if ts != [] {
      assert InForce(cs, ts[0]);
      assert SetCondition(cs, ts[0], now) == cs;
      SetAllOfInForce(cs, ts[1..], now);
    }
  }

  lemma SetAllIdempotent(cs: seq<Condition>, ts: seq<Condition>, now: nat, later: nat)
    requires Distinct(ts)
    ensures SetAll(SetAll(cs, ts, now), ts, later) == SetAll(cs, ts, now)
  {
    SetAllEffect(cs, ts, now, ReadyType);
    SetAllOfInForce(SetAll(cs, ts, now), ts, later);
  }

  lemma TargetsDistinct(active: Config)
    ensures Distinct(Targets(active)) && |Targets(active)| == 9
    ensures forall k :: Mentions(Targets(active), k) <==> !k.ForeignType?
  {
    hide HealthTarget, ConditionStatus, IsConfigReady, HasConfigError, IsTerminal;
    var ts := Targets(active);
    assert ts[0].kind == ReadyType && ts[1].kind == ConfigPendingType && ts[2].kind == ErrorType;
    assert ts[3].kind == Healthy && ts[4].kind == MembershipHealthy && ts[5].kind == SlotsCovered;
    assert ts[6].kind == SlotsBalanced && ts[7].kind == ReplicasBalanced && ts[8].kind == ClusterCheckPassing;
    forall k
      ensures Mentions(ts, k) <==> !k.ForeignType?
    {
      if k.ForeignType? {
        assert forall i :: 0 <= i < |ts| ==> ts[i].kind != k;
      }
    }
  }

  /** Aggregating twice changes nothing, at whatever time the second pass runs; conditions of
      other types keep their place and value; a transition time moves exactly with its status. */
  lemma AggregationIdempotent(cs: seq<Condition>, active: Config, now: nat, later: nat)
    ensures var r := AggregatedConditions(cs, active, now);
            && AggregatedConditions(r, active, later) == r
            && TimesFollow(cs, r, now)
            && (forall i :: 0 <= i < |cs| && cs[i].kind.ForeignType? ==> r[i] == cs[i])
  {
    TargetsDistinct(active);
    SetAllIdempotent(cs, Targets(active), now, later);
    SetAllEffect(cs, Targets(active), now, ReadyType);
  }

  // ----- what a reader of the conditions learns -----

  predicate Says(cs: seq<Condition>, kind: ConditionType, status: Truth, reason: string, message: string) {
    var f := Find(cs, kind);
    f.Some? && f.value.status == status && f.value.reason == reason && f.value.message == message
  }

  predicate IsHealth(kind: ConditionType) {
    !kind.ForeignType? && kind !in {ReadyType, ConfigPendingType, ErrorType}
  }

  /** A health condition is either a faithful copy of a report Robin made on a config that is
      applied or superseded, and Ready, or Unknown with reason Reconciling. */
  ghost predicate HealthTold(cs: seq<Condition>, active: Config, kind: ConditionType) {
    var src := Find(active.status.conditions, kind);
    if active.status.configPhase in {Applied, Superseded} && active.status.status == ReadyStatus && src.Some?
    then Says(cs, kind, src.value.status, src.value.reason, src.value.message)
    else Says(cs, kind, Unknown, "Reconciling", "")
  }

  /** The nine conditions tell how far Robin has got with the config: Ready when it is applied or
      superseded without an error, Error when with one, ConfigPending before that. */
  ghost predicate ConditionsTell(cs: seq<Condition>, active: Config) {
    var done, failed := active.status.configPhase in {Applied, Superseded}, active.status.status == ErrorStatus;
    && Says(cs, ReadyType, if done && !failed then True else False, "StatusAggregated", "")
    && Says(cs, ConfigPendingType, if done then False else True, "StatusAggregated", "")
    && Says(cs, ErrorType, if done && failed then True else False, "StatusAggregated", "")
    && forall kind :: IsHealth(kind) ==> HealthTold(cs, active, kind)
  }

  /** Putting the targets in force is what it takes. */
  lemma TargetsTell(cs: seq<Condition>, active: Config)
    ensures ConditionsTell(cs, active) <==> forall t :: t in Targets(active) ==> InForce(cs, t)
  {
    hide Find, LifecycleTargets, HealthTarget, HealthTold, Says, InForce;
    var ts := Targets(active);
    LifecycleTells(cs, active);
    assert ts[0] == LifecycleTargets(active)[0] && ts[1] == LifecycleTargets(active)[1];
    assert ts[2] == LifecycleTargets(active)[2];
    forall kind | IsHealth(kind)
      ensures HealthTold(cs, active, kind) <==> InForce(cs, HealthTarget(active, kind))
      ensures HealthTarget(active, kind) in ts
    {
      HealthTargeted(active, kind);
      HealthTells(cs, active, kind);
    }
    assert forall i :: 3 <= i < |ts| ==> IsHealth(ts[i].kind) && ts[i] == HealthTarget(active, ts[i].kind);
  }

  lemma LifecycleTells(cs: seq<Condition>, active: Config)
    ensures var done, failed := active.status.configPhase in {Applied, Superseded}, active.status.status == ErrorStatus;
            var ts := LifecycleTargets(active);
            && |ts| == 3
            && (InForce(cs, ts[0]) <==>
                  Says(cs, ReadyType, if done && !failed then True else False, "StatusAggregated", ""))
            && (InForce(cs, ts[1]) <==>
                  Says(cs, ConfigPendingType, if done then False else True, "StatusAggregated", ""))
            && (InForce(cs, ts[2]) <==>
                  Says(cs, ErrorType, if done && failed then True else False, "StatusAggregated", ""))
  {
    hide Find;
  }

  lemma HealthTells(cs: seq<Condition>, active: Config, kind: ConditionType)
    ensures HealthTold(cs, active, kind) <==> InForce(cs, HealthTarget(active, kind))
  {
    hide Find;
  }

  lemma HealthTargeted(active: Config, kind: ConditionType)
    requires IsHealth(kind)
    ensures HealthTarget(active, kind) in Targets(active)
  {
    hide HealthTarget;
    var i := if kind == Healthy then 0 else if kind == MembershipHealthy then 1 else if kind == SlotsCovered then 2
             else if kind == SlotsBalanced then 3 else if kind == ReplicasBalanced then 4 else 5;
    assert HEALTH_TYPES[i] == kind;
    assert Targets(active)[3 + i] == HealthTarget(active, kind);
  }

  /** Aggregation makes the conditions tell about the active config and leaves others alone. */
  lemma AggregationTells(cs: seq<Condition>, active: Config, now: nat)
    ensures var r := AggregatedConditions(cs, active, now);
            && ConditionsTell(r, active) && TimesFollow(cs, r, now) && UpdatedInPlace(cs, r)
            && forall kind: ConditionType :: kind.ForeignType? ==> Find(r, kind) == Find(cs, kind)
  {
    hide Targets, ConditionsTell, Find, TimesFollow, UpdatedInPlace, InForce, SetAll;
    TargetsDistinct(active);
    TargetsTell(AggregatedConditions(cs, active, now), active);
    SetAllEffect(cs, Targets(active), now, ReadyType);
    SetAllInPlace(cs, Targets(active), now);
    forall kind: ConditionType | kind.ForeignType?
      ensures Find(AggregatedConditions(cs, active, now), kind) == Find(cs, kind)
    {
      SetAllEffect(cs, Targets(active), now, kind);
    }
  }

  lemma HealthIsCopiedOrUnknown(cs: seq<Condition>, active: Config, now: nat, kind: ConditionType)
    requires IsHealth(kind)
    ensures HealthTold(AggregatedConditions(cs, active, now), active, kind)
  {
    hide AggregatedConditions, Find;
    AggregationTells(cs, active, now);
  }

  // ----- the two status writers -----

  /** aggregateStatus: the status written over `latest` from the active config. */
  function AggregatedStatus(latest: Redkey, active: Config, observed: nat, now: nat): Status {
    var conditions := AggregatedConditions(latest.status.conditions, active, now);
    var records := !latest.spec.ephemeral && active.status.configPhase == Applied && active.spec.primaries > 0;
    Status(latest.spec.primaries, ComputePhase(conditions), active.status.status, active.status.substatus,
           active.status.nodes, conditions, now, observed,
           if records then active.spec.primaries else latest.status.lastAppliedPrimaries,
           if records then active.spec.replicasPerPrimary else latest.status.lastAppliedReplicasPerPrimary)
  }

  /** updateStatusScaledToZero. */
  function ScaledToZeroStatus(cluster: Redkey, observed: nat, now: nat): Status {
    Status(0, PhaseReady, NoStatus, NO_SUBSTATUS, map[],
           SetAll(cluster.status.conditions, ZERO_TARGETS, now), now, observed,
           cluster.status.lastAppliedPrimaries, cluster.status.lastAppliedReplicasPerPrimary)
  }

  /** `c` shows what the active config reports: its operational status and nodes, the phase that
      follows from how far Robin has got with it, and its topology once that is applied. */
  ghost predicate Mirrors(c: Redkey, active: Config) {
    var st, report := c.status, active.status;
    && st.replicas == c.spec.primaries
    && st.status == report.status && st.substatus == report.substatus && st.nodes == report.nodes
    && ConditionsTell(st.conditions, active)
    && st.phase == (if report.configPhase !in {Applied, Superseded} then PhaseConfiguring
                    else if report.status == ErrorStatus then PhaseError else PhaseReady)
    && (TakesTopology(c, active) ==> st.LastApplied() == active.spec.Topo())
  }

  /** Only an applied topology with primaries is recorded, and only for a storage cluster. */
  predicate TakesTopology(c: Redkey, active: Config) {
    !c.spec.ephemeral && active.status.configPhase == Applied && active.spec.primaries > 0
  }

  /** `c` carries the status aggregation writes over `before`. */
  ghost predicate Aggregated(before: Status, c: Redkey, active: Config, observed: nat, now: nat)
    ensures Aggregated(before, c, active, observed, now) ==> c.status.observedGeneration == observed
  {
    && Mirrors(c, active)
    && c.status.observedGeneration == observed && c.status.lastUpdatedAt == now
    && (!TakesTopology(c, active) ==> c.status.LastApplied() == before.LastApplied())
    && TimesFollow(before.conditions, c.status.conditions, now)
    && UpdatedInPlace(before.conditions, c.status.conditions)
    && forall kind: ConditionType :: kind.ForeignType? ==>
         Find(c.status.conditions, kind) == Find(before.conditions, kind)
  }

  lemma AggregationMirrors(latest: Redkey, active: Config, observed: nat, now: nat)
    ensures var st := AggregatedStatus(latest, active, observed, now);
            forall rv :: Aggregated(latest.status, latest.(status := st, resourceVersion := rv), active, observed, now)
  {
    hide AggregatedConditions, Find, TimesFollow, UpdatedInPlace, HealthTold;
    AggregationTells(latest.status.conditions, active, now);
  }

  /** Whatever aggregation may write over a status that mirrors the active config, only the time moves. */
  lemma MirroredStays(c: Redkey, c': Redkey, active: Config, now: nat)
    requires Mirrors(c, active) && Aggregated(c.status, c', active, c.status.observedGeneration, now)
    requires c'.spec == c.spec
    ensures c'.status == c.status.(lastUpdatedAt := now)
  {
    hide Find, ConditionsTell;
    var cs, r := c.status.conditions, c'.status.conditions;
    assert |r| == |cs| by {
      if |r| > |cs| && !r[|cs|].kind.ForeignType? {
        ToldOnce(cs, r, active, r[|cs|].kind);
      }
    }
    forall i | 0 <= i < |cs|
      ensures r[i] == cs[i]
    {
      hide TimesFollow, UpdatedInPlace;
      assert Find(r, r[i].kind).Some?;
      if !r[i].kind.ForeignType? {
        ToldOnce(cs, r, active, r[i].kind);
      }
      SameCondition(cs, r, now, i);
    }
    assert r == cs;
  }

  /** The conditions of one type in two lists that tell about the same config say the same. */
  lemma ToldOnce(cs: seq<Condition>, r: seq<Condition>, active: Config, kind: ConditionType)
    requires ConditionsTell(cs, active) && ConditionsTell(r, active) && !kind.ForeignType?
    ensures var f, g := Find(cs, kind), Find(r, kind);
            && f.Some? && g.Some?
            && g.value == f.value.(lastTransition := g.value.lastTransition)
  {
    hide Find;
    if IsHealth(kind) {
      assert HealthTold(cs, active, kind) && HealthTold(r, active, kind);
    }
  }

  lemma SameCondition(cs: seq<Condition>, r: seq<Condition>, now: nat, i: nat)
    requires i < |cs| <= |r| && TimesFollow(cs, r, now) && UpdatedInPlace(cs, r)
    requires var f, g := Find(cs, r[i].kind), Find(r, r[i].kind);
             && f.Some? && g.Some?
             && g.value == f.value.(lastTransition := g.value.lastTransition)
    ensures r[i] == cs[i]
  {
    var kind := r[i].kind;
    var first := IndexOf(cs, kind);
    assert r[first].kind == kind;
    IndexOfFirst(r, kind, first);
  }

  /** What the scaled-to-zero path writes over `before`. */
  ghost predicate ShowsNothing(before: Status, st: Status, observed: nat, now: nat) {
    && st.replicas == 0 && st.phase == PhaseReady && st.status == NoStatus && st.substatus == NO_SUBSTATUS
    && st.nodes == map[] && st.observedGeneration == observed && st.lastUpdatedAt == now
    && st.LastApplied() == before.LastApplied()
    && Says(st.conditions, ReadyType, True, "ScaledToZero", "")
    && Says(st.conditions, ConfigPendingType, False, "ScaledToZero", "")
    && Says(st.conditions, ErrorType, False, "ScaledToZero", "")
    && TimesFollow(before.conditions, st.conditions, now) && UpdatedInPlace(before.conditions, st.conditions)
    && forall kind :: kind !in {ReadyType, ConfigPendingType, ErrorType} ==>
         Find(st.conditions, kind) == Find(before.conditions, kind)
  }

  lemma ScaledToZeroShows(cluster: Redkey, observed: nat, now: nat)
    ensures ShowsNothing(cluster.status, ScaledToZeroStatus(cluster, observed, now), observed, now)
  {
    hide Find, TimesFollow, UpdatedInPlace, SetAll;
    var cs, ts := cluster.status.conditions, ZERO_TARGETS;
    SetAllEffect(cs, ts, now, ReadyType);
    SetAllInPlace(cs, ts, now);
    assert ts[0] in ts && ts[1] in ts && ts[2] in ts;
    forall kind | kind !in {ReadyType, ConfigPendingType, ErrorType}
      ensures Find(SetAll(cs, ts, now), kind) == Find(cs, kind)
    {
      SetAllEffect(cs, ts, now, kind);
    }
  }

  /** A reader can rely on the conditions and the phase telling one story. */
  ghost predicate Agrees(st: Status) {
    && Distinct(st.conditions)
    && (st.phase == PhaseReady <==> Holds(st.conditions, ReadyType))
    && (st.phase == PhaseConfiguring <==> Holds(st.conditions, ConfigPendingType))
    && (st.phase == PhaseError <==> Holds(st.conditions, ErrorType))
    && Find(st.conditions, ReadyType).Some?
    && Find(st.conditions, ConfigPendingType).Some?
    && Find(st.conditions, ErrorType).Some?
    && (Holds(st.conditions, ReadyType) || Holds(st.conditions, ConfigPendingType) || Holds(st.conditions, ErrorType))
    && !(Holds(st.conditions, ReadyType) && Holds(st.conditions, ConfigPendingType))
    && !(Holds(st.conditions, ReadyType) && Holds(st.conditions, ErrorType))
    && !(Holds(st.conditions, ConfigPendingType) && Holds(st.conditions, ErrorType))
  }

  lemma AggregationAgrees(latest: Redkey, active: Config, observed: nat, now: nat)
    requires Distinct(latest.status.conditions)
    ensures Agrees(AggregatedStatus(latest, active, observed, now))
  {
    var ts := Targets(active);
    TargetsDistinct(active);
    SetAllEffect(latest.status.conditions, ts, now, ReadyType);
    assert ts[0] in ts && ts[1] in ts && ts[2] in ts;
  }

  lemma ScaledToZeroAgrees(cluster: Redkey, observed: nat, now: nat)
    requires Distinct(cluster.status.conditions)
    ensures Agrees(ScaledToZeroStatus(cluster, observed, now))
  {
    var ts := ZERO_TARGETS;
    SetAllEffect(cluster.status.conditions, ts, now, ReadyType);
    assert ts[0] in ts && ts[1] in ts && ts[2] in ts;
  }

  /** Writing the aggregated status a second time only moves LastUpdatedAt. */
  lemma AggregatedStatusIdempotent(latest: Redkey, active: Config, observed: nat, now: nat, later: nat)
    ensures var st := AggregatedStatus(latest, active, observed, now);
            AggregatedStatus(latest.(status := st), active, observed, later) == st.(lastUpdatedAt := later)
  {
    AggregationIdempotent(latest.status.conditions, active, now, later);
  }
}
