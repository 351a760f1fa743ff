/** The fleet metrics: trackers that see one observation at a time, against what the whole
    history of observations means. */
module Metrics {
  import opened Types

  datatype Key = Key(namespace: string, name: string)

  /** What the metrics are told: a reconcile's outcome, with or without an active config, or that
      the Redkey is gone. */
  datatype Observation =
    | Reconciled(key: Key, status: OpStatus, phase: Phase, hasConfig: bool)
    | Deleted(key: Key)

  /** The labels success, error and superseded. */
  datatype Result = Success | Failure | Replaced

  // ----- what a history means -----

  predicate Runs(o: Observation, op: string) {
    o.Reconciled? && o.status == Operation(op)
  }

  /** `j` is the observation of the same Redkey just before `i`. */
  ghost predicate Precedes(h: seq<Observation>, j: nat, i: nat)
    requires i < |h|
  {
    j < i && h[j].key == h[i].key && forall m :: j < m < i ==> h[m].key != h[i].key
  }

  /** A maximal block of observations of one Redkey running `op` starts at `a`. */
  ghost predicate Begins(h: seq<Observation>, a: nat, op: string) {
    a < |h| && Runs(h[a], op) && forall j: nat :: Precedes(h, j, a) ==> !Runs(h[j], op)
  }

  /** The block that starts at `a` has not ended before `b`. */
  ghost predicate Lasts(h: seq<Observation>, a: nat, b: nat, op: string) {
    && a < b <= |h| && Begins(h, a, op)
    && forall m :: a <= m < b && h[m].key == h[a].key ==> Runs(h[m], op)
  }

  function ResultOf(o: Observation): Result
    requires o.Reconciled?
  {
    if o.status.Operation? then Replaced
    else if o.phase == PhaseError || o.status == ErrorStatus then Failure
    else Success
  }

  /** The block that starts at `a` ends with the observation at `b`, which gives its result. */
  ghost predicate Ends(h: seq<Observation>, a: nat, b: nat, op: string, r: Result) {
    && Lasts(h, a, b, op) && b < |h| && h[b].key == h[a].key
    && h[b].Reconciled? && !Runs(h[b], op) && ResultOf(h[b]) == r
  }

  /** The block that starts at `a` is cut off at `b` by the deletion of its Redkey. */
  ghost predicate CutOff(h: seq<Observation>, a: nat, b: nat, op: string) {
    Lasts(h, a, b, op) && b < |h| && h[b] == Deleted(h[a].key)
  }

  ghost function Started(h: seq<Observation>, op: string): set<nat> {
    set a | 0 <= a < |h| && Begins(h, a, op)
  }

  ghost predicate EndsAt(h: seq<Observation>, b: nat, op: string, r: Result) {
    exists a: nat :: Ends(h, a, b, op, r)
  }

  ghost predicate CutOffAt(h: seq<Observation>, b: nat, op: string) {
    exists a: nat :: CutOff(h, a, b, op)
  }

  /** Completed and forgotten blocks, each given by where it ends: that determines it, since a
      Redkey runs one operation at a time. */
  ghost function Completed(h: seq<Observation>, op: string, r: Result): set<nat> {
    set b | 0 <= b < |h| && EndsAt(h, b, op, r)
  }

  ghost function Forgotten(h: seq<Observation>, op: string): set<nat> {
    set b | 0 <= b < |h| && CutOffAt(h, b, op)
  }

  ghost function Ongoing(h: seq<Observation>, op: string): set<nat> {
    set a | 0 <= a < |h| && Lasts(h, a, |h|, op)
  }

  // ----- one more observation -----

  lemma BeginsCarries(h: seq<Observation>, x: Observation, a: nat, op: string)
    requires a < |h|
    ensures Begins(h + [x], a, op) <==> Begins(h, a, op)
  {
    var h' := h + [x];
    assert forall j :: 0 <= j < |h| ==> h'[j] == h[j];
    forall j: nat
      ensures Precedes(h', j, a) <==> Precedes(h, j, a)
    {
    }
  }

  lemma LastsCarries(h: seq<Observation>, x: Observation, a: nat, b: nat, op: string)
    requires a < |h|
    ensures b <= |h| ==> (Lasts(h + [x], a, b, op) <==> Lasts(h, a, b, op))
    ensures Lasts(h + [x], a, |h| + 1, op) <==> Lasts(h, a, |h|, op) && (x.key == h[a].key ==> Runs(x, op))
  {
    hide Begins;
    BeginsCarries(h, x, a, op);
    var h' := h + [x];
    assert forall j :: 0 <= j < |h| ==> h'[j] == h[j];
    if Lasts(h', a, |h| + 1, op) && x.key == h[a].key {
      assert h'[|h|] == x;
    }
  }

  /** Two blocks of one Redkey do not overlap. */
  lemma {:induction false} OneOngoing(h: seq<Observation>, a: nat, a': nat, op: string, op': string)
    requires Lasts(h, a, |h|, op) && Lasts(h, a', |h|, op') && h[a].key == h[a'].key
    ensures a == a' && op == op'
  {
    if a < a' {
      var j := PreviousFrom(h, a, a');
    } else if a' < a {
      var j := PreviousFrom(h, a', a);
    }
  }

  lemma {:induction false} PreviousFrom(h: seq<Observation>, a: nat, i: nat) returns (j: nat)
    requires a < i < |h| && h[a].key == h[i].key
    ensures a <= j && Precedes(h, j, i)
    decreases i - a
  {
    if m :| a < m < i && h[m].key == h[i].key {
      j := PreviousFrom(h, m, i);
    } else {
      j := a;
    }
  }

  /** Every observation of a running operation lies in a block. */
  lemma {:induction false} BlockOf(h: seq<Observation>, j: nat, op: string) returns (a: nat)
    requires j < |h| && Runs(h[j], op)
    ensures a <= j && h[a].key == h[j].key && Lasts(h, a, j + 1, op)
    decreases j
  {
    if p: nat :| Precedes(h, p, j) && Runs(h[p], op) {
      a := BlockOf(h, p, op);
    } else {
      a := j;
    }
  }

  ghost predicate HasOngoing(h: seq<Observation>, key: Key, op: string) {
    exists a :: 0 <= a < |h| && Lasts(h, a, |h|, op) && h[a].key == key
  }

  /** `x` finishes the block of `op` with result `r`. */
  ghost predicate Finishes(h: seq<Observation>, x: Observation, op: string, r: Result) {
    HasOngoing(h, x.key, op) && x.Reconciled? && !Runs(x, op) && ResultOf(x) == r
  }

  lemma EndsCarries(h: seq<Observation>, x: Observation, b: nat, op: string, r: Result)
    ensures b < |h| ==> (EndsAt(h + [x], b, op, r) <==> EndsAt(h, b, op, r))
    ensures b < |h| ==> (CutOffAt(h + [x], b, op) <==> CutOffAt(h, b, op))
    ensures EndsAt(h + [x], |h|, op, r) <==> Finishes(h, x, op, r)
    ensures CutOffAt(h + [x], |h|, op) <==> HasOngoing(h, x.key, op) && x.Deleted?
  {
    hide Begins, Runs;
    var h' := h + [x];
    assert h'[|h|] == x;
    forall a: nat
      ensures b < |h| ==> (Ends(h', a, b, op, r) <==> Ends(h, a, b, op, r))
      ensures b < |h| ==> (CutOff(h', a, b, op) <==> CutOff(h, a, b, op))
      ensures Ends(h', a, |h|, op, r) <==>
                && a < |h| && Lasts(h, a, |h|, op) && h[a].key == x.key
                && x.Reconciled? && !Runs(x, op) && ResultOf(x) == r
      ensures CutOff(h', a, |h|, op) <==> a < |h| && Lasts(h, a, |h|, op) && h[a].key == x.key && x.Deleted?
    {
      if a < |h| {
        LastsCarries(h, x, a, b, op);
        LastsCarries(h, x, a, |h|, op);
      }
    }
    if a: nat :| Ends(h', a, |h|, op, r) {
      assert Finishes(h, x, op, r);
    }
    if a :| 0 <= a < |h| && Lasts(h, a, |h|, op) && h[a].key == x.key {
      assert Finishes(h, x, op, r) ==> Ends(h', a, |h|, op, r);
      assert x.Deleted? ==> CutOff(h', a, |h|, op);
    }
  }

  lemma OneMoreCompleted(h: seq<Observation>, x: Observation, op: string, r: Result)
    ensures |Completed(h + [x], op, r)| == |Completed(h, op, r)| + if Finishes(h, x, op, r) then 1 else 0
  {
    hide EndsAt, Finishes;
    forall b: nat
      ensures b < |h| ==> (EndsAt(h + [x], b, op, r) <==> EndsAt(h, b, op, r))
    {
      EndsCarries(h, x, b, op, r);
    }
    EndsCarries(h, x, 0, op, r);
    assert Completed(h + [x], op, r) == Completed(h, op, r) + if Finishes(h, x, op, r) then {|h|} else {};
  }

  lemma OneMoreForgotten(h: seq<Observation>, x: Observation, op: string)
    ensures |Forgotten(h + [x], op)| == |Forgotten(h, op)| + if HasOngoing(h, x.key, op) && x.Deleted? then 1 else 0
  {
    hide CutOffAt, HasOngoing;
    forall b: nat
      ensures b < |h| ==> (CutOffAt(h + [x], b, op) <==> CutOffAt(h, b, op))
    {
      EndsCarries(h, x, b, op, Success);
    }
    EndsCarries(h, x, 0, op, Success);
    assert Forgotten(h + [x], op) == Forgotten(h, op) + if HasOngoing(h, x.key, op) && x.Deleted? then {|h|} else {};
  }

  /** An observation of `op` starts a block unless one is going on. */
  lemma BeginsIffNoneOngoing(h: seq<Observation>, x: Observation, op: string)
    ensures Begins(h + [x], |h|, op) <==> Runs(x, op) && !HasOngoing(h, x.key, op)
  {
    var h', n := h + [x], |h|;
    if a :| 0 <= a < n && Lasts(h, a, n, op) && h[a].key == x.key {
      var j := PreviousFrom(h', a, n);
      assert Runs(h'[j], op);
    } else if j: nat :| Precedes(h', j, n) && Runs(h'[j], op) {
      assert forall m :: 0 <= m < n ==> h'[m] == h[m];
      LastDecides(h, j, op);
    }
  }

  /** A Redkey is in a block exactly when its last observation is of that operation. */
  lemma LastDecides(h: seq<Observation>, j: nat, op: string)
    requires j < |h| && forall m :: j < m < |h| ==> h[m].key != h[j].key
    ensures HasOngoing(h, h[j].key, op) <==> Runs(h[j], op)
  {
    hide Begins, Runs;
    if Runs(h[j], op) {
      var a := BlockOf(h, j, op);
      assert Lasts(h, a, |h|, op);
    }
  }

  lemma OneMoreStarted(h: seq<Observation>, x: Observation, op: string)
    ensures |Started(h + [x], op)| == |Started(h, op)| + if Runs(x, op) && !HasOngoing(h, x.key, op) then 1 else 0
  {
    hide Begins, HasOngoing, Runs;
    forall a: nat | a < |h|
      ensures Begins(h + [x], a, op) <==> Begins(h, a, op)
    {
      BeginsCarries(h, x, a, op);
    }
    BeginsIffNoneOngoing(h, x, op);
    assert Started(h + [x], op) == Started(h, op) + if Begins(h + [x], |h|, op) then {|h|} else {};
  }

  lemma SingleLasts(h: seq<Observation>, n: nat, op: string)
    requires n < |h|
    ensures Lasts(h, n, n + 1, op) <==> Begins(h, n, op)
  {
  }

  lemma OngoingMember(h: seq<Observation>, x: Observation, op: string, c: nat)
    ensures c in Ongoing(h + [x], op) <==>
              if c < |h| then c in Ongoing(h, op) && (x.key == h[c].key ==> Runs(x, op))
              else c == |h| && Runs(x, op) && !HasOngoing(h, x.key, op)
  {
    hide Begins, Runs, Lasts, HasOngoing;
    if c < |h| {
      LastsCarries(h, x, c, |h|, op);
    } else if c == |h| {
      BeginsIffNoneOngoing(h, x, op);
      SingleLasts(h + [x], c, op);
    }
  }

  lemma OneMoreOngoing(h: seq<Observation>, x: Observation, op: string)
    ensures |Ongoing(h + [x], op)| == |Ongoing(h, op)| + (if Runs(x, op) && !HasOngoing(h, x.key, op) then 1 else 0)
                                                       - (if HasOngoing(h, x.key, op) && !Runs(x, op) then 1 else 0)
  {
    hide Begins, Runs, Lasts;
    forall c: nat
      ensures c in Ongoing(h + [x], op) <==>
                if c < |h| then c in Ongoing(h, op) && (x.key == h[c].key ==> Runs(x, op))
                else c == |h| && Runs(x, op) && !HasOngoing(h, x.key, op)
    {
      OngoingMember(h, x, op, c);
    }
    if a :| 0 <= a < |h| && Lasts(h, a, |h|, op) && h[a].key == x.key {
      forall c | c in Ongoing(h, op) && h[c].key == x.key
        ensures c == a
      {
        OneOngoing(h, a, c, op, op);
      }
      assert Ongoing(h + [x], op) == if Runs(x, op) then Ongoing(h, op) else Ongoing(h, op) - {a};
    } else {
      assert Ongoing(h + [x], op) == Ongoing(h, op) + if Runs(x, op) then {|h|} else {};
    }
  }

  /** Conservation: every operation that started has succeeded, failed, been replaced, been
      forgotten with its Redkey, or is going on. */
  lemma {:induction false} OperationsConserved(h: seq<Observation>, op: string)
    ensures |Started(h, op)| == |Completed(h, op, Success)| + |Completed(h, op, Failure)| + |Completed(h, op, Replaced)|
                                + |Forgotten(h, op)| + |Ongoing(h, op)|
  {
    hide Started, Completed, Forgotten, Ongoing, HasOngoing;
    if h == [] {
      NoneYet(op);
    } else {
      var g, x := h[..|h| - 1], h[|h| - 1];
      OperationsConserved(g, op);
      assert h == g + [x];
      OneMoreStarted(g, x, op);
      OneMoreCompleted(g, x, op, Success);
      OneMoreCompleted(g, x, op, Failure);
      OneMoreCompleted(g, x, op, Replaced);
      OneMoreForgotten(g, x, op);
      OneMoreOngoing(g, x, op);
    }
  }

  lemma NoneYet(op: string)
    ensures Started([], op) == {} && Forgotten([], op) == {} && Ongoing([], op) == {}
    ensures forall r :: Completed([], op, r) == {}
  {
  }

  lemma OngoingStep(h: seq<Observation>, x: Observation, key: Key, op: string)
    ensures HasOngoing(h + [x], key, op) <==> if key == x.key then Runs(x, op) else HasOngoing(h, key, op)
  {
    hide Begins, Runs, Lasts;
    var h', n := h + [x], |h|;
    if key == x.key {
      LastDecides(h', n, op);
    } else {
      forall a: nat | a < n
        ensures h'[a].key == key ==> (Lasts(h', a, n + 1, op) <==> Lasts(h, a, n, op))
      {
        LastsCarries(h, x, a, n, op);
      }
    }
  }

  // ----- entering Ready -----

  /** Observations without an active config do not reach the readiness tracker. */
  predicate Reports(o: Observation) {
    o.Reconciled? && o.hasConfig
  }

  /** The last report on `key` since it was last deleted showed `phase`. */
  ghost predicate LastReport(h: seq<Observation>, key: Key, phase: Phase) {
    exists j :: 0 <= j < |h| && ReportStands(h, j, key, phase)
  }

  ghost predicate ReportStands(h: seq<Observation>, j: nat, key: Key, phase: Phase)
    requires j < |h|
  {
    && h[j].key == key && Reports(h[j]) && h[j].phase == phase
    && forall m :: j < m < |h| && h[m].key == key ==> h[m].Reconciled? && !h[m].hasConfig
  }

  /** Position `i` reports Ready, and the report before it, if any, did not. */
  ghost predicate EntersReady(h: seq<Observation>, i: nat)
    requires i < |h|
  {
    Reports(h[i]) && h[i].phase == PhaseReady && !LastReport(h[..i], h[i].key, PhaseReady)
  }

  ghost function ReadyEntries(h: seq<Observation>): set<nat> {
    set i | 0 <= i < |h| && EntersReady(h, i)
  }

  lemma OneMoreEntry(h: seq<Observation>, x: Observation)
    ensures |ReadyEntries(h + [x])| == |ReadyEntries(h)| +
              if Reports(x) && x.phase == PhaseReady && !LastReport(h, x.key, PhaseReady) then 1 else 0
  {
    hide LastReport;
    var h', n := h + [x], |h|;
    assert h'[..n] == h;
    forall i: nat | i < n
      ensures EntersReady(h', i) <==> EntersReady(h, i)
    {
      assert h'[..i] == h[..i] && h'[i] == h[i];
    }
    assert ReadyEntries(h') == ReadyEntries(h) + if EntersReady(h', n) then {n} else {};
  }

  lemma LastReportStep(h: seq<Observation>, x: Observation, key: Key, phase: Phase)
    ensures LastReport(h + [x], key, phase) <==>
            if key != x.key || (x.Reconciled? && !x.hasConfig) then LastReport(h, key, phase)
            else Reports(x) && x.phase == phase
  {
    var h', n := h + [x], |h|;
    assert h'[n] == x && forall j :: 0 <= j < n ==> h'[j] == h[j];
    forall j: nat | j < n
      ensures ReportStands(h', j, key, phase) <==>
                ReportStands(h, j, key, phase) && (x.key == key ==> x.Reconciled? && !x.hasConfig)
    {
      if ReportStands(h', j, key, phase) {
        assert forall m :: j < m < n && h[m].key == key ==> h'[m].Reconciled? && !h'[m].hasConfig;
      }
    }
    if key == x.key && Reports(x) && x.phase == phase {
      assert ReportStands(h', n, key, phase);
    }
  }

  // ----- the code -----

  function Counted(total: map<(string, Result), nat>, op: string, r: Result): nat {
    if (op, r) in total then total[(op, r)] else 0
  }

  class OperatorMetrics {
    var active: map<Key, string>
    var operationTotal: map<(string, Result), nat>
    var inProgress: set<(Key, string)>
    var lastPhase: map<Key, Phase>
    var timesToReady: nat
    ghost var history: seq<Observation>

    /** The operation tracker has seen exactly `h`. */
    ghost predicate TracksOperations(h: seq<Observation>)
      reads `active, `operationTotal
    {
      && (forall key, op :: HasOngoing(h, key, op) <==> key in active && active[key] == op)
      && (forall op, r :: Counted(operationTotal, op, r) == |Completed(h, op, r)|)
    }

    ghost predicate TracksReadiness(h: seq<Observation>)
      reads `lastPhase, `timesToReady
    {
      && (forall key, phase :: LastReport(h, key, phase) <==> key in lastPhase && lastPhase[key] == phase)
      && timesToReady == |ReadyEntries(h)|
    }

    ghost predicate Valid()
      reads this
    {
      && TracksOperations(history) && TracksReadiness(history)
      && (forall key, op :: HasOngoing(history, key, op) <==> (key, op) in inProgress)
    }

    constructor ()
      ensures Valid() && history == []
    {
      active, operationTotal, inProgress, lastPhase, timesToReady, history := map[], map[], {}, map[], 0, [];
    }

    method Observe(key: Key, status: OpStatus, phase: Phase, ghost h: seq<Observation>, ghost hasConfig: bool)
      requires TracksOperations(h)
      modifies `active, `operationTotal
      ensures TracksOperations(h + [Reconciled(key, status, phase, hasConfig)])
    {
      hide HasOngoing, Completed;
      ghost var x := Reconciled(key, status, phase, hasConfig);
      Steps(h, x);
      var inOperation := status.Operation?;
      if inOperation && key !in active {
        active := active[key := status.name];
      } else if inOperation && active[key] != status.name {
        operationTotal := operationTotal[(active[key], Replaced) := Counted(operationTotal, active[key], Replaced) + 1];
        active := active[key := status.name];
      } else if !inOperation && key in active {
        var result := if phase == PhaseError || status == ErrorStatus then Failure else Success;
        operationTotal := operationTotal[(active[key], result) := Counted(operationTotal, active[key], result) + 1];
        active := active - {key};
      }
    }

    method Forget(key: Key, ghost h: seq<Observation>)
      requires TracksOperations(h)
      modifies `active
      ensures TracksOperations(h + [Deleted(key)])
    {
      hide HasOngoing, Completed;
      Steps(h, Deleted(key));
      active := active - {key};
    }

    /** Whether this report enters the Ready phase. */
    method EnteredReady(key: Key, phase: Phase) returns (entered: bool)
      modifies `lastPhase
      ensures entered <==> phase == PhaseReady && !(key in old(lastPhase) && old(lastPhase)[key] == PhaseReady)
      ensures lastPhase == old(lastPhase)[key := phase]
    {
      entered := phase == PhaseReady && !(key in lastPhase && lastPhase[key] == PhaseReady);
      lastPhase := lastPhase[key := phase];
    }

    method RecordRedkeyMetrics(key: Key, status: OpStatus, phase: Phase, hasConfig: bool)
      requires Valid()
      modifies this
      ensures Valid() && history == old(history) + [Reconciled(key, status, phase, hasConfig)]
    {
      hide HasOngoing, Completed, LastReport, ReadyEntries, TracksOperations;
      ghost var h, x := history, Reconciled(key, status, phase, hasConfig);
      Steps(h, x);
      ReadinessSteps(h, x);
      Observe(key, status, phase, h, hasConfig);
      inProgress := set s | s in inProgress && s.0 != key;
      if status.Operation? {
        inProgress := inProgress + {(key, status.name)};
      }
      history := history + [x];
      if !hasConfig {
        return;
      }
      var entered := EnteredReady(key, phase);
      if entered {
        timesToReady := timesToReady + 1;
      }
    }

    method DeleteRedkeyMetrics(key: Key)
      requires Valid()
      modifies this
      ensures Valid() && history == old(history) + [Deleted(key)]
    {
      hide HasOngoing, Completed, LastReport, ReadyEntries, TracksOperations;
      ghost var h := history;
      Steps(h, Deleted(key));
      ReadinessSteps(h, Deleted(key));
      inProgress := set s | s in inProgress && s.0 != key;
      Forget(key, h);
      lastPhase := lastPhase - {key};
      history := history + [Deleted(key)];
    }
  }

  lemma Steps(h: seq<Observation>, x: Observation)
    ensures forall key, op ::
              HasOngoing(h + [x], key, op) <==> if key == x.key then Runs(x, op) else HasOngoing(h, key, op)
    ensures forall op, r :: |Completed(h + [x], op, r)| == |Completed(h, op, r)| +
              if HasOngoing(h, x.key, op) && x.Reconciled? && !Runs(x, op) && ResultOf(x) == r then 1 else 0
  {
    hide HasOngoing, Completed, Runs;
    forall key, op
      ensures HasOngoing(h + [x], key, op) <==> if key == x.key then Runs(x, op) else HasOngoing(h, key, op)
    {
      OngoingStep(h, x, key, op);
    }
    forall op, r
      ensures |Completed(h + [x], op, r)| == |Completed(h, op, r)| +
                if HasOngoing(h, x.key, op) && x.Reconciled? && !Runs(x, op) && ResultOf(x) == r then 1 else 0
    {
      OneMoreCompleted(h, x, op, r);
    }
  }

  lemma ReadinessSteps(h: seq<Observation>, x: Observation)
    ensures forall key, phase :: LastReport(h + [x], key, phase) <==>
              if key != x.key || (x.Reconciled? && !x.hasConfig) then LastReport(h, key, phase)
              else Reports(x) && x.phase == phase
    ensures |ReadyEntries(h + [x])| == |ReadyEntries(h)| +
              if Reports(x) && x.phase == PhaseReady && !LastReport(h, x.key, PhaseReady) then 1 else 0
  {
    hide LastReport;
    OneMoreEntry(h, x);
    forall key, phase
      ensures LastReport(h + [x], key, phase) <==>
                if key != x.key || (x.Reconciled? && !x.hasConfig) then LastReport(h, key, phase)
                else Reports(x) && x.phase == phase
    {
      LastReportStep(h, x, key, phase);
    }
  }

  function RunningKeys(active: map<Key, string>, op: string): set<Key> {
    set key | key in active && active[key] == op
  }

  /** Blocks going on and Redkeys running the operation correspond one to one. */
  lemma {:induction false} OngoingByKey(h: seq<Observation>, op: string, blocks: set<nat>, keys: set<Key>)
    requires blocks <= Ongoing(h, op)
    requires forall a :: a in blocks ==> h[a].key in keys
    requires forall key :: key in keys ==> exists a :: a in blocks && h[a].key == key
    ensures |blocks| == |keys|
    decreases blocks
  {
    hide Lasts;
    if blocks == {} {
      assert keys == {};
    } else {
      var a :| a in blocks;
      var rest, others := blocks - {a}, keys - {h[a].key};
      forall b | b in rest
        ensures h[b].key in others
      {
        if h[b].key == h[a].key {
          OneOngoing(h, a, b, op, op);
        }
      }
      forall key | key in others
        ensures exists b :: b in rest && h[b].key == key
      {
        var b :| b in blocks && h[b].key == key;
        assert b in rest;
      }
      OngoingByKey(h, op, rest, others);
    }
  }

  lemma TrackerCountsOngoing(h: seq<Observation>, active: map<Key, string>, op: string)
    requires forall key :: HasOngoing(h, key, op) <==> key in active && active[key] == op
    ensures |Ongoing(h, op)| == |RunningKeys(active, op)|
  {
    hide Lasts;
    forall a | a in Ongoing(h, op)
      ensures h[a].key in RunningKeys(active, op)
    {
      assert HasOngoing(h, h[a].key, op);
    }
    forall key | key in RunningKeys(active, op)
      ensures exists a :: a in Ongoing(h, op) && h[a].key == key
    {
      assert HasOngoing(h, key, op);
      var a :| 0 <= a < |h| && Lasts(h, a, |h|, op) && h[a].key == key;
      assert a in Ongoing(h, op);
    }
    OngoingByKey(h, op, Ongoing(h, op), RunningKeys(active, op));
  }

  /** Feeding the metrics any history, one observation at a time, gives what the history means:
      the operation each Redkey is in, in the tracker and in the gauge alike; the number of
      blocks completed with each result; and the number of times a Redkey entered Ready. The
      counters, the forgotten operations and the tracker's entries account for every start. */
  method Replay(h: seq<Observation>)
    returns (active: map<Key, string>, total: map<(string, Result), nat>,
             inProgress: set<(Key, string)>, timesToReady: nat)
    ensures forall key, op :: HasOngoing(h, key, op) <==> key in active && active[key] == op
    ensures forall key, op :: HasOngoing(h, key, op) <==> (key, op) in inProgress
    ensures forall op, r :: Counted(total, op, r) == |Completed(h, op, r)|
    ensures timesToReady == |ReadyEntries(h)|
    ensures forall op ::
              |Started(h, op)|
              == Counted(total, op, Success) + Counted(total, op, Failure) + Counted(total, op, Replaced)
                 + |Forgotten(h, op)| + |RunningKeys(active, op)|
  {
    hide HasOngoing, Completed, LastReport, ReadyEntries, Started, Forgotten, RunningKeys, Ongoing;
    var m := new OperatorMetrics();
    for i := 0 to |h|
      invariant m.Valid() && m.history == h[..i]
    {
      match h[i]
      case Reconciled(key, status, phase, hasConfig) => m.RecordRedkeyMetrics(key, status, phase, hasConfig);
      case Deleted(key) => m.DeleteRedkeyMetrics(key);
      assert h[..i + 1] == h[..i] + [h[i]];
    }
    assert h[..|h|] == h;
    forall op
      ensures |Started(h, op)| == Counted(m.operationTotal, op, Success) + Counted(m.operationTotal, op, Failure)
                                  + Counted(m.operationTotal, op, Replaced)
                                  + |Forgotten(h, op)| + |RunningKeys(m.active, op)|
    {
      OperationsConserved(h, op);
      TrackerCountsOngoing(h, m.active, op);
    }
    return m.active, m.operationTotal, m.inProgress, m.timesToReady;
  }
}
