/** Decisions on a list of configs sorted by sequence: whether a new one is needed, which are
    superseded, and which one the status is taken from. */
module Selection {
  import opened Types
  import opened Identity

  ghost predicate Ascending(l: seq<Config>) {
    forall i, j :: 0 <= i < j < |l| ==> l[i].spec.sequence < l[j].spec.sequence
  }

  /** `l` holds exactly the configs of `m`, in order of sequence. */
  ghost predicate IsListing(l: seq<Config>, m: map<nat, Config>) {
    && Ascending(l)
    && (forall i :: 0 <= i < |l| ==> l[i].spec.sequence in m && m[l[i].spec.sequence] == l[i])
    && (forall k :: k in m ==> m[k] in l)
  }

  // ----- sorting what the API server returns in any order -----

  function Insert(l: seq<Config>, c: Config): seq<Config> {
    if l == [] || c.spec.sequence < l[0].spec.sequence then [c] + l else [l[0]] + Insert(l[1..], c)
  }

  lemma {:induction false} InsertSorts(l: seq<Config>, c: Config)
    requires Ascending(l) && forall i :: 0 <= i < |l| ==> l[i].spec.sequence != c.spec.sequence
    ensures Ascending(Insert(l, c))
    ensures forall x :: x in Insert(l, c) <==> x in l || x == c
  {
    if l != [] && c.spec.sequence >= l[0].spec.sequence {
      InsertSorts(l[1..], c);
      var r := Insert(l[1..], c);
      assert l == [l[0]] + l[1..];
      forall j | 0 <= j < |r|
        ensures l[0].spec.sequence < r[j].spec.sequence
      {
        assert r[j] in r;
      }
    }
  }

  method SortBySequence(m: map<nat, Config>) returns (l: seq<Config>)
    requires forall k :: k in m ==> m[k].spec.sequence == k
    ensures IsListing(l, m)
  {
    l := [];
    var todo := m.Keys;
    while todo != {}
      invariant todo <= m.Keys && Ascending(l)
      invariant forall c :: c in l ==> c.spec.sequence in m && m[c.spec.sequence] == c && c.spec.sequence !in todo
      invariant forall k :: k in m && k !in todo ==> m[k] in l
      decreases todo
    {
      var k :| k in todo;
      assert forall i :: 0 <= i < |l| ==> l[i] in l;
      InsertSorts(l, m[k]);
      l := Insert(l, m[k]);
      todo := todo - {k};
    }
    assert forall i :: 0 <= i < |l| ==> l[i] in l;
  }

  // ----- needsNewConfig -----

  predicate NeedsNewConfig(cluster: Redkey, latest: Option<Config>) {
    var parsed := if latest.Some?
                  then AnnotatedGeneration(MetadataOf(cluster.name, cluster.namespace, latest.value).annotations)
                  else None;
    if parsed.Some? && parsed.value >= cluster.generation then false
    else cluster.status.observedGeneration < cluster.generation
  }

  /** Read through the annotation text, the decision is about generations. */
  lemma NeedsNewConfigMeaning(cluster: Redkey, latest: Option<Config>)
    requires latest.Some? ==> latest.value.generation <= MAX_INT64
    ensures NeedsNewConfig(cluster, latest) <==>
            && cluster.status.observedGeneration < cluster.generation
            && (latest.Some? ==> latest.value.generation < cluster.generation)
  {
    if latest.Some? {
      ConfigIdentity(cluster.name, cluster.namespace, latest.value);
    }
  }

  // ----- cleanup and selection -----

  predicate IsApplied(c: Config) {
    c.status.configPhase == Applied
  }

  predicate IsInProgress(c: Config) {
    c.status.configPhase == InProgress
  }

  /** Index of the newest applied config, -1 when none is. */
  function LastApplied(l: seq<Config>): (i: int)
    ensures -1 <= i < |l|
    ensures i >= 0 ==> IsApplied(l[i])
    ensures forall j :: i < j < |l| ==> !IsApplied(l[j])
  {
    if l == [] then -1
    else if IsApplied(l[|l| - 1]) then |l| - 1
    else LastApplied(l[..|l| - 1])
  }

  method FindLastApplied(l: seq<Config>) returns (lastApplied: int)
    ensures lastApplied == LastApplied(l)
  {
    lastApplied := -1;
    var i := |l| - 1;
    while i >= 0
      invariant -1 <= i < |l| && lastApplied == -1
      invariant forall j :: i < j < |l| ==> !IsApplied(l[j])
    {
      if IsApplied(l[i]) {
        return i;
      }
      i := i - 1;
    }
  }

  /** What an error-free cleanup of `l` keeps. */
  function Survivors(l: seq<Config>): (r: seq<Config>)
    ensures l != [] ==> r != []
  {
    if LastApplied(l) <= 0 then l else l[LastApplied(l)..]
  }

  /** Index of the first config in progress from `start` on, the length when there is none. */
  function NextInProgress(l: seq<Config>, start: nat): (i: nat)
    requires start <= |l|
    ensures start <= i <= |l|
    ensures i < |l| ==> IsInProgress(l[i])
    ensures forall j :: start <= j < i ==> !IsInProgress(l[j])
    decreases |l| - start
  {
    if start == |l| || IsInProgress(l[start]) then start else NextInProgress(l, start + 1)
  }

  function Active(l: seq<Config>): Config
    requires l != []
  {
    var i := NextInProgress(l, 0);
    if i < |l| then l[i] else l[0]
  }

  method SelectActiveConfig(l: seq<Config>) returns (c: Config)
    requires l != []
    ensures c == Active(l)
  {
    if |l| == 1 {
      return l[0];
    }
    for i := 0 to |l|
      invariant forall j :: 0 <= j < i ==> !IsInProgress(l[j])
    {
      if IsInProgress(l[i]) {
        return l[i];
      }
    }
    return l[0];
  }

  /** After an error-free cleanup the status comes from the first config in progress that is
      newer than the newest applied one, else from the newest applied one, else from the oldest.
      In particular an applied config it comes from is the newest applied one. */
  lemma CleanupThenSelect(l: seq<Config>)
    requires l != []
    ensures Survivors(l) != []
    ensures Active(Survivors(l)) == FirstChoice(l)
    ensures IsApplied(Active(Survivors(l))) ==> LastApplied(l) >= 0 && Active(Survivors(l)) == l[LastApplied(l)]
  {
    hide LastApplied, NextInProgress, Survivors, Active;
    if LastApplied(l) > 0 {
      SelectFromSuffix(l);
    } else {
      SelectFromAll(l);
    }
  }

  function FirstChoice(l: seq<Config>): Config
    requires l != []
  {
    var a := LastApplied(l);
    var i := NextInProgress(l, a + 1);
    if i < |l| then l[i] else if a >= 0 then l[a] else l[0]
  }

  lemma SelectFromSuffix(l: seq<Config>)
    requires LastApplied(l) > 0
    ensures Survivors(l) != [] && Active(Survivors(l)) == FirstChoice(l)
  {
    hide LastApplied, NextInProgress;
    var a := LastApplied(l);
    SuffixSearch(l, a, 0);
    SkipApplied(l, a);
  }

  lemma SelectFromAll(l: seq<Config>)
    requires l != [] && LastApplied(l) <= 0
    ensures Survivors(l) != [] && Active(Survivors(l)) == FirstChoice(l)
  {
    hide LastApplied, NextInProgress;
    if LastApplied(l) == 0 {
      SkipApplied(l, 0);
    }
  }

  /** An applied config is not in progress. */
  lemma SkipApplied(l: seq<Config>, a: nat)
    requires a < |l| && IsApplied(l[a])
    ensures NextInProgress(l, a) == NextInProgress(l, a + 1)
  {
  }

  lemma {:induction false} SuffixSearch(l: seq<Config>, a: nat, start: nat)
    requires a + start <= |l|
    ensures a + NextInProgress(l[a..], start) == NextInProgress(l, a + start)
    decreases |l| - start
  {
    if a + start < |l| {
      assert l[a..][start] == l[a + start];
      SuffixSearch(l, a, start + 1);
    }
  }

  /** Cleaning up and selecting again changes nothing. */
  lemma SurvivorsSettle(l: seq<Config>)
    requires l != []
    ensures Survivors(l) != [] && LastApplied(Survivors(l)) <= 0 && Survivors(Survivors(l)) == Survivors(l)
  {
    var a, s := LastApplied(l), Survivors(l);
    if a > 0 {
      forall j | 0 < j < |s|
        ensures !IsApplied(s[j])
      {
        assert s[j] == l[a + j];
      }
    }
  }
}
