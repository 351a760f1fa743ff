/** How a config gets its name, its labels and the generation annotation, and why none of
    them can be shadowed by what a user puts into the Redkey. */
module Identity {
  import opened Types

  const DIGITS := "0123456789"

  /** strconv.FormatInt in base 10, on the non-negative numbers the operator formats. */
  function FormatInt(n: nat): string {
    if n < 10 then [DIGITS[n]] else FormatInt(n / 10) + [DIGITS[n % 10]]
  }

  predicate IsDigit(c: char) {
    '0' <= c <= '9'
  }

  /** The value of a non-empty run of digits; anything else is a syntax error. */
  function ParseDigits(s: string): Option<int> {
    if s == "" || !IsDigit(s[|s| - 1]) then None
    else
      var digit := s[|s| - 1] as int - '0' as int;
      if |s| == 1 then Some(digit)
      else match ParseDigits(s[..|s| - 1])
        case None => None
        case Some(n) => Some(10 * n + digit)
  }

  /** strconv.ParseInt(s, 10, 64): an optional sign, digits, and the range of int64. */
  function ParseInt(s: string): Option<int> {
    var negative := s != "" && s[0] == '-';
    var digits := if s != "" && (s[0] == '-' || s[0] == '+') then s[1..] else s;
    match ParseDigits(digits)
    case None => None
    case Some(n) =>
      var v := if negative then -n else n;
      if -(MAX_INT64 + 1) <= v <= MAX_INT64 then Some(v) else None
  }

  lemma {:induction false} FormatIsDigits(n: nat)
    ensures FormatInt(n) != ""
    ensures forall i :: 0 <= i < |FormatInt(n)| ==> IsDigit(FormatInt(n)[i])
  {
    if n >= 10 {
      FormatIsDigits(n / 10);
    }
  }

  lemma {:induction false} ParseDigitsInvertsFormat(n: nat)
    ensures ParseDigits(FormatInt(n)) == Some(n)
  {
    if n >= 10 {
      FormatIsDigits(n / 10);
      ParseDigitsInvertsFormat(n / 10);
      var s := FormatInt(n);
      assert s[..|s| - 1] == FormatInt(n / 10);
    }
  }

  /** Writing a generation and parsing it back is the identity on int64. */
  lemma FormatParseRoundTrip(n: nat)
    ensures n <= MAX_INT64 ==> ParseInt(FormatInt(n)) == Some(n)
    ensures n > MAX_INT64 ==> ParseInt(FormatInt(n)) == None
  {
    FormatIsDigits(n);
    ParseDigitsInvertsFormat(n);
  }

  function ConfigName(cluster: string, sequence: nat): string {
    cluster + "-" + FormatInt(sequence)
  }

  /** Two clusters never compete for a config name, even when one cluster's name extends the
      other's with a dash and digits. */
  lemma ConfigNameInjective(c1: string, s1: nat, c2: string, s2: nat)
    requires ConfigName(c1, s1) == ConfigName(c2, s2)
    ensures c1 == c2 && s1 == s2
  {
    var n := ConfigName(c1, s1);
    FormatIsDigits(s1);
    FormatIsDigits(s2);
    DashIsLast(c1, s1);
    DashIsLast(c2, s2);
    assert |c1| == |c2|;
    assert c1 == n[..|c1|] && c2 == n[..|c2|];
    assert FormatInt(s1) == n[|c1| + 1..] == FormatInt(s2);
    ParseDigitsInvertsFormat(s1);
    ParseDigitsInvertsFormat(s2);
  }

  lemma DashIsLast(c: string, s: nat)
    ensures var n := ConfigName(c, s);
            n[|c|] == '-' && forall i :: |c| < i < |n| ==> n[i] != '-'
  {
    FormatIsDigits(s);
    var n := ConfigName(c, s);
    forall i | |c| < i < |n|
      ensures n[i] != '-'
    {
      assert n[i] == FormatInt(s)[i - |c| - 1];
    }
  }

  /** Labels (or annotations) of a managed object: a non-empty override block replaces the
      user's, and the operator's own entries are applied last. */
  function MergeMeta(spec: Labels, override: Labels, base: Labels): Labels {
    (if override != map[] then override else spec) + base
  }

  /** The user's entries, or the block that replaces them if it has any, under the operator's own. */
  ghost predicate Decorated(m: Labels, user: Labels, block: Labels, own: Labels) {
    var given := if block == map[] then user else block;
    && m.Keys == given.Keys + own.Keys
    && (forall k :: k in own ==> m[k] == own[k])
    && (forall k :: k in given && k !in own ==> m[k] == given[k])
  }

  lemma MergeDecorates(m: Labels, user: Labels, block: Labels, own: Labels)
    ensures Decorated(m, user, block, own) <==> m == MergeMeta(user, block, own)
  {
    var given := if block == map[] then user else block;
    assert (given + own).Keys == given.Keys + own.Keys;
    if Decorated(m, user, block, own) {
      assert forall k :: k in m <==> k in m.Keys;
      assert m == given + own;
    }
  }

  function SnapshotSpec(spec: Spec, sequence: nat): ConfigSpec {
    ConfigSpec(sequence, spec.skipIfSuperseded, spec.mode, spec.primaries, spec.replicasPerPrimary,
               spec.ephemeral, spec.storage, spec.storageClassName, spec.labels, spec.annotations,
               spec.purgeKeysOnRebalance, spec.workload)
  }

  /** `c` has the same value as `s` for every setting a config carries. */
  predicate Carries(c: ConfigSpec, s: Spec) {
    && c.mode == s.mode && c.primaries == s.primaries && c.replicasPerPrimary == s.replicasPerPrimary
    && c.ephemeral == s.ephemeral && c.storage == s.storage && c.storageClassName == s.storageClassName
    && c.purgeKeysOnRebalance == s.purgeKeysOnRebalance && c.skipIfSuperseded == s.skipIfSuperseded
    && c.labels == s.labels && c.annotations == s.annotations && c.workload == s.workload
  }

  lemma SnapshotCarries(spec: Spec, sequence: nat)
    ensures var c := SnapshotSpec(spec, sequence); c.sequence == sequence && Carries(c, spec)
  {
  }

  /** A config tells two specs apart unless they differ in Robin's own settings or the access modes only. */
  lemma SnapshotTellsApart(a: Spec, b: Spec, ca: ConfigSpec, cb: ConfigSpec)
    requires Carries(ca, a) && Carries(cb, b) && ca.sequence == cb.sequence
    ensures ca == cb <==> b == a.(robin := b.robin, accessModes := b.accessModes)
  {
  }

  /** The config createNewConfig sends to the API server. */
  function BuildConfig(spec: Spec, generation: nat, sequence: nat): Config {
    Config(generation, SnapshotSpec(spec, sequence), UNREPORTED)
  }

  /** The object metadata of a config: the user's entries, which the config's spec carries a
      copy of, under the operator's own. */
  datatype Metadata = Metadata(name: string, namespace: string, labels: Labels, annotations: Labels)

  function MetadataOf(cluster: string, namespace: string, c: Config): Metadata {
    Metadata(ConfigName(cluster, c.spec.sequence), namespace,
             MergeMeta(c.spec.labels, map[], map[CLUSTER_LABEL := cluster]),
             MergeMeta(c.spec.annotations, map[], map[GENERATION_ANNOTATION := FormatInt(c.generation)]))
  }

  /** The generation a config was created for, as needsNewConfig reads it back. */
  function AnnotatedGeneration(annotations: Labels): Option<int> {
    if GENERATION_ANNOTATION in annotations && annotations[GENERATION_ANNOTATION] != ""
    then ParseInt(annotations[GENERATION_ANNOTATION]) else None
  }

  /** The label and namespace selector of listConfigs. */
  predicate ListedFor(m: Metadata, cluster: string, namespace: string) {
    m.namespace == namespace && CLUSTER_LABEL in m.labels && m.labels[CLUSTER_LABEL] == cluster
  }

  /** Whatever labels and annotations the user sets, they are on the config under the operator's own,
      the generation reads back exactly, the config is listed for its own cluster only, and no other
      cluster or sequence has its name. */
  lemma ConfigIdentity(cluster: string, namespace: string, c: Config)
    requires c.generation <= MAX_INT64
    ensures var m := MetadataOf(cluster, namespace, c);
            && Decorated(m.labels, c.spec.labels, map[], map[CLUSTER_LABEL := cluster])
            && Decorated(m.annotations, c.spec.annotations, map[],
                         map[GENERATION_ANNOTATION := FormatInt(c.generation)])
            && AnnotatedGeneration(m.annotations) == Some(c.generation)
            && (forall other, ns :: ListedFor(m, other, ns) <==> other == cluster && ns == namespace)
            && (forall other, s :: m.name == ConfigName(other, s) <==> other == cluster && s == c.spec.sequence)
  {
    FormatIsDigits(c.generation);
    FormatParseRoundTrip(c.generation);
    var m := MetadataOf(cluster, namespace, c);
    MergeDecorates(m.labels, c.spec.labels, map[], map[CLUSTER_LABEL := cluster]);
    MergeDecorates(m.annotations, c.spec.annotations, map[], map[GENERATION_ANNOTATION := FormatInt(c.generation)]);
    forall other, s | m.name == ConfigName(other, s)
      ensures other == cluster && s == c.spec.sequence
    {
      ConfigNameInjective(cluster, c.spec.sequence, other, s);
    }
  }
}
