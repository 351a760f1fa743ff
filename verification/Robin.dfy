/** The objects the operator keeps for Robin: what they should look like, when they count as
    drifted, and what a patch leaves behind. */
module Robin {
  import opened Types
  import opened Identity

  // ----- environment variables -----

  function Names(env: seq<EnvVar>): (ns: seq<string>)
    ensures |ns| == |env| && forall i :: 0 <= i < |env| ==> ns[i] == env[i].name
  {
    seq(|env|, i requires 0 <= i < |env| => env[i].name)
  }

  ghost predicate Distinct(ns: seq<string>) {
    forall i, j :: 0 <= i < j < |ns| ==> ns[i] != ns[j]
  }

  /** Position of the last entry with a name. */
  function LastIndex(env: seq<EnvVar>, name: string): (i: nat)
    requires name in Names(env)
    ensures i < |env| && env[i].name == name
    ensures forall j :: i < j < |env| ==> env[j].name != name
  {
    if env[|env| - 1].name == name then |env| - 1
    else
      assert Names(env) == Names(env[..|env| - 1]) + [env[|env| - 1].name];
      LastIndex(env[..|env| - 1], name)
  }

  function Upsert(env: seq<EnvVar>, e: EnvVar): seq<EnvVar> {
    if e.name in Names(env) then env[LastIndex(env, e.name) := e] else env + [e]
  }

  function MergedEnv(base: seq<EnvVar>, overrides: seq<EnvVar>): seq<EnvVar>
    decreases |overrides|
  {
    if overrides == [] then base
    else Upsert(MergedEnv(base, overrides[..|overrides| - 1]), overrides[|overrides| - 1])
  }

  /** `index` knows the last position of every name in `env`, and no other name. */
  ghost predicate Indexes(index: map<string, nat>, env: seq<EnvVar>) {
    && (forall n :: n in index <==> n in Names(env))
    && (forall n :: n in index ==> index[n] == LastIndex(env, n))
  }

  lemma IndexesAfterAppend(index: map<string, nat>, env: seq<EnvVar>, e: EnvVar)
    requires Indexes(index, env)
    ensures Indexes(index[e.name := |env|], env + [e])
  {
    assert Names(env + [e]) == Names(env) + [e.name];
  }

  lemma IndexesAfterReplace(index: map<string, nat>, env: seq<EnvVar>, e: EnvVar)
    requires Indexes(index, env) && e.name in index
    ensures Indexes(index, env[index[e.name] := e])
  {
    assert Names(env[index[e.name] := e]) == Names(env);
  }

  method MergeEnvVars(base: seq<EnvVar>, overrides: seq<EnvVar>) returns (merged: seq<EnvVar>)
    ensures merged == MergedEnv(base, overrides)
  {
    merged := base;
    var indexByName: map<string, nat> := map[];
    for i := 0 to |base|
      invariant Indexes(indexByName, base[..i])
    {
      IndexesAfterAppend(indexByName, base[..i], base[i]);
      assert base[..i] + [base[i]] == base[..i + 1];
      indexByName := indexByName[base[i].name := i];
    }
    assert base[..|base|] == base;
    for i := 0 to |overrides|
      invariant merged == MergedEnv(base, overrides[..i])
      invariant Indexes(indexByName, merged)
    {
      var e := overrides[i];
      assert overrides[..i + 1][..i] == overrides[..i];
      if e.name in indexByName {
        IndexesAfterReplace(indexByName, merged, e);
        merged := merged[indexByName[e.name] := e];
      } else {
        IndexesAfterAppend(indexByName, merged, e);
        indexByName := indexByName[e.name := |merged|];
        merged := merged + [e];
      }
    }
    assert overrides[..|overrides|] == overrides;
  }

  function DefaultEnv(name: string, namespace: string): seq<EnvVar> {
    [EnvVar("CLUSTER_NAME", name), EnvVar("NAMESPACE", namespace)]
  }

  /** The entries of a list in order of first appearance, leaving out those in `skip`. */
  function FirstAppearances(ns: seq<string>, skip: seq<string>): (r: seq<string>)
    ensures forall n :: n in r <==> n in ns && n !in skip
    ensures Distinct(r)
  {
    if ns == [] then []
    else
      var init, n := ns[..|ns| - 1], ns[|ns| - 1];
      var rest := FirstAppearances(init, skip);
      assert ns == init + [n];
      if n in skip || n in rest then rest else rest + [n]
  }

  /** The names of a merge: the base's, then the new ones in order of first appearance. */
  lemma {:induction false} MergedNames(base: seq<EnvVar>, user: seq<EnvVar>)
    ensures Names(MergedEnv(base, user)) == Names(base) + FirstAppearances(Names(user), Names(base))
    decreases |user|
  {
    if user != [] {
      var init, e := user[..|user| - 1], user[|user| - 1];
      MergedNames(base, init);
      assert Names(user)[..|user| - 1] == Names(init);
      var m := MergedEnv(base, init);
      assert Names(Upsert(m, e)) == if e.name in Names(m) then Names(m) else Names(m) + [e.name];
    }
  }

  lemma MergedDistinct(base: seq<EnvVar>, user: seq<EnvVar>)
    requires Distinct(Names(base))
    ensures Distinct(Names(MergedEnv(base, user)))
  {
    MergedNames(base, user);
    var fa := FirstAppearances(Names(user), Names(base));
    assert forall i :: 0 <= i < |fa| ==> fa[i] in fa;
  }

  lemma UpsertAt(env: seq<EnvVar>, e: EnvVar, i: nat)
    requires Distinct(Names(env)) && i < |Upsert(env, e)|
    ensures var r := Upsert(env, e)[i];
            if r.name == e.name then r == e else i < |env| && r == env[i]
  {
    assert i < |env| ==> Names(env)[i] == env[i].name;
  }

  /** The values of a merge: the last entry the user gave, else the base's. */
  lemma {:induction false} MergedValues(base: seq<EnvVar>, user: seq<EnvVar>, i: nat)
    requires Distinct(Names(base)) && i < |MergedEnv(base, user)|
    ensures var m := MergedEnv(base, user)[i];
            if m.name in Names(user) then m == user[LastIndex(user, m.name)] else i < |base| && m == base[i]
    decreases |user|
  {
    if user != [] {
      var init, e := user[..|user| - 1], user[|user| - 1];
      var before, r := MergedEnv(base, init), MergedEnv(base, user)[i];
      MergedDistinct(base, init);
      UpsertAt(before, e, i);
      LastIndexSplits(init, e, r.name);
      assert user == init + [e];
      if r.name != e.name {
        MergedValues(base, init, i);
      }
    }
  }

  lemma LastIndexSplits(init: seq<EnvVar>, e: EnvVar, n: string)
    ensures n in Names(init + [e]) <==> n == e.name || n in Names(init)
    ensures n == e.name ==> (init + [e])[LastIndex(init + [e], n)] == e
    ensures n != e.name && n in Names(init) ==> (init + [e])[LastIndex(init + [e], n)] == init[LastIndex(init, n)]
  {
    assert Names(init + [e]) == Names(init) + [e.name];
  }

  /** Merging the defaults again restores their values and touches nothing else. */
  lemma DefaultsRestored(a: EnvVar, b: EnvVar, m: seq<EnvVar>)
    requires |m| >= 2 && Distinct(Names(m)) && m[0].name == a.name && m[1].name == b.name
    ensures MergedEnv(m, [a, b]) == m[0 := a][1 := b]
  {
    MergeOfTwo(m, a, b);
    UpsertInPlace(m, a, 0);
    var m1 := m[0 := a];
    UpsertInPlace(m1, b, 1);
  }

  lemma UpsertInPlace(env: seq<EnvVar>, e: EnvVar, k: nat)
    requires Distinct(Names(env)) && k < |env| && env[k].name == e.name
    ensures Upsert(env, e) == env[k := e] && Names(env[k := e]) == Names(env)
  {
    assert Names(env)[k] == e.name;
    var i := LastIndex(env, e.name);
    assert Names(env)[i] == e.name;
  }

  lemma MergeOfTwo(m: seq<EnvVar>, a: EnvVar, b: EnvVar)
    ensures MergedEnv(m, [a, b]) == Upsert(Upsert(m, a), b)
  {
    assert [a, b][..1] == [a] && [a][..0] == [];
    assert MergedEnv(m, [a]) == Upsert(m, a);
  }

  function RobinEnv(name: string, namespace: string, user: seq<EnvVar>): seq<EnvVar> {
    MergedEnv(MergedEnv(DefaultEnv(name, namespace), user), DefaultEnv(name, namespace))
  }

  /** What the Robin container should see: the two defaults unchanged in front, then each other name
      once, with the user's last value, in order of first appearance. */
  function Environment(name: string, namespace: string, user: seq<EnvVar>): (env: seq<EnvVar>)
    ensures |env| >= 2 && env[0] == EnvVar("CLUSTER_NAME", name) && env[1] == EnvVar("NAMESPACE", namespace)
  {
    var ns := FirstAppearances(Names(user), ["CLUSTER_NAME", "NAMESPACE"]);
    [EnvVar("CLUSTER_NAME", name), EnvVar("NAMESPACE", namespace)]
    + seq(|ns|, i requires 0 <= i < |ns| => assert ns[i] in ns; user[LastIndex(user, ns[i])])
  }

  /** Merging the user's list over the defaults and the defaults over that gives it, for every user
      list, duplicates included. */
  lemma RobinEnvironment(name: string, namespace: string, user: seq<EnvVar>)
    ensures RobinEnv(name, namespace, user) == Environment(name, namespace, user)
    ensures Distinct(Names(Environment(name, namespace, user)))
  {
    hide FirstAppearances, LastIndex;
    var d := DefaultEnv(name, namespace);
    var m := MergedEnv(d, user);
    var ns := FirstAppearances(Names(user), ["CLUSTER_NAME", "NAMESPACE"]);
    assert Names(d) == ["CLUSTER_NAME", "NAMESPACE"];
    MergedNames(d, user);
    MergedDistinct(d, user);
    assert Names(m)[0] == d[0].name && Names(m)[1] == d[1].name;
    DefaultsRestored(d[0], d[1], m);
    var r := RobinEnv(name, namespace, user);
    forall i | 2 <= i < |m|
      ensures r[i] == Environment(name, namespace, user)[i]
    {
      assert Names(m)[i] == ns[i - 2] && ns[i - 2] in ns;
      MergedValues(d, user, i);
    }
    assert r == Environment(name, namespace, user);
    assert Names(r) == Names(m);
  }

  // ----- the Robin Deployment -----

  datatype Deployment = Deployment(labels: Labels, annotations: Labels, replicas: Option<int>,
                                   templateLabels: Labels, templateAnnotations: Labels, pod: Tree)

  function RobinName(cluster: string): string {
    cluster + "-robin"
  }

  function BaseLabels(cluster: string): Labels {
    map[CLUSTER_LABEL := cluster, COMPONENT_LABEL := "robin"]
  }

  function EnvTree(env: seq<EnvVar>): Tree {
    Items(seq(|env|, i requires 0 <= i < |env| => Record([Text(env[i].name), Text(env[i].value)])))
  }

  function DesiredDeployment(cluster: Redkey): Deployment {
    var spec := cluster.spec;
    var tpl := spec.robin.template;
    var env := if tpl.Some? then RobinEnv(cluster.name, cluster.namespace, tpl.value.env)
               else DefaultEnv(cluster.name, cluster.namespace);
    var image := if tpl.Some? && tpl.value.image != "" then tpl.value.image else spec.robin.image;
    var container := Record([Text("robin"), Text(image), EnvTree(env)]);
    Deployment(
      MergeMeta(spec.labels, map[], BaseLabels(cluster.name)),
      MergeMeta(spec.annotations, map[], map[]),
      Some(1),
      MergeMeta(spec.labels, if tpl.Some? then tpl.value.labels else map[], BaseLabels(cluster.name)),
      MergeMeta(spec.annotations, if tpl.Some? then tpl.value.annotations else map[], map[]),
      Record([Text(RobinName(cluster.name)), Items([container]), if tpl.Some? then tpl.value.overrides else Nil]))
  }

  /** The image of the template if it names one, else that of the spec. */
  function RobinImage(robin: RobinSpec): string {
    match robin.template
    case None => robin.image
    case Some(tpl) => if tpl.image == "" then robin.image else tpl.image
  }

  function TemplateOf(robin: RobinSpec): RobinTemplate {
    if robin.template.Some? then robin.template.value else RobinTemplate(map[], map[], "", [], Nil)
  }

  /** Labels of Robin's objects: the operator's own two cannot be overridden. */
  ghost predicate LabelsServe(m: Labels, cluster: Redkey, block: Labels) {
    Decorated(m, cluster.spec.labels, block, map[CLUSTER_LABEL := cluster.name, COMPONENT_LABEL := "robin"])
  }

  /** All of a Deployment but its pod and its own annotations is as the Redkey asks. */
  ghost predicate MetadataServes(d: Deployment, cluster: Redkey) {
    var tpl := TemplateOf(cluster.spec.robin);
    && d.replicas == Some(1) && LabelsServe(d.labels, cluster, map[])
    && LabelsServe(d.templateLabels, cluster, tpl.labels)
    && Decorated(d.templateAnnotations, cluster.spec.annotations, tpl.annotations, map[])
  }

  /** The pod runs one container, Robin's, under Robin's account, with exactly the environment and
      the image asked for. */
  ghost predicate PodIs(pod: Tree, cluster: Redkey) {
    var tpl := TemplateOf(cluster.spec.robin);
    var env := Environment(cluster.name, cluster.namespace, tpl.env);
    && pod.Record? && |pod.fields| == 3
    && pod.fields[0] == Text(cluster.name + "-robin") && pod.fields[2] == tpl.overrides
    && pod.fields[1].Items? && |pod.fields[1].items| == 1
    && var c := pod.fields[1].items[0];
       && c.Record? && |c.fields| == 3
       && c.fields[0] == Text("robin") && c.fields[1] == Text(RobinImage(cluster.spec.robin))
       && c.fields[2].Items? && |c.fields[2].items| == |env|
       && forall i :: 0 <= i < |env| ==> c.fields[2].items[i] == Record([Text(env[i].name), Text(env[i].value)])
  }

  /** The pod of a live Deployment has at least what is asked for: Kubernetes and others may have
      added to it. */
  ghost predicate PodServes(pod: Tree, cluster: Redkey) {
    var tpl := TemplateOf(cluster.spec.robin);
    && pod.Record? && |pod.fields| == 3
    && pod.fields[0] == Text(cluster.name + "-robin") && Derives(tpl.overrides, pod.fields[2])
    && pod.fields[1].Items? && |pod.fields[1].items| >= 1
    && ContainerServes(pod.fields[1].items[0], RobinImage(cluster.spec.robin),
                       Environment(cluster.name, cluster.namespace, tpl.env))
  }

  ghost predicate ContainerServes(c: Tree, image: string, env: seq<EnvVar>) {
    && c.Record? && |c.fields| == 3 && c.fields[0] == Text("robin")
    && (image != "" ==> c.fields[1] == Text(image))
    && c.fields[2].Items? && |c.fields[2].items| >= |env|
    && forall i :: 0 <= i < |env| ==> EntryServes(c.fields[2].items[i], env[i])
  }

  predicate EntryServes(t: Tree, e: EnvVar) {
    && t.Record? && |t.fields| == 2
    && (e.name != "" ==> t.fields[0] == Text(e.name)) && (e.value != "" ==> t.fields[1] == Text(e.value))
  }

  /** Nothing about a live Deployment calls for an update. */
  ghost predicate Serves(d: Deployment, cluster: Redkey) {
    && MetadataServes(d, cluster) && PodServes(d.pod, cluster)
    && d.annotations - {REVISION} == cluster.spec.annotations
  }

  lemma DesiredIsDescribed(cluster: Redkey)
    ensures var d := DesiredDeployment(cluster);
            MetadataServes(d, cluster) && PodIs(d.pod, cluster) && d.annotations == cluster.spec.annotations
  {
    hide Decorated, Environment, RobinEnv, MergeMeta;
    var spec, tpl := cluster.spec, TemplateOf(cluster.spec.robin);
    var d := DesiredDeployment(cluster);
    var own := map[CLUSTER_LABEL := cluster.name, COMPONENT_LABEL := "robin"];
    MergeDecorates(d.labels, spec.labels, map[], own);
    MergeDecorates(d.templateLabels, spec.labels, tpl.labels, own);
    MergeDecorates(d.templateAnnotations, spec.annotations, tpl.annotations, map[]);
    EnvironmentUsed(cluster);
    NoOwnEntries(spec.annotations);
  }

  lemma NoOwnEntries(user: Labels)
    ensures MergeMeta(user, map[], map[]) == user
  {
  }

  lemma EnvironmentUsed(cluster: Redkey)
    ensures var tpl := cluster.spec.robin.template;
            (if tpl.Some? then RobinEnv(cluster.name, cluster.namespace, tpl.value.env)
             else DefaultEnv(cluster.name, cluster.namespace))
            == Environment(cluster.name, cluster.namespace, TemplateOf(cluster.spec.robin).env)
  {
    hide RobinEnv;
    if cluster.spec.robin.template.Some? {
      RobinEnvironment(cluster.name, cluster.namespace, cluster.spec.robin.template.value.env);
    } else {
      assert Names([]) == [];
    }
  }

  function StripManaged(annotations: Labels): Labels {
    annotations - {REVISION}
  }

  function PreserveManaged(existing: Labels, desired: Labels): Labels {
    if REVISION in existing then desired[REVISION := existing[REVISION]] else desired
  }

  /** Semantic.DeepDerivative: `b` agrees with `a` wherever `a` is set; lists may be longer. */
  predicate Derives(a: Tree, b: Tree) {
    match a
    case Nil => true
    case Scalar(_) => a == b
    case Text(t) => t == "" || a == b
    case Record(fs) =>
      b.Record? && |b.fields| == |fs| && forall i :: 0 <= i < |fs| ==> Derives(fs[i], b.fields[i])
    case Items(xs) =>
      xs == [] || (b.Items? && |xs| <= |b.items| && forall i :: 0 <= i < |xs| ==> Derives(xs[i], b.items[i]))
    case Table(m) =>
      m == map[] || (b.Table? && forall k :: k in m ==> k in b.entries && Derives(m[k], b.entries[k]))
  }

  predicate NeedsUpdate(existing: Deployment, desired: Deployment) {
    || existing.replicas != desired.replicas
    || existing.labels != desired.labels
    || StripManaged(existing.annotations) != desired.annotations
    || existing.templateLabels != desired.templateLabels
    || existing.templateAnnotations != desired.templateAnnotations
    || !Derives(desired.pod, existing.pod)
  }

  /** Drift is seen if and only if the live Deployment is not what Kubernetes may have made of the
      desired one, or the desired annotations hold the revision key. */
  lemma DriftIsExact(existing: Deployment, desired: Deployment)
    ensures !NeedsUpdate(existing, desired) <==>
            REVISION !in desired.annotations && KubernetesTouches(desired, existing)
  {
    if REVISION !in desired.annotations {
      assert StripManaged(desired.annotations) == desired.annotations;
    }
  }

  /** In terms of the Redkey: no update is needed if and only if the live Deployment serves it. */
  lemma ServesIff(d: Deployment, cluster: Redkey)
    ensures Serves(d, cluster) <==> !NeedsUpdate(d, DesiredDeployment(cluster))
  {
    hide Decorated, Environment, DesiredDeployment, PodIs, PodServes, Derives;
    var want, spec, tpl := DesiredDeployment(cluster), cluster.spec, TemplateOf(cluster.spec.robin);
    var own := map[CLUSTER_LABEL := cluster.name, COMPONENT_LABEL := "robin"];
    DesiredIsDescribed(cluster);
    OneDecoration(d.labels, want.labels, spec.labels, map[], own);
    OneDecoration(d.templateLabels, want.templateLabels, spec.labels, tpl.labels, own);
    OneDecoration(d.templateAnnotations, want.templateAnnotations, spec.annotations, tpl.annotations, map[]);
    PodServesIff(d.pod, want.pod, cluster);
  }

  lemma OneDecoration(m: Labels, want: Labels, user: Labels, block: Labels, own: Labels)
    requires Decorated(want, user, block, own)
    ensures Decorated(m, user, block, own) <==> m == want
  {
    hide Decorated;
    MergeDecorates(m, user, block, own);
    MergeDecorates(want, user, block, own);
  }

  lemma PodServesIff(pod: Tree, want: Tree, cluster: Redkey)
    requires PodIs(want, cluster)
    ensures PodServes(pod, cluster) <==> Derives(want, pod)
  {
    hide Environment;
    var tpl := TemplateOf(cluster.spec.robin);
    var env := Environment(cluster.name, cluster.namespace, tpl.env);
    var c := want.fields[1].items[0];
    if pod.Record? && |pod.fields| == 3 && pod.fields[1].Items? && |pod.fields[1].items| >= 1 {
      ContainerServesIff(pod.fields[1].items[0], c, RobinImage(cluster.spec.robin), env);
    }
  }

  lemma ContainerServesIff(c: Tree, want: Tree, image: string, env: seq<EnvVar>)
    requires want.Record? && |want.fields| == 3 && want.fields[0] == Text("robin") && want.fields[1] == Text(image)
    requires want.fields[2].Items? && |want.fields[2].items| == |env| > 0
    requires forall i :: 0 <= i < |env| ==> want.fields[2].items[i] == Record([Text(env[i].name), Text(env[i].value)])
    ensures ContainerServes(c, image, env) <==> Derives(want, c)
  {
    if c.Record? && |c.fields| == 3 && c.fields[2].Items? && |env| <= |c.fields[2].items| {
      forall i | 0 <= i < |env|
        ensures EntryServes(c.fields[2].items[i], env[i]) <==> Derives(want.fields[2].items[i], c.fields[2].items[i])
      {
        EntryServesIff(c.fields[2].items[i], env[i]);
      }
    }
  }

  lemma EntryServesIff(t: Tree, e: EnvVar)
    ensures EntryServes(t, e) <==> Derives(Record([Text(e.name), Text(e.value)]), t)
  {
    var want := Record([Text(e.name), Text(e.value)]);
    assert want.fields[0] == Text(e.name) && want.fields[1] == Text(e.value);
  }

  function Patched(existing: Deployment, desired: Deployment): Deployment {
    Deployment(desired.labels, PreserveManaged(existing.annotations, desired.annotations), desired.replicas,
               desired.templateLabels, desired.templateAnnotations, desired.pod)
  }

  /** A patch makes everything as asked, except that a revision stamped by Kubernetes stays. */
  lemma PatchIsExact(existing: Deployment, cluster: Redkey)
    ensures var d := Patched(existing, DesiredDeployment(cluster));
            && MetadataServes(d, cluster) && PodIs(d.pod, cluster)
            && KeepsRevision(existing.annotations, d.annotations)
            && d.annotations - {REVISION} == cluster.spec.annotations - {REVISION}
  {
    hide Decorated, PodIs, DesiredDeployment;
    DesiredIsDescribed(cluster);
  }

  predicate KeepsRevision(before: Labels, after: Labels) {
    REVISION in before ==> REVISION in after && after[REVISION] == before[REVISION]
  }

  lemma {:induction false} DerivesReflexive(t: Tree)
    ensures Derives(t, t)
  {
    match t
    case Record(fs) => forall i | 0 <= i < |fs| ensures Derives(fs[i], fs[i]) { DerivesReflexive(fs[i]); }
    case Items(xs) => forall i | 0 <= i < |xs| ensures Derives(xs[i], xs[i]) { DerivesReflexive(xs[i]); }
    case Table(m) => forall k | k in m ensures Derives(m[k], m[k]) { DerivesReflexive(m[k]); }
    case _ =>
  }

  lemma {:induction false} DerivesTransitive(a: Tree, b: Tree, c: Tree)
    requires Derives(a, b) && Derives(b, c)
    ensures Derives(a, c)
    decreases a
  {
    match a
    case Record(fs) =>
      forall i | 0 <= i < |fs|
        ensures Derives(fs[i], c.fields[i])
      {
        DerivesTransitive(fs[i], b.fields[i], c.fields[i]);
      }
    case Items(xs) =>
      if xs != [] {
        forall i | 0 <= i < |xs|
          ensures Derives(xs[i], c.items[i])
        {
          DerivesTransitive(xs[i], b.items[i], c.items[i]);
        }
      }
    case Table(m) =>
      if m != map[] {
        forall k | k in m ensures Derives(m[k], c.entries[k]) { DerivesTransitive(m[k], b.entries[k], c.entries[k]); }
      }
    case _ =>
  }

  /** A way down a tree. */
  datatype Step = Field(index: nat) | Item(index: nat) | Entry(key: string)

  function At(t: Tree, path: seq<Step>): Option<Tree> {
    if path == [] then Some(t)
    else
      match path[0]
      case Field(i) => if t.Record? && i < |t.fields| then At(t.fields[i], path[1..]) else None
      case Item(i) => if t.Items? && i < |t.items| then At(t.items[i], path[1..]) else None
      case Entry(k) => if t.Table? && k in t.entries then At(t.entries[k], path[1..]) else None
  }

  predicate Unset(t: Tree) {
    t == Nil || t == Text("") || t == Items([]) || t == Table(map[])
  }

  /** One node of a tree is there in the other: the same value, or a list or table at least as long. */
  predicate Meets(a: Tree, b: Tree) {
    || Unset(a)
    || (a.Scalar? && a == b) || (a.Text? && a == b)
    || (a.Record? && b.Record? && |a.fields| == |b.fields|)
    || (a.Items? && b.Items? && |a.items| <= |b.items|)
    || (a.Table? && b.Table? && a.entries.Keys <= b.entries.Keys)
  }

  ghost predicate MeetsAt(a: Tree, b: Tree, path: seq<Step>) {
    At(a, path).Some? ==> At(b, path).Some? && Meets(At(a, path).value, At(b, path).value)
  }

  /** The comparison means: along every path of `a`, whatever is set there is the same in `b`. So a
      changed or missing value is always seen, and one that was only removed from `a` never is. */
  lemma DerivesIsPointwise(a: Tree, b: Tree)
    ensures Derives(a, b) <==> forall path :: MeetsAt(a, b, path)
  {
    hide MeetsAt, Derives;
    if Derives(a, b) {
      forall path
        ensures MeetsAt(a, b, path)
      {
        DerivesAt(a, b, path);
      }
    }
    if forall path :: MeetsAt(a, b, path) {
      MeetsEverywhere(a, b);
    }
  }

  lemma {:induction false} DerivesAt(a: Tree, b: Tree, path: seq<Step>)
    requires Derives(a, b)
    ensures MeetsAt(a, b, path)
    decreases |path|
  {
    if path != [] && At(a, path).Some? {
      match path[0]
      case Field(i) => DerivesAt(a.fields[i], b.fields[i], path[1..]);
      case Item(i) => DerivesAt(a.items[i], b.items[i], path[1..]);
      case Entry(k) => DerivesAt(a.entries[k], b.entries[k], path[1..]);
    }
  }

  lemma {:induction false} MeetsEverywhere(a: Tree, b: Tree)
    requires forall path :: MeetsAt(a, b, path)
    ensures Derives(a, b)
    decreases a
  {
    hide Derives, MeetsAt;
    RootMeets(a, b);
    match a
    case Record(fs) =>
      forall i | 0 <= i < |fs|
        ensures Derives(fs[i], b.fields[i])
      {
        Below(a, b, Field(i), fs[i], b.fields[i]);
        MeetsEverywhere(fs[i], b.fields[i]);
      }
      DerivesNode(a, b);
    case Items(xs) =>
      forall i | 0 <= i < |xs|
        ensures Derives(xs[i], b.items[i])
      {
        Below(a, b, Item(i), xs[i], b.items[i]);
        MeetsEverywhere(xs[i], b.items[i]);
      }
      DerivesNode(a, b);
    case Table(m) =>
      forall k | k in m
        ensures Derives(m[k], b.entries[k])
      {
        Below(a, b, Entry(k), m[k], b.entries[k]);
        MeetsEverywhere(m[k], b.entries[k]);
      }
      DerivesNode(a, b);
    case _ => DerivesNode(a, b);
  }

  lemma RootMeets(a: Tree, b: Tree)
    requires forall path :: MeetsAt(a, b, path)
    ensures Meets(a, b)
  {
    assert MeetsAt(a, b, []);
  }

  lemma Below(a: Tree, b: Tree, step: Step, a': Tree, b': Tree)
    requires forall path :: MeetsAt(a, b, path)
    requires At(a, [step]) == Some(a') && At(b, [step]) == Some(b')
    ensures forall path :: MeetsAt(a', b', path)
  {
    forall path
      ensures MeetsAt(a', b', path)
    {
      assert MeetsAt(a, b, [step] + path);
      assert ([step] + path)[1..] == path && [step][1..] == [];
    }
  }

  lemma DerivesNode(a: Tree, b: Tree)
    requires Meets(a, b)
    requires a.Record? ==> forall i :: 0 <= i < |a.fields| ==> Derives(a.fields[i], b.fields[i])
    requires a.Items? ==> forall i :: 0 <= i < |a.items| ==> Derives(a.items[i], b.items[i])
    requires a.Table? ==> forall k :: k in a.entries ==> Derives(a.entries[k], b.entries[k])
    ensures Derives(a, b)
  {
  }

  /** What Kubernetes does to a Deployment it runs: it stamps the revision annotation with any
      value and fills fields that were left unset. */
  ghost predicate KubernetesTouches(before: Deployment, after: Deployment) {
    && after == before.(annotations := after.annotations, pod := after.pod)
    && StripManaged(after.annotations) == StripManaged(before.annotations)
    && Derives(before.pod, after.pod)
  }

  ghost predicate KubernetesRun(run: seq<Deployment>) {
    forall i :: 0 <= i < |run| - 1 ==> KubernetesTouches(run[i], run[i + 1])
  }

  lemma {:induction false} TouchesCompose(run: seq<Deployment>)
    requires run != [] && KubernetesRun(run)
    ensures KubernetesTouches(run[0], run[|run| - 1])
    decreases |run|
  {
    if |run| == 1 {
      DerivesReflexive(run[0].pod);
    } else {
      var init := run[..|run| - 1];
      forall i | 0 <= i < |init| - 1
        ensures KubernetesTouches(init[i], init[i + 1])
      {
        assert KubernetesTouches(run[i], run[i + 1]);
      }
      TouchesCompose(init);
      assert KubernetesTouches(run[|run| - 2], run[|run| - 1]);
      DerivesTransitive(run[0].pod, run[|run| - 2].pod, run[|run| - 1].pod);
    }
  }

  /** A Deployment that serves its Redkey still does after whatever Kubernetes does to it. */
  lemma SettledStaysSettled(existing: Deployment, cluster: Redkey, run: seq<Deployment>)
    requires Serves(existing, cluster) && KubernetesRun([existing] + run)
    ensures Serves(([existing] + run)[|run|], cluster)
  {
    hide Derives, StripManaged, DesiredDeployment, Serves, KubernetesRun;
    var all, desired := [existing] + run, DesiredDeployment(cluster);
    TouchesCompose(all);
    ServesIff(existing, cluster);
    ServesIff(all[|run|], cluster);
    DerivesTransitive(desired.pod, existing.pod, all[|run|].pod);
  }

  /** After a patch, and after whatever Kubernetes then does to the object, the operator sees
      drift if and only if the user put the revision key into the annotations. */
  lemma NoDriftFight(existing: Deployment, desired: Deployment, run: seq<Deployment>)
    requires run != [] && run[0] == Patched(existing, desired) && KubernetesRun(run)
    ensures NeedsUpdate(run[|run| - 1], desired) <==> REVISION in desired.annotations
  {
    TouchesCompose(run);
    var last := run[|run| - 1];
    if REVISION !in desired.annotations {
      assert StripManaged(Patched(existing, desired).annotations) == desired.annotations;
    }
  }

  /** The same for a freshly created Deployment. */
  lemma NoDriftAfterCreate(desired: Deployment, run: seq<Deployment>)
    requires run != [] && run[0] == desired && KubernetesRun(run) && desired.replicas.Some?
    ensures NeedsUpdate(run[|run| - 1], desired) <==> REVISION in desired.annotations
  {
    TouchesCompose(run);
    if REVISION !in desired.annotations {
      assert StripManaged(desired.annotations) == desired.annotations;
    }
  }

  /** The other side of comparing only what is set: a variable that is removed from the end of the
      template's list stays in the live Deployment, which serves the shorter list as well. */
  lemma RemovedVariableStays(cluster: Redkey, tpl: RobinTemplate, e: EnvVar)
    requires cluster.spec.robin.template == Some(tpl) && REVISION !in cluster.spec.annotations
    requires e.name !in Names(tpl.env) && e.name !in ["CLUSTER_NAME", "NAMESPACE"]
    ensures var robin := cluster.spec.robin.(template := Some(tpl.(env := tpl.env + [e])));
            var d := DesiredDeployment(cluster.(spec := cluster.spec.(robin := robin)));
            Serves(d, cluster) && !PodIs(d.pod, cluster)
  {
    hide Derives, DesiredDeployment, Decorated, Environment;
    var tpl' := tpl.(env := tpl.env + [e]);
    var cluster' := cluster.(spec := cluster.spec.(robin := cluster.spec.robin.(template := Some(tpl'))));
    var d := DesiredDeployment(cluster');
    DesiredIsDescribed(cluster');
    OneMoreVariable(cluster.name, cluster.namespace, tpl.env, e);
    DerivesReflexive(tpl.overrides);
  }

  lemma OneMoreName(ns: seq<string>, n: string, skip: seq<string>)
    requires n !in ns && n !in skip
    ensures FirstAppearances(ns + [n], skip) == FirstAppearances(ns, skip) + [n]
  {
    assert (ns + [n])[..|ns|] == ns;
  }

  lemma OneMoreVariable(name: string, namespace: string, user: seq<EnvVar>, e: EnvVar)
    requires e.name !in Names(user) && e.name !in ["CLUSTER_NAME", "NAMESPACE"]
    ensures Environment(name, namespace, user + [e]) == Environment(name, namespace, user) + [e]
  {
    hide LastIndex, FirstAppearances;
    var skip, all := ["CLUSTER_NAME", "NAMESPACE"], user + [e];
    var ns := FirstAppearances(Names(user), skip);
    assert Names(all) == Names(user) + [e.name];
    OneMoreName(Names(user), e.name, skip);
    forall i | 0 <= i < |ns|
      ensures ns[i] in Names(user) && all[LastIndex(all, ns[i])] == user[LastIndex(user, ns[i])]
    {
      assert ns[i] in ns;
      LastIndexSplits(user, e, ns[i]);
    }
    LastIndexSplits(user, e, e.name);
  }

  // ----- RBAC -----

  datatype RbacKind = ServiceAccountKind | RoleKind | RoleBindingKind

  /** `body` holds a Role's rules or a RoleBinding's subjects. */
  datatype RbacObject = RbacObject(labels: Labels, annotations: Labels, body: seq<string>, roleRef: string)

  const ROBIN_RULES: seq<string> :=
    ["apps/statefulsets:*", "services,configmaps:*", "pods:get,list,watch,delete", "persistentvolumeclaims:list,delete",
     "policy/poddisruptionbudgets:*", "secrets:get", "redkeys:get", "redkeyconfigs:get,list,watch",
     "redkeyconfigs/status:update,patch"]

  function DesiredRbac(cluster: Redkey, kind: RbacKind): RbacObject {
    var labels := MergeMeta(cluster.spec.labels, map[], BaseLabels(cluster.name));
    var annotations := MergeMeta(cluster.spec.annotations, map[], map[]);
    match kind
    case ServiceAccountKind => RbacObject(labels, annotations, [], "")
    case RoleKind => RbacObject(labels, annotations, ROBIN_RULES, "")
    case RoleBindingKind =>
      RbacObject(labels, annotations, [RobinName(cluster.name), cluster.namespace], RobinName(cluster.name))
  }

  /** RoleRef is immutable, so a RoleBinding whose RoleRef drifted is recreated. */
  predicate NeedsRecreate(kind: RbacKind, existing: RbacObject, desired: RbacObject) {
    kind.RoleBindingKind? && existing.roleRef != desired.roleRef
  }

  predicate NeedsPatch(kind: RbacKind, existing: RbacObject, desired: RbacObject) {
    || existing.labels != desired.labels
    || existing.annotations != desired.annotations
    || (!kind.ServiceAccountKind? && existing.body != desired.body)
  }

  function PatchedRbac(kind: RbacKind, existing: RbacObject, desired: RbacObject): RbacObject {
    existing.(labels := desired.labels, annotations := desired.annotations,
              body := if kind.ServiceAccountKind? then existing.body else desired.body)
  }

  /** An RBAC object is as the Redkey asks: its metadata, the rules of the Role, and of the
      RoleBinding that it binds Robin's account to Robin's Role. */
  ghost predicate RbacServes(o: RbacObject, cluster: Redkey, kind: RbacKind) {
    && LabelsServe(o.labels, cluster, map[]) && o.annotations == cluster.spec.annotations
    && (kind.RoleKind? ==> o.body == ROBIN_RULES)
    && (kind.RoleBindingKind? ==>
          o.body == [cluster.name + "-robin", cluster.namespace] && o.roleRef == cluster.name + "-robin")
  }

  lemma RbacServesIff(o: RbacObject, cluster: Redkey, kind: RbacKind)
    ensures RbacServes(o, cluster, kind) <==>
            var want := DesiredRbac(cluster, kind);
            !NeedsRecreate(kind, o, want) && !NeedsPatch(kind, o, want)
  {
    hide Decorated, MergeMeta;
    var own := map[CLUSTER_LABEL := cluster.name, COMPONENT_LABEL := "robin"];
    MergeDecorates(o.labels, cluster.spec.labels, map[], own);
    NoOwnEntries(cluster.spec.annotations);
  }

  /** So a created object serves, and a patched one does if nothing immutable had drifted. */
  lemma WrittenRbacServes(cluster: Redkey, kind: RbacKind, existing: RbacObject)
    ensures var want := DesiredRbac(cluster, kind);
            && RbacServes(want, cluster, kind)
            && (!NeedsRecreate(kind, existing, want) ==> RbacServes(PatchedRbac(kind, existing, want), cluster, kind))
  {
    hide RbacServes, DesiredRbac;
    var want := DesiredRbac(cluster, kind);
    RbacServesIff(want, cluster, kind);
    RbacServesIff(PatchedRbac(kind, existing, want), cluster, kind);
  }
}
