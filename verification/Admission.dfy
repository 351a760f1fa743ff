/** The validation rules the API server runs on every write of a Redkey. */
module Admission {
  import opened Types

  /** Rules on the spec alone. */
  predicate ValidSpec(s: Spec) {
    && (s.ephemeral || s.storage.Some?)
    && !(s.ephemeral && s.storage.Some?)
    && !(!s.ephemeral && s.purgeKeysOnRebalance)
    && (s.mode == StandaloneMode ==> s.primaries <= 1 && s.replicasPerPrimary == 0)
  }

  /** Rules that compare a field with its old value. */
  predicate KeepsImmutable(old_: Spec, new_: Spec) {
    && new_.mode == old_.mode
    && new_.ephemeral == old_.ephemeral
    && new_.storage == old_.storage
    && new_.storageClassName == old_.storageClassName
    && new_.accessModes == old_.accessModes
  }

  /** A status exists from the first write on, which sets a phase. */
  predicate Written(st: Status) {
    st.phase != NoPhase
  }

  /** An omitted status field reads as zero, so `has` means non-zero. Without a status `has` itself
      fails, and the rule with it unless another alternative holds. */
  predicate LockPrimaries(oldSelf: Spec, self: Redkey) {
    || self.spec.ephemeral
    || oldSelf.primaries != 0
    || self.spec.primaries == 0
    || (&& Written(self.status)
        && (|| self.status.lastAppliedPrimaries == 0
            || self.spec.primaries == self.status.lastAppliedPrimaries))
  }

  predicate LockReplicas(oldSelf: Spec, self: Redkey) {
    || self.spec.ephemeral
    || oldSelf.primaries != 0
    || self.spec.primaries == 0
    || (&& Written(self.status)
        && var recorded := self.status.lastAppliedReplicasPerPrimary;
           || self.status.lastAppliedPrimaries == 0
           || self.spec.replicasPerPrimary == (if recorded != 0 then recorded else 0))
  }

  /** A spec update: the stored status is what the root-level rules see. */
  predicate Admits(live: Redkey, spec: Spec) {
    var self := live.(spec := spec);
    && ValidSpec(spec) && KeepsImmutable(live.spec, spec)
    && LockPrimaries(live.spec, self) && LockReplicas(live.spec, self)
  }

  const MAX_RECORDED := 100_000

  predicate InBounds(t: Topology) {
    t.primaries <= MAX_RECORDED && 0 <= t.replicasPerPrimary <= MAX_RECORDED
  }

  /** A status whose recorded topology is out of bounds is rejected. */
  predicate SchemaValid(st: Status) {
    InBounds(st.LastApplied())
  }

  /** What the rules on the spec alone come to. */
  predicate WellFormed(s: Spec) {
    && (s.storage.Some? <==> !s.ephemeral) && (s.purgeKeysOnRebalance ==> s.ephemeral)
    && (s.mode == ClusterMode || s.Topo() in {Topology(0, 0), Topology(1, 0)})
  }

  /** The settings that are fixed when the Redkey is created. */
  predicate SameForGood(a: Spec, b: Spec) {
    && a.mode == b.mode && a.ephemeral == b.ephemeral
    && (a.storage, a.storageClassName, a.accessModes) == (b.storage, b.storageClassName, b.accessModes)
  }

  /** An edit is admitted if and only if its spec is well-formed and keeps what is fixed for good,
      and it does not bring a storage cluster from zero to primaries, or there is a status and it
      has the recorded topology if there is one. */
  lemma LockIsExact(live: Redkey, spec: Spec)
    ensures Admits(live, spec) <==>
            && WellFormed(spec) && SameForGood(live.spec, spec)
            && (!spec.ephemeral && live.spec.primaries == 0 && spec.primaries > 0 ==>
                  && Written(live.status)
                  && (live.status.lastAppliedPrimaries > 0 ==> spec.Topo() == live.status.LastApplied()))
  {
  }

  lemma ValidIsWellFormed(s: Spec)
    ensures ValidSpec(s) <==> WellFormed(s)
  {
  }
}
