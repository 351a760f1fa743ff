# The Redkey operator's sequenced-config protocol, verified

This project models the control plane of the Redkey operator in Dafny and proves what it keeps
over whole runs: how a Redkey's spec becomes a sequence of RedkeyConfig snapshots, how the
configs' reports become the Redkey's status, how a Redkey is scaled to zero and back, and how
Robin's own objects are kept. `dafny verify dfyconfig.toml` checks everything.

## How the model is built

| file | contents |
|---|---|
| `Types.dfy`, `Identity.dfy` | the objects; config names, labels, the generation annotation as text |
| `Conditions.dfy`, `Selection.dfy`, `Admission.dfy` | status conditions and both status writers; sorting, cleanup and selection of configs; the validation rules |
| `Robin.dfy` | Robin's environment, Deployment, drift detection, RBAC objects |
| `Protocol.dfy` | one Redkey's state in the API server, the events that change it, and theorems over every legal sequence of events |
| `Views.dfy` | the history together with read caches that may lag but never regress, and the invariant `Inv` |
| `ApiServer.dfy` | a class with one method per API call; before each call the environment may take any number of steps, a call may fail before or after taking effect, a read may lag |
| `Reconciler.dfy` | a class with the operator's methods, early returns and retries included, up to `Reconcile` |
| `Runs.dfy` | methods that play any run of user, Robin, operator and failures from a newly created Redkey; their contracts are the main results |
| `Premises.dfy` | runs in which a main result fails without its premise, and exact conditions |
| `Metrics.dfy` | the operation and readiness trackers against the history they observe |
| `Disruptor.dfy` | the chaos tests' disruptor under every interleaving |

The environment is the user (any edit that passes the validation rules), Robin (any status on any
live config) and anybody who changes Robin's objects in place. Nothing outside the operator
creates or deletes configs or Robin's objects. One reconcile of a Redkey runs at a time.
`ApiServer.quiet` switches interference, failures and lag off; results that need calm set it only
after an arbitrary run. Lists that lagged, lists that did not show the newest config, and reads
that showed a Robin object already gone are counted, so that a result can say exactly which reads
it needs. Each edit in the log is marked with the operator's last list and whether the cluster was
steady.

## Findings

- **A lagging config list can lose a generation.** If the list lacks the newest config, the
  create takes a name that exists, that counts as success, and the status write then marks the
  generation observed although no config is for it; nothing creates one later.
  `Premises.LaggingListLosesGeneration` and `Premises.ObservedIsNeverAskedFor` show it for every
  such state, `Premises.LaggingStateExists` that there is one, and
  `Premises.CreateLandsIffListShowsNewest` gives the exact condition. "No lost generation" is
  therefore proved for lists that showed the newest config, whatever else they lacked, since the
  operator first read the generation; the next edit makes up for a lost one.
- **The scale-from-zero lock is exact from rest only.** The comments call the recorded topology
  race-free; it is what was last *aggregated*. `Runs.ScaleFromZeroLock` proves exactness from a
  cluster at rest: its one config is applied and recorded, and every list the operator may still act
  on has that config alone or, applied, as the newest. `Premises.LockedOutOfItsTopology` is a run in which a status write fails before
  the edit to zero: of `Views.Steady` only "the recorded topology is the live one" is violated, and
  the cluster is refused its own topology. No fault is needed either: at zero the list is aggregated
  without cleanup, from its oldest config (`Premises.LockedOutWithoutFault`).
  `Premises.ReturnFromZero` says when a topology is refused.
- **A storage cluster created at zero cannot leave it before its first status write.** The comment
  on the lock calls such clusters unaffected, but `has(self.status.lastAppliedPrimaries)` is an error
  while there is no status at all, and a rule that fails refuses the edit. `Admission.LockIsExact`
  states it; once there is a status the lock binds only a recorded topology.
- **The revision key in the user's annotations is a fight without end.** Drift detection ignores
  that key on the live Deployment but not in the desired one: `Robin.NoDriftFight` is an
  if-and-only-if, and the fixpoint result excludes the key.
- **Removing a variable from Robin's template is not rolled out.** Drift detection compares only what
  the desired pod sets (`Robin.DerivesIsPointwise` says exactly what that sees): a live Deployment with
  one more variable at the end of the list, with any value where the new one is empty, or with
  overrides the template no longer has still serves. `Robin.RemovedVariableStays` shows it for every
  list; `Robin.ServesIff` is the exact condition for an update.
- **Robin's objects can outlive the configs.** If the very first reconcile fails between the
  objects and the config and the user then asks for zero primaries, nothing removes them
  (`Premises.RobinLeftBehind`). A Redkey that comes to rest at zero leaves no Robin object if and
  only if there was a config to clean up after or the objects were gone already
  (`Runs.DrainsToZero`, and `ZeroDone` for each reconcile). Full cleanup itself is safe at every
  interruption point (`Protocol.RobinGoesBeforeItsConfigs`).
- **A config can be left without Robin.** After a full cleanup and an edit back to primaries, reads
  that still show Robin's objects find nothing to do (`Premises.ConfigWithoutRobin`). With primaries
  that is the only way: after a successful reconcile Robin is complete if and only if no read of it
  showed an object that was already gone (`Runs.RobinOutlivesItsConfigs`). At zero primaries a
  lagging list is another: if it shows an applied zero config as the newest, full cleanup deletes
  Robin and the configs listed and reports rest, although a newer config is live
  (`Premises.ConfigOutlivesCleanup`).
- **Sequence numbers restart at 1** after a full cleanup (`Premises.SequencesRestart`), and the new
  lineage can have gaps: if the first list after the cleanup is older than it and the next one shows
  the emptied store, configs 3 and 1 are created (`Premises.LineageWithGap`). Sequence claims hold
  from when a list has shown the store empty while it still was (`Protocol.LineageStaysIntact`;
  `ApiServer.List` says exactly when). `Premises.CreateAppendsIff` is the exact condition for one
  create.
- **A status can be refused, for good.** The schema bounds the recorded topology by 0 and 100000,
  which the spec's fields do not share (`Premises.StatusRefused`). `Reconcilers.RecordFitsIsExact`
  gives the exact guard, an undisturbed reconcile succeeds whenever every topology it may have to
  record is within bounds, and once one fails all do (`Runs.RefusalIsFinal`).
- **Code and documentation disagree on cleanup.** `docs/architecture.md:281` describes deleting
  terminal configs from the start of the list up to the first one that is not; the code deletes
  everything older than the newest applied config. The model follows the code.

## Model

| member | source | states |
|---|---|---|
| `Runs.AnyRun` | internal/controller/redkey_controller.go:61-164 | Whatever the operator, the user, Robin, failures and lagging reads do, the run is a legal log of the protocol, so every theorem of module Protocol holds of it; the invariant holds at its end; and in each of its states a recorded topology is that of a config which that state or an earlier one shows Applied |
| `Runs.NoLostGeneration` | internal/controller/redkey_controller.go:107-140 | After any run, a successful reconcile on the generation that is live when it ends leaves the highest-sequence config for that generation, with the value of exactly that spec for every setting a config carries, if every list since the operator first read that generation showed the newest config; whatever its list lacked, the status then is the report of the config selected from that list, with the generation read observed |
| `Runs.ScaleFromZeroLock` | api/v1beta1/redkey_types.go:189-213 | In any run, wherever an edit scales a storage cluster at rest to zero, inside a reconcile or between two, right after the reconcile that cleaned up and recorded included, in every state of the time at zero the recorded topology is the one the cluster had and admission lets exactly that positive topology back in |
| `Runs.SecondReconcileIsIdle` | internal/controller/redkey_controller.go:93-158 | After any run an undisturbed reconcile succeeds if the schema accepts every topology it may have to record; a successful one leaves the newest config for the live generation and spec if every list since that generation was first read showed the newest config, so the next edit recovers from a lost generation; if the annotations lack the revision key it converges, and after any run of revision stamps and defaulted fields on the Deployment the next one's only write is the same status with a new LastUpdatedAt |
| `Runs.DrainsToZero` | internal/controller/redkey_scale_zero.go:32-104 | After any run that leaves zero primaries, undisturbed reconciles, with Robin applying the config it is asked to, terminate with no config and a status that is Ready with 0 replicas; Robin's objects are gone if and only if there was a config to clean up after or they were gone already |
| `Runs.RankFalls` | internal/controller/redkey_scale_zero.go:42-103 | After any run, a successful reconcile at zero primaries with an up-to-date list never raises the rank, whatever happens meanwhile, as long as Robin's reports stand; it lowers it when zero is asked for and when the applied zero config is cleaned up |
| `Runs.RefusalIsFinal` | internal/controller/redkey_config.go:185-199 | After any run, if an undisturbed reconcile with primaries fails, what the active config would record is refused by the schema, every further undisturbed reconcile fails, and neither the Redkey nor the configs change |
| `Runs.RobinOutlivesItsConfigs` | internal/controller/redkey_scale_zero.go:54-103 | After any run, a successful reconcile that leaves a config leaves Deployment, ServiceAccount, Role and RoleBinding in place if and only if none of its reads showed one that was already gone, and with a list that was not up to date the same holds unless the list showed no config or Robin was deleted altogether |
| `Runs.CoveredIsLive` | internal/controller/redkey_config.go:59-110 | In every state the invariant allows, a newest config at or past the live generation is for exactly that generation and carries exactly that spec |
| `Runs.LockHolds` | api/v1beta1/redkey_types.go:248-249 | The same on any legal history whose edits are marked |
| `Protocol.EveryStateSound` | internal/controller/redkey_config.go:59-206 | In every state of every run configs are snapshots of past specs, an intact lineage has no gap, conditions and phase agree, no generation is observed that does not exist, and an ephemeral cluster records no topology |
| `Protocol.EveryStateLater` | internal/controller/redkey_config.go:147-190 | Between any two states of a run generations, specs and the observed generation only grow and a recorded topology is never cleared |
| `Protocol.ObservedGenerationMonotone` | internal/controller/redkey_config.go:147-174 | ObservedGeneration never decreases and never exceeds the live generation |
| `Protocol.RecordedTopologyNeverCleared` | internal/controller/redkey_config.go:176-190 | LastAppliedPrimaries once non-zero stays non-zero; on an ephemeral cluster it is always zero |
| `Protocol.StatusWritesFormChain` | internal/controller/redkey_config.go:159-202 | Every change of the status is a write over exactly the object it replaces: an aggregation leaves what `Conditions.Aggregated` says of it, a scaled-to-zero write what `Conditions.ShowsNothing` says, and conditions and phase agree |
| `Protocol.ConfigIsPastSpec` | internal/controller/redkey_config.go:59-110 | Every live config has, setting by setting, the values of a spec the Redkey had, at the generation the config names |
| `Protocol.SettingsNeverChange` | api/v1beta1/redkey_types.go:16-133 | Every spec of a run has storage exactly when it is not ephemeral, purges keys only when ephemeral and is within what standalone mode allows; mode, ephemeral, storage, storage class and access modes are the same in all of them |
| `Protocol.LineageHasNoGaps` | internal/controller/redkey_config.go:113-123 | While the lineage is intact, live sequence numbers form a gap-free run and every create appends directly after the newest, whatever lags and however cleanup is cut short |
| `Protocol.LineageStaysIntact` | internal/controller/redkey_config.go:113-123 | A lineage is intact, gap-free and appended to from the start, or from when a list showed the emptied store while it was still empty, until a full cleanup deletes a config |
| `Protocol.RobinGoesBeforeItsConfigs` | internal/controller/redkey_scale_zero.go:74-88 | A full cleanup deletes a config only when every Robin object is gone, and only a full cleanup empties an intact store |
| `Protocol.LockWindow` | internal/controller/redkey_config.go:176-190 | After an edit that scales a steady storage cluster to zero, the recorded topology stays the same for as long as the spec stays at zero, and the edit that leaves zero carries exactly it |
| `Protocol.WritersAgree` | internal/controller/redkey_scale_zero.go:176-206 | Whichever writer wrote last, each condition type occurs once, exactly one of Ready, ConfigPending and Error is True, and the phase is Ready, Configuring or Error accordingly; and each writer leaves what its description says |
| `Views.CreateKeepsInv` | internal/controller/redkey_config.go:113-123 | A create numbered from a list that may lag is legal and keeps the invariant: its number is taken or the very next |
| `Views.DropKeepsInv` | internal/controller/redkey_config.go:342-356 | Deleting a config listed below the newest keeps the invariant, lagging list or not |
| `Views.WipeKeepsInv` | internal/controller/redkey_scale_zero.go:152-173 | A delete of full cleanup keeps the invariant |
| `Views.StatusKeepsInv` | internal/controller/redkey_config.go:159-202 | A status write for a generation the operator has seen, aggregated from a config it listed and, if the newest one listed is applied with primaries, from that one, keeps the invariant if the newest config covers that generation |
| `Views.RecordsAppliedNext` | internal/controller/redkey_config.go:185-190 | A state whose record is the previous one, or the topology of a config seen Applied so far, keeps every record of the history one of an Applied config |
| `Views.EditKeepsInv` | api/v1beta1/redkey_types.go:16-21 | Any admitted edit, between any two calls of a reconcile, keeps the invariant |
| `Views.SoleAppliedConfigIsSteady` | api/v1beta1/redkey_types.go:189-200 | One live config, applied, recorded and for the live generation is all it takes to be steady, if every state the operator may still list has it alone or, applied, as the newest |
| `Views.NextSequence` | internal/controller/redkey_config.go:60-64 | The highest listed sequence plus one is taken or is the highest live one plus one, for every list that lags without regressing |
| `ApiServers.ApiServer.List` | internal/controller/redkey_config.go:26-40 | A list returns a state of the store that never regresses; it restores an intact lineage exactly when it shows the store empty and it has been empty since |
| `Reconcilers.RedkeyReconciler.Reconcile` | internal/controller/redkey_controller.go:61-164 | One reconcile, every call able to fail: what it achieves on the Redkey it read, with and without primaries (`NormalDone`, `ZeroDone`) |
| `Reconcilers.RedkeyReconciler.ReconcilePrimaries` | internal/controller/redkey_controller.go:93-158 | Newest config for the generation seen, that generation observed, Robin complete, and whatever became of the reconcile the record is the old one or that of the newest Applied config listed; undisturbed it converges and is idle once converged, or is stuck and stays so (`NormalDone`, `CalmDone`) |
| `Reconcilers.RedkeyReconciler.EnsureNewestConfig` | internal/controller/redkey_controller.go:107-133 | If every list showed the newest config the newest config is for the generation seen; undisturbed no config is needed afterwards, and if none was needed before nothing is written |
| `Reconcilers.RedkeyReconciler.CreateThenList` | internal/controller/redkey_controller.go:120-132 | A create numbered from a list that shows the newest config leaves one for the generation seen; the new list is sorted and complete |
| `Reconcilers.RedkeyReconciler.ReconcileConfigs` | internal/controller/redkey_controller.go:107-150 | From the first list to the status write, with the empty second list of a lagging cache as a success that publishes nothing |
| `Reconcilers.RedkeyReconciler.PublishStatus` | internal/controller/redkey_controller.go:135-150 | Cleanup then aggregation keep the newest config covering the generation and mark it observed; on success the status is the report of the config selected from the list; success or not, the recorded topology is the old one or, on a storage cluster, that of the newest Applied config listed; undisturbed they succeed if and only if the schema accepts the active config's topology; repeated, they only move the time stamp, or fail again and change nothing |
| `Reconcilers.RedkeyReconciler.ListConfigs` | internal/controller/redkey_config.go:26-40 | The listed configs in order of sequence, all of them and no others, from a state of the store that never regresses |
| `Reconcilers.RedkeyReconciler.CreateNewConfig` | internal/controller/redkey_config.go:59-135 | Either a config for the generation read, unreported and with every setting of the Redkey read, is added under the next sequence or nothing changes; success means that sequence exists |
| `Reconcilers.RedkeyReconciler.CleanupSupersededConfigs` | internal/controller/redkey_config.go:324-356 | For every pattern of delete results nothing at or above the newest Applied config goes; without an error everything listed below it is gone and the survivors are that suffix; after an error at some config everything listed before it is gone and everything after it untouched |
| `Reconcilers.RedkeyReconciler.AggregateStatus` | internal/controller/redkey_config.go:140-206 | Success means the live Redkey mirrors the active config: its status, substatus and nodes, the live primaries as replicas, conditions and phase by how far Robin has got, the generation this reconcile started from observed, other conditions untouched, and the topology recorded exactly if it is applied, positive and on a storage cluster; only a conflict is retried, at most five rounds are made and they end with the first other reply; undisturbed it succeeds if and only if the topology to record is within 0 and 100000 |
| `Reconcilers.RedkeyReconciler.TryAggregate` | internal/controller/redkey_config.go:159-200 | One round of refresh and write: the active config mirrored over exactly the status it replaced, a conflict that changed nothing, or a failure |
| `Reconcilers.RedkeyReconciler.WriteAggregate` | internal/controller/redkey_config.go:166-200 | The write of a round, over the Redkey just read |
| `Reconcilers.RedkeyReconciler.UpdateStatusScaledToZero` | internal/controller/redkey_scale_zero.go:176-206 | Success means the live Redkey shows zero replicas, phase Ready, no nodes and its generation observed |
| `Reconcilers.RedkeyReconciler.ReconcileScaleToZero` | internal/controller/redkey_scale_zero.go:32-104 | Progress on the configs listed; once none is left an honest status, with Robin gone if and only if there was a config or it was gone before; while any is left Robin complete if and only if no read showed an object that was gone; whatever the list lacked, success leaves Robin complete with that same exception, or gone, or, if nothing was listed, untouched; whatever became of it, the record is the old one or that of the active config of the uncleaned list; undisturbed a rank that falls except while Robin works |
| `Reconcilers.RedkeyReconciler.ReconcileLatest` | internal/controller/redkey_scale_zero.go:50-103 | Cases B, C and D by the newest config listed: the same guarantees from the moment of the list |
| `Reconcilers.RedkeyReconciler.CleanUpAfterZero` | internal/controller/redkey_scale_zero.go:70-90 | Success means every Robin object is gone and the status shows zero, and no config is left if the list was up to date |
| `Reconcilers.RedkeyReconciler.AskForZero` | internal/controller/redkey_scale_zero.go:54-68 | Case B: Robin is complete if and only if no read showed an object that was gone, whatever the list lacked, and the next config asks for zero, which lowers the rank |
| `Reconcilers.RedkeyReconciler.AwaitZero` | internal/controller/redkey_scale_zero.go:91-103 | Case D: Robin is complete if and only if no read showed an object that was gone, whatever the list lacked, the configs stay, and on success the status is the report of the active config of the list as it is, the oldest unless one is in progress; the record is the old one or that config's; undisturbed it succeeds if and only if the schema accepts what it would record |
| `Reconcilers.RedkeyReconciler.KeepRobin` | internal/controller/redkey_controller.go:93-105 | After success Robin is complete if and only if no read showed an object that was already gone; undisturbed and without the revision key settled; if it was settled nothing is written |
| `Reconcilers.RedkeyReconciler.DeleteRobinDeployment` | internal/controller/redkey_scale_zero.go:107-125 | Success, also when it was not there, means the Deployment is gone; the RBAC objects are not touched |
| `Reconcilers.RedkeyReconciler.DeleteRBAC` | internal/controller/redkey_scale_zero.go:128-149 | Success means none of the three objects is left; the Deployment is not touched |
| `Reconcilers.RedkeyReconciler.DeleteAllConfigs` | internal/controller/redkey_scale_zero.go:152-173 | Robin stays gone throughout; success with an up-to-date list means no config is left |
| `Reconcilers.RedkeyReconciler.EnsureRBAC` | internal/controller/redkey_robin.go:117-254 | After success all three objects exist if and only if no read showed one that was already gone; undisturbed, each is as the Redkey asks (`Robin.RbacServes`), and if all were nothing is written |
| `Reconcilers.RedkeyReconciler.EnsureRbacObject` | internal/controller/redkey_robin.go:117-254 | Get, then create, recreate, patch or leave one object: after success it exists if and only if the read did not show it when it was already gone; undisturbed it has the labels and annotations asked for, the Role its rules, the RoleBinding Robin's account and Role; the other objects keep existing or not as before; one that is so already is not written |
| `Reconcilers.RedkeyReconciler.RecreateRbacObject` | internal/controller/redkey_robin.go:230-242 | Delete and create a RoleBinding whose RoleRef drifted: success means it exists, undisturbed it is the desired one |
| `Reconcilers.RedkeyReconciler.EnsureRobinDeployment` | internal/controller/redkey_robin.go:257-298 | After success the Deployment exists if and only if the read did not show it when it was already gone; undisturbed, one that was missing or did not serve is made exactly as the Redkey asks, keeping a revision stamp, one that serves is left alone, and without the revision key it serves: one replica, labels, template metadata, image and environment as asked |
| `Reconcilers.RedkeyReconciler.BuildDesiredRobinDeployment` | internal/controller/redkey_robin.go:301-440 | For every Redkey: one replica; the container's environment starts with the two defaults unchanged, has no name twice and every other name with its last user entry; the template's image if it names one; pod labels and annotations from the template block if it has any, else from the spec, under the operator's own labels |
| `Reconcilers.FallbackHidesNothing` | internal/controller/redkey_config.go:43-56 | If every list showed the newest config, skipping creation because the generation was observed never hides one: the newest config is for it |
| `Reconcilers.RecordFitsIsExact` | api/v1beta1/redkey_types.go:204-213 | The schema accepts an aggregated status if and only if nothing is recorded or the recorded topology is within bounds |
| `Reconcilers.RecordIsNewestApplied` | internal/controller/redkey_config.go:185-222 | For every list, a topology recorded from the config selected after cleanup is that of the highest-sequence Applied config of the list |
| `Reconcilers.SelectionMayTake` | internal/controller/redkey_config.go:212-222 | For every list, if its newest config is applied with primaries, cleanup then selection take that one |
| `Reconcilers.ZeroMayTake` | internal/controller/redkey_scale_zero.go:91-103 | Without cleanup, a list whose newest config asks for zero has no such config, so any choice keeps the invariant |
| `Reconcilers.RankNeverRises` | internal/controller/redkey_scale_zero.go:42-103 | The step behind it, for any configs, any list of them and any outcome: the rank never rises and falls in cases B and C |
| `Reconcilers.SurvivorsAreListed` | internal/controller/redkey_config.go:324-356 | What cleanup returns is exactly a sorted list of what it left in the store |
| `Selection.SortBySequence` | internal/controller/redkey_config.go:35-39 | From any order, exactly the configs of the store in order of sequence |
| `Selection.NeedsNewConfigMeaning` | internal/controller/redkey_config.go:43-56 | Through the annotation text the decision is: neither observed nor the newest config's generation has reached the live one |
| `Selection.FindLastApplied` | internal/controller/redkey_config.go:329-337 | The backward scan finds the newest applied config, or none |
| `Selection.SelectActiveConfig` | internal/controller/redkey_config.go:212-222 | The first config in progress, else the first |
| `Selection.CleanupThenSelect` | internal/controller/redkey_config.go:212-222 | After an error-free cleanup the active config is the first in progress newer than the newest applied, else the newest applied, else the oldest; an applied one is the newest applied |
| `Selection.SurvivorsSettle` | internal/controller/redkey_config.go:324-356 | A second cleanup keeps everything |
| `Conditions.AggregateConditions` | internal/controller/redkey_config.go:224-246 | The in-place updates amount to setting the nine target conditions |
| `Conditions.AggregateHealthConditions` | internal/controller/redkey_config.go:264-286 | The loop over the health types amounts to setting the six health targets |
| `Conditions.SetAllEffect` | internal/controller/redkey_config.go:224-286 | A batch of updates puts every target in force, leaves other types in place, never duplicates a type, and moves a transition time exactly with its status |
| `Conditions.AggregationIdempotent` | internal/controller/redkey_config.go:224-286 | Aggregating again at any later time changes nothing |
| `Conditions.AggregationTells` | internal/controller/redkey_config.go:224-286 | Afterwards Ready is True exactly if the config is Applied or Superseded without an error, Error exactly if it is with one, ConfigPending exactly if it is neither; health conditions as below; foreign conditions and transition times untouched |
| `Conditions.TargetsTell` | internal/controller/redkey_config.go:224-286 | Putting the nine target conditions in force is the same as the conditions telling about the config |
| `Conditions.HealthIsCopiedOrUnknown` | internal/controller/redkey_config.go:264-286 | A health condition is a faithful copy from a config that is Applied or Superseded and Ready, or Unknown with reason Reconciling |
| `Conditions.AggregationAgrees` | internal/controller/redkey_config.go:288-320 | After aggregation exactly one of Ready, ConfigPending and Error is True and the phase is Ready, Configuring or Error accordingly |
| `Conditions.ScaledToZeroAgrees` | internal/controller/redkey_scale_zero.go:176-206 | The same after the scaled-to-zero write |
| `Conditions.ScaledToZeroShows` | internal/controller/redkey_scale_zero.go:176-206 | Replicas, status, substatus and nodes empty, phase Ready, the three lifecycle conditions with reason ScaledToZero, every other condition and the record kept |
| `Conditions.AggregationMirrors` | internal/controller/redkey_config.go:159-202 | The status aggregation computes mirrors the active config over the status it replaces (`Aggregated`) |
| `Conditions.MirroredStays` | internal/controller/redkey_config.go:159-202 | Over a status that mirrors the active config, whatever fits that description moves nothing but LastUpdatedAt |
| `Conditions.AggregatedStatusIdempotent` | internal/controller/redkey_config.go:159-202 | Writing the aggregated status again only moves LastUpdatedAt |
| `Admission.LockIsExact` | api/v1beta1/redkey_types.go:16-249 | An edit is admitted if and only if its spec is well-formed and keeps the five fixed settings, and it does not bring a storage cluster from zero to primaries, or a status has been written and it carries the recorded topology if there is one |
| `Protocol.RecordedIsWritten` | api/v1beta1/redkey_types.go:248-249 | In every sound state a recorded topology comes with a written status, so the lock rules can be evaluated |
| `Identity.FormatParseRoundTrip` | internal/controller/redkey_config.go:46-48 | A generation written as text parses back, exactly on the range of int64 |
| `Identity.ConfigNameInjective` | internal/controller/redkey_config.go:68-69 | Two clusters or sequences never share a config name |
| `Identity.SnapshotTellsApart` | internal/controller/redkey_config.go:78-103 | Configs with one sequence are equal if and only if the specs they carry differ at most in Robin's own settings and the access modes |
| `Identity.ConfigIdentity` | internal/controller/redkey_config.go:68-77 | Whatever labels and annotations the user sets, they are on the config under the operator's own, it is listed for its own cluster only and its annotation parses to its generation |
| `Robin.MergeEnvVars` | internal/controller/redkey_robin.go:529-546 | The loop with its index map computes the specified merge |
| `Robin.RobinEnvironment` | internal/controller/redkey_robin.go:371-385 | For every user list merging it over the defaults and the defaults over that gives the two defaults unchanged, then every other name once with its last user entry, in order of first appearance |
| `Robin.DesiredIsDescribed` | internal/controller/redkey_robin.go:301-440 | The desired Deployment is described entry by entry: metadata, account, image, environment |
| `Robin.DerivesIsPointwise` | internal/controller/redkey_robin.go:509-511 | The comparison holds if and only if along every path of the desired pod whatever is set there is the same in the live one |
| `Robin.DriftIsExact` | internal/controller/redkey_robin.go:482-514 | No update is needed if and only if the desired annotations lack the revision key and the live Deployment is what Kubernetes may have made of the desired one |
| `Robin.ServesIff` | internal/controller/redkey_robin.go:482-514 | In terms of the Redkey: no update is needed if and only if the live Deployment has the replicas, metadata, account, image and environment asked for |
| `Robin.PatchIsExact` | internal/controller/redkey_robin.go:281-292 | A patch makes everything as asked and keeps a revision stamp |
| `Robin.RemovedVariableStays` | internal/controller/redkey_robin.go:509-511 | For every template and every variable at the end of its list, a Deployment made with it serves the list without it |
| `Robin.RbacServesIff` | internal/controller/redkey_robin.go:117-254 | Neither a patch nor a recreation is needed if and only if the object is as the Redkey asks |
| `Robin.NoDriftFight` | internal/controller/redkey_robin.go:445-514 | After a patch no run of revision stamps and defaulted fields asks for another patch, if and only if the user's annotations lack the revision key |
| `Robin.NoDriftAfterCreate` | internal/controller/redkey_robin.go:482-514 | The same after a create |
| `Robin.SettledStaysSettled` | internal/controller/redkey_robin.go:445-514 | A Deployment that serves its Redkey still does after any run of revision stamps and defaulted fields |
| `Premises.CreateLandsIffListShowsNewest` | internal/controller/redkey_config.go:113-123 | For any store whose newest config is for an older generation, a create numbered from a list brings one for the live generation if and only if the list's highest sequence is not below the store's |
| `Premises.LaggingListLosesGeneration` | internal/controller/redkey_config.go:118-121 | Whenever the list lacks the newest config and no config is for the live generation yet, that generation ends up observed without a config, and whatever a list shows the decision is that none is needed |
| `Premises.ObservedIsNeverAskedFor` | internal/controller/redkey_config.go:43-56 | In every later state of the run with that generation, and for every newest config listed, the decision stays that none is needed |
| `Premises.LaggingStateExists` | internal/controller/redkey_config.go:118-121 | A run that gets there |
| `Premises.CreateAppendsIff` | internal/controller/redkey_config.go:60-64 | For any list and store, a create appends if and only if the store is empty or the list shows its highest sequence number |
| `Premises.ReturnFromZero` | api/v1beta1/redkey_types.go:248-249 | Whatever state it was scaled down from, and after any run, a storage cluster with a record is let back to its topology if and only if that is the recorded one; if nothing was recorded meanwhile, if and only if it was recorded before |
| `Premises.RestIsReached` | internal/controller/redkey_config.go:176-190 | A run that brings a storage cluster to rest and then edits it to zero, so the lock result is about something |
| `Premises.RestAfterCleanup` | internal/controller/redkey_config.go:324-356 | A run in which a reconcile lists both configs of a change of topology, deletes the older and records the newer, and the edit to zero comes before the next list: at rest although that list shows two topologies |
| `Premises.LockedOutOfItsTopology` | internal/controller/redkey_config.go:176-190 | A run in which the newer topology is Applied and alone in the store but not recorded: the state before the edit to zero is steady but for the record, and after it the cluster's own topology is refused and the older one admitted |
| `Premises.LockedOutWithoutFault` | internal/controller/redkey_scale_zero.go:91-103 | A run without failure or lag in which case D records the oldest of two Applied configs, and the newer topology is refused afterwards |
| `Premises.StatusRefused` | api/v1beta1/redkey_types.go:204-213 | A run of an admitted storage spec with 200000 primaries that ends stuck |
| `Premises.SequencesRestart` | internal/controller/redkey_config.go:60-64 | A run that creates sequence number 1 twice, before and after a full cleanup |
| `Premises.LineageWithGap` | internal/controller/redkey_controller.go:114-127 | A run in which the first list after a full cleanup is older than it and the next shows the emptied store: configs 3 and 1 are created, a gap with no deletion since the store was empty |
| `Premises.RobinLeftBehind` | internal/controller/redkey_scale_zero.go:42-52 | A run that ends at zero with no config, a status at rest and every Robin object left; `Runs.DrainsToZero` gives the exact condition |
| `Premises.ConfigWithoutRobin` | internal/controller/redkey_robin.go:257-298 | A run in which reads still show the Robin objects a full cleanup deleted: nothing is created for Robin, and a config is created and published |
| `Premises.ConfigOutlivesCleanup` | internal/controller/redkey_scale_zero.go:70-90 | A run in which a list lags by one config and case C runs on the older zero config: Robin is gone and the status shows zero while a config with primaries is live |
| `Metrics.Replay` | internal/controller/metrics.go:130-232 | For every interleaved history the tracker and the gauge name exactly the operations going on, the counters are the numbers of completed maximal blocks by result, the samples are the entries into Ready, and starts are the counters plus the forgotten plus the tracker's entries |
| `Metrics.OperationsConserved` | internal/controller/metrics.go:201-232 | Started operations are the completed ones of each result, the forgotten ones and those going on |
| `Metrics.TrackerCountsOngoing` | internal/controller/metrics.go:193-199 | The blocks going on and the tracker's entries for an operation are equally many |
| `Metrics.LastDecides` | internal/controller/metrics.go:201-206 | A Redkey is in an operation exactly when its last observation says so |
| `Metrics.OperatorMetrics.Observe` | internal/controller/metrics.go:201-226 | One observation moves tracker and counters to the extended history |
| `Metrics.OperatorMetrics.Forget` | internal/controller/metrics.go:228-232 | Forgetting a Redkey moves the tracker to the history with its deletion and counts nothing |
| `Metrics.OperatorMetrics.RecordRedkeyMetrics` | internal/controller/metrics.go:130-169 | Recording extends the history and keeps tracker, gauge, counters and readiness in step with it |
| `Metrics.OperatorMetrics.DeleteRedkeyMetrics` | internal/controller/metrics.go:172-179 | So does forgetting a deleted Redkey |
| `Disruptors.Play` | test/chaos/helpers_test.go:227-321 | For every schedule the budget is never negative, actions and budget stay within 5 per arm, from arm to arm spent plus left is 5, after a pause only a deletion already under way is still counted, deletions that skip the gate are at most as many as arm signals, and the others at most as many as checks that found it open |
| `Disruptors.BudgetHolds` | test/chaos/helpers_test.go:251-277 | The budget invariant after any number of steps |
| `Disruptors.GrantIsSpentOrLeft` | test/chaos/helpers_test.go:291-302 | From one arm to the next spent and left add up to the grant |
| `Disruptors.PauseStopsAllButOne` | test/chaos/helpers_test.go:304-308 | After a pause and before the next arm at most the action under way is counted |
| `Disruptors.HitsAreAccountedFor` | test/chaos/helpers_test.go:227-277 | Every counted deletion is either paid for by one arm signal or found the gate open |
| `Disruptors.OnArmHitSkipsGate` | test/chaos/helpers_test.go:236-265 | The turn that takes an arm's trigger goes on to delete whether or not the gate is open; a turn of the timer does if and only if it is |
| `Disruptors.ArmStands` | test/chaos/helpers_test.go:291-302 | An arm lasts until the next pause and its signal until a turn takes it, whatever else happens |

## Left out

- Deletion of the Redkey itself, owner references and garbage collection: the model follows one live Redkey.
- Deletions of configs or Robin objects by anybody but the operator: the run theorems assume there are none.
- Robin's own work (slot migration, upgrades): Robin is any writer of config status.
- Resource versions of Robin's objects: a patch is modelled as replacing the object by its patched read.
- `DesiredRobinRules` as a table, the container's arguments, ports and resources, and the template's overrides: constants and opaque trees.
- Metric histograms, durations, the phase state sets and the error, creation and change counters: one-line bookkeeping.
- Interleaving of metric calls for different Redkeys inside one call: each call is one step, as its locks make it for the maps it guards.
- `cmd/main.go`, generated deep copies, and the remaining test frameworks.
- Liveness of the work queue: that a reconcile happens again after an error is not modelled.
- The disruptor's `stop`, its timer jitter and pod selection.
