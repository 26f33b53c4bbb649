# Verification of a MongoDB operator's core

A Dafny model of the parts of a Kubernetes operator for MongoDB whose correctness is not
visible from one function body, with proofs over every run, every input or every interleaving.
`dafny verify dfyconfig.toml` checks all of it.

* **BootstrapLease**: the compare-and-swap lease with expiry that keeps controller loops from
  creating the admin user at the same time, as interleaved API calls with stale reads.
* **Upgrade**, **UpgradePasses**, **UpgradeGenerations**, **UpgradeFcv**, **UpgradeTermination**,
  **UpgradeStale**, **UpgradeWebhook**, **UpgradeController**: the upgrade state machine of the
  replica-set and the sharded controller (`Kind` marks where the two files part), under arbitrary
  spec edits and failing calls. `UpgradeController` holds the handlers as code that updates the
  resource in place, each proved to make the specified move.
* **ShardLifecycle**, **ShardScaling**: initialising, adding, draining, removing and re-adding
  shards against an abstract balancer.
* **CollectionSharding**, **Namespaces**: declarative collection sharding against `config.collections`.
* **VersionText**, **VersionPath**, **SupportedList**: version strings, and the upgrade-path check
  of both API versions with the supported list as a parameter.
* **ReplicaSetConfig**, **Hosts**: editing the member list in place; host names and seed lists.
* **Insights**: the slow-query grouping engine. **Text**, **StringOrder**, **Permutations**,
  **Options** are shared helpers.

State machines are written as `Apply` and `Run` over events, so that the calls of one pass
interleave with edits, failures and other actors; the code that updates fields or arrays is
imperative and is tied to those functions by its `ensures`.

Where a promised property turned out not to hold of the code, the model keeps the code, gives
the failing input and states exactly when the property does hold:

* The comment at `internal/controller/bootstrap_lease.go:36-48` expects the lease to serialise
  the loops of one process too. Their identity is host and process id, so they share it, and a
  loop takes over its own lease: `ExclusiveIffIdentitiesDistinct`.
* A lost status write after SetFCV leaves the FCV ahead of the recorded version:
  `FcvTracksVersionIff`. Rollbacks stay safe unless the spec is edited back behind the FCV
  (`RollbackMatchesFcv`, `RevertedStateIsUnsafe`), which the webhook rules out
  (`WebhookKeepsRollbacksSafe`).
* Not every edit gets its rollout: one that lands during a rollout, or before a terminal status
  write, never does (`EditDuringRolloutIsSwallowed`, `EditDuringTerminalWriteIsSwallowed`), and one
  that lands during the backup may see the old target deployed (`EditDuringBackupDeploysOld`).
  `CanRollOutIffOpen` and `EditRollsOutIff` say exactly when a rollout is still possible. An edit
  during a rollout can also certify a version that was never deployed
  (`OnTargetIffNeverRetargeted`, `RetargetedCompletion`).
* One rollout per generation fails on stale reads (`StaleReadRollsOutTwice`): exactly on those
  copies that `StaleReopensIff` describes, and in no run without one (`OnceUnlessReopened`).
* A drain that removes one shard and waits for the next forgets to clear the first one's flags
  (`PartialDrainOrphans`, `OrphanStaysOut`; exactly when: `DrainForgetsIff`), and the scale-in
  then never finishes while the count stays as declared (`PartialDrainSticks`, `StuckForGood`,
  `ScaleInByTwoSticks`). A shard removed that way has its initialized flag without a replica set:
  `FlaggedIsInitiatedUnlessRemoved` says exactly which flags lie, `HollowStaysOut` that they stay.
* The v1beta1 path check is not the v1alpha1 one on unsorted lists (`AgreeIffOrderedEnough`).

One more thing a reader of the code may not expect: a sharded validation judges the readiness
counters recorded before the upgrade began (`ValidationReadsOldCounters`).

## Model

| member | source | states |
|---|---|---|
| `BootstrapLease.MutualExclusion` | internal/controller/bootstrap_lease.go:64-134 | in every interleaving of Get, Create, Update, Delete, crashes and lost responses, with reads of any lease ever stored, distinct loops are never in the section together and the one inside owns the stored lease, if each leaves within 30 s of its stamp |
| `BootstrapLease.StepKeepsInv` | internal/controller/bootstrap_lease.go:64-134 | each single protocol step keeps "versions identify leases, cleared takeovers are unblocked, holders own the lease" |
| `BootstrapLease.TakeoverFindsNoHolder` | internal/controller/bootstrap_lease.go:102-123 | while one loop holds the lease, no other loop's cleared takeover can still match its resource version |
| `BootstrapLease.OwnersAreUnique` | internal/controller/bootstrap_lease.go:114-123 | two owners of the stored lease are the same loop |
| `BootstrapLease.ExclusiveIffIdentitiesDistinct` | internal/controller/bootstrap_lease.go:40-48 | all timely runs are exclusive if and only if no two loops share a holder identity |
| `BootstrapLease.SharedIdentityBreaksExclusion` | internal/controller/bootstrap_lease.go:40-48 | two loops with the same host-pid identity can both be inside, well within 30 s |
| `BootstrapLease.OverstayBreaksExclusion` | internal/controller/bootstrap_lease.go:26-29 | a holder still inside 30 s after its stamp can meet its successor: the bound is tight |
| `BootstrapLease.AcquireBootstrapLease` | internal/controller/bootstrap_lease.go:64-127 | acquires exactly when the lease is absent, or unblocked and unchanged since it was read; then all four fields carry this loop's stamp, otherwise the store is untouched |
| `BootstrapLease.AcquireIsARun` | internal/controller/bootstrap_lease.go:64-127 | the sequential code and the interleaved steps give the same verdict and the same stored lease |
| `BootstrapLease.ReleaseFrees` | internal/controller/bootstrap_lease.go:129-134 | right after the holder leaves, another loop finds no lease and gets in at once |
| `BootstrapLease.LiveLeaseBlocks` | internal/controller/bootstrap_lease.go:102-112 | whoever reads a live lease of another loop is told busy and changes nothing |
| `BootstrapLease.LeaseStore.ReleaseBootstrapLease` | internal/controller/bootstrap_lease.go:129-134 | the delete leaves no lease; a failed one changes nothing |
| `VersionText.SplitVersionLoop` | api/v1alpha1/common_types.go:746-761 | the character loop is strings.Split with an empty last piece dropped |
| `VersionText.Atoi` | api/v1alpha1/common_types.go:763-775 | accepts exactly the non-empty digit strings and returns their value modulo 64-bit wrap-around |
| `VersionText.ParseMongoVersion` | api/v1alpha1/common_types.go:729-740 | both numbers of a readable version, or the failure |
| `VersionText.ParseFormat` | api/v1alpha1/common_types.go:729-744 | parsing a formatted pair gives the pair back, for all numbers a Go int holds |
| `VersionText.FcvIsFormattedParse` | internal/controller/upgrade.go:419-425 | on the CRD pattern the FCV text equals the reformatted parse if and only if both numbers are canonical |
| `VersionText.LeadingZeroSplitsFcvFromParse` | internal/controller/upgrade.go:419-425 | "08.2" parses as 8.2 but keeps the FCV text "08.2" |
| `VersionPath.SupportedMinors` | api/v1alpha1/common_types.go:717-726 | collects the minors of a major, sorted or in declaration order |
| `VersionPath.MajorStepLoop` | api/v1alpha1/common_types.go:696-714 | the verdict on a change of major, with the versions its error names |
| `VersionPath.MinorStepLoop` | api/v1alpha1/common_types.go:671-688 | the index scan is left with the last occurrences and judges their distance |
| `VersionPath.IsValidUpgradePath` | api/v1alpha1/common_types.go:632-689 | the code returns the verdict of the specification, for either API version and any supported list |
| `VersionPath.AllowedIff` | api/v1alpha1/common_types.go:632-714 | an edit is accepted if and only if it is no edit, or both versions are supported and the second is the same or the very next supported one |
| `VersionPath.DecideIff` | api/v1alpha1/common_types.go:650-714 | the same on parsed versions: "sorted neighbours" and "nothing supported in between" coincide |
| `VersionPath.MajorStepIff` | api/v1alpha1/common_types.go:696-714 | a major step is accepted exactly from the last minor of a major to the first of the next |
| `VersionPath.EditsVisitInOrder` | api/v1alpha1/common_types.go:632-726 | along any accepted sequence of edits major.minor never goes down and every supported version in between is visited |
| `VersionPath.PermutationInvariant` | api/v1alpha1/common_types.go:660-689 | the verdict, error details included, is the same for every permutation of the supported list |
| `VersionPath.AgreeIffOrderedEnough` | api/v1beta1/common_types.go:658-684 | v1beta1 agrees with v1alpha1 on all edits if and only if each major has at most two minors or lists them ascending |
| `VersionPath.RefusalCauses` | api/v1alpha1/common_types.go:650-714 | each refusal of a step between listed versions has its exact cause: major change, major step, downgrade, minor skip |
| `VersionPath.CheckCauses` | api/v1alpha1/common_types.go:632-648 | the first unsupported version is the one complained about, then an unreadable one, then the step |
| `VersionPath.SkipNamesNext` | api/v1alpha1/common_types.go:684-686 | the version a minor skip names is listed and comes right after the present one |
| `VersionPath.SkipIsAvoidable` | api/v1alpha1/common_types.go:684-686 | on a list without duplicates it lies strictly between the two, and the edit to it is accepted |
| `VersionPath.MajorStepNamesEnds` | api/v1alpha1/common_types.go:708-712 | the versions a refused major step names are the last of the one major and the first of the next |
| `VersionPath.SupportedMeans` | api/v1alpha1/common_types.go:57-64 | a version is supported if and only if its first two pieces, both non-empty, make a listed entry |
| `VersionPath.NotInSequenceIff` | api/v1alpha1/common_types.go:671-683 | the scan reports a version out of sequence if and only if it has not seen one of the two |
| `SupportedList.ClimbingListFits` | api/v1alpha1/common_types.go:34-43 | a supported list in ascending order has no duplicates, and both API versions agree on it |
| `SupportedList.NeighboursAccepted` | api/v1alpha1/common_types.go:632-714 | on such a list the edit to the next version is accepted unless it skips a major |
| `SupportedList.ShippedListFits` | api/v1alpha1/common_types.go:38-43 | the shipped list 8.0, 8.2, 8.3, 9.0 is such a list |
| `SupportedList.ShippedSteps` | api/v1alpha1/common_types.go:38-43 | each shipped version can be upgraded to the next one |
| `Upgrade.StepMovesForward` | internal/controller/upgrade.go:40-132 | every event keeps the invariant and within a generation never moves the phase back |
| `Upgrade.PlanIsDue` | internal/controller/upgrade.go:83-132 | which phase, verdict and strategy each move of a pass presupposes |
| `Upgrade.AtMostOnePerGeneration` | internal/controller/upgrade.go:83-132 | in every run of either controller whose passes read the newest object, each generation enters Upgrading at most once and RollingBack at most once |
| `UpgradeGenerations.CanRollOutIffOpen` | internal/controller/upgrade.go:69-132 | some continuation enters Upgrading at the current generation, with any version or with its own, if and only if the phase, the recorded generation and the versions leave it open; also for states only stale writes reach |
| `UpgradeGenerations.EditRollsOutIff` | internal/controller/upgrade.go:83-132 | an edit can ever have its own version rolled out if and only if it lands before the rollout and names another version than the recorded one |
| `UpgradeGenerations.EditDuringBackupDeploysOld` | internal/controller/upgrade.go:94-119 | after an edit during the backup, a completed backup of the new version lets the old target roll out |
| `UpgradeGenerations.EditDuringTerminalWriteIsSwallowed` | internal/controller/upgrade.go:236-236 | an edit landing before a terminal status write is booked as tried: no continuation rolls anything out at its generation |
| `UpgradeGenerations.EditDuringRolloutIsSwallowed` | internal/controller/upgrade.go:121-129 | nor for an edit landing at any time in Upgrading, Validating or RollingBack |
| `Upgrade.OnTargetIffNeverRetargeted` | internal/controller/upgrade.go:94-119 | what is validated is what is deployed, throughout a run, if and only if no edit changes the version while a phase is active |
| `Upgrade.RetargetedCompletion` | internal/controller/upgrade.go:216-245 | a retargeted rollout that completes records a version no workload was built from |
| `Upgrade.NoRolloutBeforeBackup` | internal/controller/upgrade.go:134-188 | at a fixed generation, over any number of backup failures, no workload is applied before the target's own backup is Completed |
| `UpgradePasses.ValidationIsCautious` | internal/controller/upgrade.go:190-267 | for both kinds, whatever fails: FCV and version change only after the interval with everything deployed, a rollback or giving up only when stuck or after interval plus 180 s per member |
| `UpgradePasses.ValidationPass` | internal/controller/sharded_upgrade.go:174-261 | under successful calls these conditions also suffice, and otherwise nothing changes; a stuck rollout fails at once |
| `UpgradePasses.CompletingPass` | internal/controller/upgrade.go:216-245 | a passed validation raises the FCV unless recorded and leaves exactly the completed status |
| `UpgradePasses.BeginningPass` | internal/controller/upgrade.go:94-119 | an untried generation records where to go back to, the target and the time, and applies nothing yet |
| `UpgradePasses.BackupPass` | internal/controller/upgrade.go:134-188 | a missing backup is created, a running one waited for, a completed one leads to the rollout, a broken one back |
| `UpgradePasses.RolloutPass` | internal/controller/mongodb_controller.go:166-194 | the rollout applies the target; validation starts its clock anew for a replica set and keeps it for a sharded cluster |
| `UpgradePasses.RollbackPass` | internal/controller/upgrade.go:336-393 | the previous version becomes effective, one more try is counted and the generation recorded |
| `UpgradePasses.TriedPass` | internal/controller/upgrade.go:83-92 | a tried generation keeps running what it ended on |
| `UpgradePasses.SettledPass` | internal/controller/upgrade.go:69-81 | on the recorded version a leftover phase is cleared and the workload applied |
| `UpgradePasses.SeedingPass` | internal/controller/upgrade.go:42-65 | blank versions, and only those, are filled in first; a failed seed ends the pass |
| `UpgradePasses.StepEnds` | internal/controller/upgrade.go:94-188 | with an upgrade wanted, the step returns an error exactly when a status write or the backup fails, and lets the pass go on exactly when the rollout is under way or the generation was tried |
| `UpgradePasses.SettledStepEnds` | internal/controller/upgrade.go:69-81 | on the recorded version the pass goes on unless a leftover phase cannot be cleared |
| `UpgradePasses.RollbackLeadsBack` | internal/controller/sharded_upgrade.go:296-312 | in every run of either controller an active phase has a start time and goes back to the recorded version |
| `UpgradeStale.CurrentCopyIsAPass` | internal/controller/upgrade.go:40-132 | on a copy that is current, a stale pass does what a pass does |
| `UpgradeStale.StaleBeginTakes` | internal/controller/upgrade.go:94-119 | a stale beginning takes target and previous version from its copy and leaves the recorded version and generation alone |
| `UpgradeStale.StaleRollbackTakes` | internal/controller/sharded_upgrade.go:296-312 | a stale rollback goes where the copy says for a sharded cluster, where the object says for a replica set |
| `UpgradeStale.OncePerGenerationOnStaleReads` | internal/controller/sharded_upgrade.go:61-109 | the same with passes on outdated copies whose status writes conflict and are re-applied, as long as each copy is current in generation, phase, recorded version and recorded generation |
| `UpgradeStale.StaleReadRollsOutTwice` | internal/controller/upgrade.go:94-119 | a copy two writes old makes one generation roll out twice |
| `UpgradeStale.StaleReopensIff` | internal/controller/upgrade.go:83-132 | with a given stale pass some continuation rolls a generation out again if and only if the copy still shows a rollout to start, a completed backup to go on from, or a phase to clear, under the stated conditions on the newest object |
| `UpgradeStale.OnceUnlessReopened` | internal/controller/sharded_upgrade.go:61-109 | in every run with copies of any age each generation rolls out at most once, as long as no stale pass meets that condition at a generation through with its rollout |
| `UpgradeWebhook.WebhookKeepsRollbacksSafe` | internal/webhook/v1alpha1/mongodbsharded_webhook.go:41-57 | if every edit passes the webhook, on a list without duplicates, every rollback of a sharded run lands on a binary of the committed FCV, lost status writes included |
| `UpgradeWebhook.OrderedStep` | internal/webhook/v1alpha1/mongodbsharded_webhook.go:41-57 | every event keeps the order recorded version, committed FCV, spec version along the upgrade path |
| `UpgradeWebhook.OrderedIsNotReverted` | internal/controller/sharded_upgrade.go:263-321 | in that order no edit can have gone back behind the committed FCV |
| `UpgradeWebhook.SameParseSameFcv` | internal/controller/upgrade.go:419-425 | supported versions parse alike if and only if they have the same FCV text |
| `UpgradeWebhook.FreshIsOrdered` | internal/webhook/v1alpha1/mongodbsharded_webhook.go:34-39 | a new cluster on a supported version starts in that order |
| `UpgradeWebhook.AscendingListIsAdmitted` | internal/webhook/v1alpha1/mongodbsharded_webhook.go:41-57 | on an ascending list the hypotheses are met: a new cluster is in order and the edit to the next version passes the webhook |
| `UpgradeFcv.NoLostCommitNeverReverts` | internal/controller/sharded_upgrade.go:207-225 | without lost status writes no edit goes back behind the committed FCV |
| `UpgradeFcv.FcvStepIff` | internal/controller/sharded_upgrade.go:203-229 | an event keeps the FCV invariant if and only if it does not lose the status write after raising the FCV |
| `UpgradeFcv.FcvTracksVersionIff` | internal/controller/sharded_upgrade.go:20-109 | in a whole run the committed FCV is empty or the major.minor of Status.Version, and PreviousVersion is Status.Version while active, if and only if no such write is lost |
| `UpgradeFcv.RollbackMatchesFcv` | internal/controller/sharded_upgrade.go:263-321 | every rollback, lost writes included, lands on a binary of the committed FCV, as long as no edit goes back behind it |
| `UpgradeFcv.RevertedStateIsUnsafe` | internal/controller/sharded_upgrade.go:263-321 | from every state where an edit did go back, some run rolls back to a binary behind the committed FCV |
| `UpgradeFcv.LostCommitCanRevert` | internal/controller/sharded_upgrade.go:207-225 | such a state is one lost write and one edit away from a passed validation |
| `UpgradeFcv.StuckUpgradeRollsBack` | internal/controller/sharded_upgrade.go:231-321 | an upgrade whose recorded counters are not full is rolled back to the version it started from |
| `UpgradeFcv.ValidationReadsOldCounters` | internal/controller/sharded_upgrade.go:190-204 | the readiness counters a sharded validation judges are those recorded before the upgrade began |
| `UpgradeFcv.FreshSatisfiesInvariants` | internal/controller/sharded_upgrade.go:20-60 | a newly created resource satisfies every invariant the run theorems start from |
| `UpgradeTermination.PassShrinksBudget` | internal/controller/upgrade.go:190-295 | a pass with all calls succeeding ends the upgrade or shrinks the measure of phase and time left |
| `UpgradeTermination.UpgradeTerminates` | internal/controller/upgrade.go:190-295 | at a fixed generation, with the backup Completed and all calls succeeding, the replica-set upgrade reaches and keeps the empty phase with its generation recorded |
| `UpgradeController.Cluster.ReconcileUpgradeBackup` | internal/controller/upgrade.go:134-188 | the in-place handler makes the move of the specification, replica set and sharded (which differ on an unreadable backup) |
| `UpgradeController.Cluster.AllComponentsReady` | internal/controller/sharded_upgrade.go:190-204 | the loop is the conjunction over config servers, mongos and all shards |
| `UpgradeController.Cluster.CommitAndComplete` | internal/controller/upgrade.go:216-245 | commits the FCV unless recorded, then writes the completed status |
| `UpgradeController.Cluster.UpgradeValidationFailed` | internal/controller/upgrade.go:271-295 | starts the rollback, or gives up and records the generation |
| `UpgradeController.Cluster.ReconcileUpgradeValidation` | internal/controller/sharded_upgrade.go:174-261 | waits, commits or fails by interval, timeout, rollout and counters |
| `UpgradeController.Cluster.ReconcileUpgradeRollback` | internal/controller/upgrade.go:336-393 | returns to PreviousVersion and records the generation, or clears the phase |
| `UpgradeController.Cluster.ReconcileUpgrade` | internal/controller/sharded_upgrade.go:20-109 | the whole upgrade step of a pass is the specified turn |
| `UpgradeController.Cluster.ReconcilePass` | internal/controller/mongodb_controller.go:166-194 | upgrade step, workload and the move to Validating, with the version the workload is built from |
| `UpgradeController.Cluster.FinishPass` | internal/controller/mongodbsharded_controller.go:152-169 | the move from Upgrading to Validating, or the closing status update |
| `ShardLifecycle.ScalingConservesChunks` | internal/controller/mongodbsharded_controller.go:1214-1345 | over any run of edits, failures and chunk moves, every chunk sits on a registered shard whose StatefulSet and volumes exist |
| `ShardLifecycle.StepKeepsInv` | internal/controller/mongodbsharded_controller.go:480-681 | every step keeps the data, flag and control invariants |
| `ShardLifecycle.VolumesGoOnlyAfterDrain` | internal/controller/mongodbsharded_controller.go:1306-1345 | volumes are deleted only by a cleanup, of an undeclared, unregistered shard without a chunk |
| `ShardLifecycle.CleaningWasEntered` | internal/controller/mongodbsharded_controller.go:1236-1249 | in any run a cleanup comes right after the removeShard call that reported completed |
| `ShardLifecycle.AddOnlyWhenAllInitialized` | internal/controller/mongodbsharded_controller.go:602-681 | addShard is issued only for declared shards once all of them are flagged as initialized |
| `ShardLifecycle.AddedMeansInitialized` | internal/controller/mongodbsharded_controller.go:1337-1343 | in every reachable state an added shard is an initialized one |
| `ShardLifecycle.FlaggedIsInitiatedUnlessRemoved` | internal/controller/mongodbsharded_controller.go:480-562 | in every reachable state a shard flagged as initialized lacks its replica set if and only if it was removed and not initiated again |
| `ShardLifecycle.FlaggedIsInitiated` | internal/controller/mongodbsharded_controller.go:503-546 | in runs without a cleanup every flagged shard has its replica set |
| `ShardLifecycle.HollowStaysOut` | internal/controller/mongodbsharded_controller.go:1337-1343 | a removed shard still flagged as initialized never gets a replica set or comes back |
| `ShardScaling.ScaleOutCompletes` | internal/controller/mongodbsharded_controller.go:86-273 | raising the count: one pass with successful calls deploys, initiates, registers, flags and lists all declared shards and moves no chunk |
| `ShardScaling.DrainStarts` | internal/controller/mongodbsharded_controller.go:1236-1245 | a surplus shard not yet draining is told to drain |
| `ShardScaling.DrainWaits` | internal/controller/mongodbsharded_controller.go:1236-1245 | while it holds a chunk the pass waits |
| `ShardScaling.MovingEmpties` | internal/controller/mongodbsharded_controller.go:1214-1252 | moving its chunks away empties it and loses none |
| `ShardScaling.DrainedShardLeaves` | internal/controller/mongodbsharded_controller.go:1214-1345 | a scale-in by one completes: the shard is gone from cluster, volumes, list and added flags; its initialized flag stays only after a write conflict |
| `ShardScaling.ScaleInByTwoSticks` | internal/controller/mongodbsharded_controller.go:1236-1249 | a scale-in by two or more removes the first shard, stops at the second, and no later run finishes it |
| `ShardScaling.LostInitWrite` | internal/controller/mongodbsharded_controller.go:548-561 | flags of an init pass whose status write is lost survive only with the recorded error |
| `ShardScaling.FailedInitStops` | internal/controller/mongodbsharded_controller.go:503-561 | a shard that cannot be initialized keeps the pass from going on, and the others are flagged |
| `ShardScaling.AddLeaves` | internal/controller/mongodbsharded_controller.go:637-680 | accepted shards are registered at once and flagged by whichever write gets through |
| `ShardScaling.AddWaits` | internal/controller/mongodbsharded_controller.go:605-620 | before every declared shard is initialized nothing is added |
| `ShardScaling.CloseRecords` | internal/controller/mongodbsharded_controller.go:930-1023 | the closing update records the shards found and the flags in one whole write, or nothing |
| `ShardLifecycle.PartialDrainOrphans` | internal/controller/mongodbsharded_controller.go:1236-1245 | a drain that stops at the next shard leaves the removed one recorded as added |
| `ShardLifecycle.RemovalForgottenIff` | internal/controller/mongodbsharded_controller.go:1306-1345 | in any interleaving a removed shard stays recorded as added if and only if its pass ends without writing the added flags |
| `ShardLifecycle.DrainForgetsIff` | internal/controller/mongodbsharded_controller.go:1214-1252 | the shards an undisturbed drain removes stay recorded as added if and only if the next surplus shard is registered but not drained yet, or no status write of the pass gets through |
| `ShardLifecycle.StuckForGood` | internal/controller/mongodbsharded_controller.go:1236-1241 | once a surplus shard is gone while the status lists it, no later run finishes the scale-in or adds a shard, for as long as the count stays declared |
| `ShardLifecycle.PartialDrainSticks` | internal/controller/mongodbsharded_controller.go:1236-1249 | a scale-in by two or more gets there when one surplus shard is done before the next |
| `ShardLifecycle.BrokenOffSticks` | internal/controller/mongodbsharded_controller.go:231-235 | so does a pass that breaks off between a removal and the closing status update |
| `ShardLifecycle.DrainFinishesIff` | internal/controller/mongodbsharded_controller.go:1236-1249 | the drain gets through if and only if every surplus shard was told to drain, is empty and its cleanup succeeds |
| `ShardLifecycle.OrphanStaysOut` | internal/controller/mongodbsharded_controller.go:602-681 | no later run brings such a shard back |
| `ShardLifecycle.InitPass` | internal/controller/mongodbsharded_controller.go:480-562 | earlier flags are kept and exactly the succeeding declared shards are added to them |
| `ShardLifecycle.AddPass` | internal/controller/mongodbsharded_controller.go:602-681 | the same for the added flags |
| `ShardLifecycle.ReconcilePass.ReconcileShardsInit` | internal/controller/mongodbsharded_controller.go:480-562 | a flag is set exactly for a shard found or made initialized, an error returned exactly for one whose check or initiation failed, whatever subset fails |
| `ShardLifecycle.ReconcilePass.ReconcileAddShards` | internal/controller/mongodbsharded_controller.go:602-681 | sends nothing before all declared shards are initialized; errors are exactly the declared shards left unadded |
| `ShardLifecycle.ReconcilePass.ReconcileScaleIn` | internal/controller/mongodbsharded_controller.go:1214-1252 | the drain loop is a run of the protocol, stops at the first shard not done, and finishes if and only if every surplus shard was drained and its cleanup succeeds |
| `ShardLifecycle.ReconcilePass.CleanupShardResources` | internal/controller/mongodbsharded_controller.go:1306-1345 | deletes the resources and resets both flags |
| `CollectionSharding.KeysAreNeverReplaced` | internal/mongodb/sharding.go:374-427 | over any passes, lists, failures and registrations by other clients, also in the middle of a call, no key that a lookup could see is ever replaced |
| `CollectionSharding.RacedKeysAreKept` | internal/mongodb/sharding.go:374-404 | no key registered at any moment of a run, also by another client in the middle of a call, is ever replaced |
| `CollectionSharding.ShardedAtMostOnce` | internal/mongodb/sharding.go:374-404 | a shardCollection of the operator takes effect at most once per collection, and never on one registered before its lookup |
| `CollectionSharding.CleanRunSettles` | internal/controller/mongodbsharded_controller.go:737-796 | after an error-free pass each item is registered under an equal key, registered as buckets, or reported as drift |
| `CollectionSharding.DriftsMetAreReal` | internal/controller/mongodbsharded_controller.go:751-754 | a reported drift is true to the end of the run and concerns a declared item |
| `CollectionSharding.FailedIff` | internal/mongodb/sharding.go:374-404 | a call fails with exactly the answer of the first failing call, in the order connect, user lookup, buckets lookup, enable, shard |
| `CollectionSharding.PassErrors` | internal/controller/mongodbsharded_controller.go:746-763 | the errors of a pass are those answers to its items: a server error among them, or none at all, exactly when spelled so |
| `CollectionSharding.DriftsInOrder` | internal/controller/mongodbsharded_controller.go:751-754 | the reports come in the order of the items |
| `CollectionSharding.DriftingIsAll` | internal/controller/mongodbsharded_controller.go:751-754 | one for each item found drifting when its turn comes |
| `CollectionSharding.ConflictingItemsSurface` | internal/controller/mongodbsharded_controller.go:737-796 | two declarations of one plain collection with different keys: a clean pass reports one of them |
| `CollectionSharding.SettledListIsFixpoint` | internal/mongodb/sharding.go:390-396 | once every item is settled or drifting, later passes leave the registry as it is |
| `CollectionSharding.OutcomeTellsRegistry` | internal/mongodb/sharding.go:416-427 | drift exactly when registered as plain under a different key; skip and success mean settled |
| `CollectionSharding.BuiltKeysEqualIff` | internal/controller/mongodbsharded_controller.go:841-857 | built keys compare equal if and only if the ordered field lists are equal |
| `CollectionSharding.NumericTypeIsIrrelevant` | internal/mongodb/sharding.go:333-351 | numbers compare by value, whichever of int32, int64, float64 they come back in |
| `CollectionSharding.ReencodingKeepsVerdict` | internal/mongodb/sharding.go:308-351 | re-encoding either key leaves the comparison unchanged |
| `CollectionSharding.ShardKeyEqual` | internal/mongodb/sharding.go:308-321 | the index loop compares length, names and normalised values in order |
| `CollectionSharding.BuildShardKey` | internal/controller/mongodbsharded_controller.go:841-857 | one entry per field, in order |
| `Namespaces.BucketsRoundTripIff` | internal/mongodb/sharding.go:239-259 | for every database and collection name, the exact condition for the way to the buckets namespace and back to be the identity |
| `Namespaces.DotFreeRoundTripIff` | internal/mongodb/sharding.go:239-259 | for a database name without dots it is the identity if and only if the collection lacks the prefix |
| `Namespaces.CommutesIffRepeats` | internal/mongodb/sharding.go:249-259 | text ending in a dot commutes with the prefix if and only if it repeats the prefix |
| `Namespaces.BucketsNsIdempotent` | internal/mongodb/sharding.go:239-244 | prefixed collections map to themselves |
| `Namespaces.UserNsInjective` | internal/mongodb/sharding.go:287-295 | namespaces of dot-free databases tell database and collection apart |
| `CollectionSharding.Manager.LookupShardedCollectionAny` | internal/mongodb/sharding.go:287-302 | user namespace first, then the buckets one |
| `CollectionSharding.Manager.EnsureShardedCollection` | internal/mongodb/sharding.go:374-404 | effect and outcome of one call under any answers of the server |
| `CollectionSharding.Manager.EnsureAll` | internal/controller/mongodbsharded_controller.go:737-763 | the loop is a run over the list, cut short only by a server error, and collects its drifts |
| `CollectionSharding.Manager.ReconcileShardedCollections` | internal/controller/mongodbsharded_controller.go:696-796 | guards, loop, drift condition and when it is persisted; an error exactly on a server error or a lost drift write, done exactly when no item fails |
| `ReplicaSetConfig.EditsRefineSet` | internal/mongodb/replicaset.go:275-319 | over any sequence of edits ids and hosts stay distinct, the hosts are those of the same edits on sets, the version rises by one per effective change |
| `ReplicaSetConfig.SurvivorsKeepOrder` | internal/mongodb/replicaset.go:299-319 | members no edit removes keep ids, flags and relative order over any sequence of edits |
| `ReplicaSetConfig.WithoutKeepsOrder` | internal/mongodb/replicaset.go:304-312 | removal keeps exactly the other members, at increasing positions |
| `ReplicaSetConfig.IdReusedIff` | internal/mongodb/replicaset.go:280-293 | a new member gets an id that was in use before a removal if and only if the removed id was one above all others |
| `ReplicaSetConfig.AddAppends` | internal/mongodb/replicaset.go:289-294 | a new host comes last with the flag asked for and the next id above all others |
| `ReplicaSetConfig.FilterInPlace` | internal/mongodb/replicaset.go:304-312 | the filter that overwrites the slice it reads leaves exactly the survivors |
| `ReplicaSetConfig.Scan` | internal/mongodb/replicaset.go:280-288 | finds the host, or the largest id |
| `ReplicaSetConfig.Server.AddMember` | internal/mongodb/replicaset.go:275-296 | the server ends up with the specified configuration, or its old one |
| `ReplicaSetConfig.Server.RemoveMember` | internal/mongodb/replicaset.go:299-319 | the server ends up with the specified configuration, or its old one |
| `Hosts.SeedListNamesConfig` | internal/mongodb/sharding.go:498-505 | the seed list splits back into exactly the hosts of the initiated configuration, in order, and ends at the slash when there are none |
| `Hosts.HostsDiffer` | internal/mongodb/client.go:147-149 | hosts of different ordinals differ, whatever the names |
| `Hosts.FirstSegmentIsPodIff` | internal/mongodb/replicaset.go:226-240 | the first dot-segment of a host is the pod name if and only if the pod name has no dot |
| `Hosts.HostParts` | internal/mongodb/client.go:147-149 | a host splits into pod, service, namespace, svc, cluster and local with the port |
| `Hosts.GetPodsFQDN` | internal/mongodb/client.go:152-159 | the hosts of pods 0 to n-1 in order |
| `Hosts.BuildReplicaSetConfig` | internal/mongodb/replicaset.go:366-377 | ids 0 to n-1 with the same hosts in the same order, all distinct |
| `Hosts.BuildShardConnectionString` | internal/mongodb/sharding.go:498-505 | shard name, slash, the same hosts in order |
| `Hosts.GetPrimaryPod` | internal/mongodb/replicaset.go:226-240 | the first segment of the first primary, or none exactly when there is no primary |
| `Insights.ExactlyOnePerGroup` | internal/insights/analyzer.go:192-244 | on plain names the report is key-sorted and has exactly one recommendation per namespace and field set with three or more documents and an average at or above the threshold |
| `Insights.ReportPermutes` | internal/insights/analyzer.go:192-244 | samples aside, the report does not depend on the order of the documents |
| `Insights.ReportUnique` | internal/insights/analyzer.go:215-226 | the order in which maps yield their keys is invisible |
| `Insights.KeyInjective` | internal/insights/analyzer.go:202-202 | on plain names two documents share a key if and only if they share namespace and field set |
| `Insights.OddNamesCollide` | internal/insights/analyzer.go:298-308 | a comma in a field name, a lone empty name or a bar in a namespace makes different groups collide |
| `Insights.AverageFitsInt32` | internal/insights/analyzer.go:230-231 | narrowing the average to int32 never changes it |
| `Insights.AverageWithin` | internal/insights/analyzer.go:220-221 | a truncated average lies between the bounds of its terms |
| `Insights.RecommendationTells` | internal/insights/analyzer.go:228-243 | namespace, count, average, first three samples, and severity by the bands 500 and 1000 |
| `Insights.SampleWords` | internal/insights/analyzer.go:341-344 | a sample reads back word by word |
| `Insights.GroupDocs` | internal/insights/analyzer.go:200-214 | the map loop gives each key the count, total, first document and first three samples of its documents |
| `Insights.SelectSlow` | internal/insights/analyzer.go:215-225 | keeps exactly the keys passing both tests, in whatever order they come |
| `Insights.DetectSlowQueryPatterns` | internal/insights/analyzer.go:192-244 | the code produces the specified report |
| `Insights.FilterShape` | internal/insights/analyzer.go:298-308 | the ascending field names joined by commas |
| `Insights.SplitNS` | internal/insights/analyzer.go:346-352 | splits at the first dot and loses nothing |
| `StringOrder.AscendingUnique` | internal/insights/analyzer.go:226-226 | a set of strings has only one ascending list |
| `StringOrder.SortedKeys` | internal/insights/analyzer.go:302-306 | collecting keys in any order and sorting gives that list |

## Left out

- BootstrapLease: all loops read one clock; skew between machines would have to be subtracted from the 30 s.
- The admin-user creation that the lease protects, and what reconcileAdminUser does when the lease is busy.
- Upgrade: conditions, events, metrics, requeue delays and the `Spec.Image` override do not influence the modelled fields; the seeding write is not interleaved with edits; recording an error after a failed status write may store the same status, which is then a write that got through.
- AtMostOnePerGeneration: passes read the newest object; UpgradeStale adds copies of any age, except those from before the versions were seeded. The other run theorems about upgrades assume current reads too.
- OncePerGenerationOnStaleReads: adds at most one rollback per generation, for copies current in four fields only; a copy outdated in one of them can also be harmless.
- Upgrade: whether a rollout is complete or stuck (stsRolloutComplete, stsRolloutStuck), and whether a sharded cluster's components are up, are observations of a pass, not computed from pods.
- UpgradeTermination: the replica-set machine only; a sharded cluster waits in Upgrading without a timeout.
- RollbackMatchesFcv: one direction only, since a reverted state may also end well; RevertedStateIsUnsafe gives the other half for states, and WebhookKeepsRollbacksSafe discharges the hypothesis.
- ShardScaling: progress for passes whose calls succeed only; scale-in may wait for ever for a shard that is never emptied. The balancer is assumed never to move chunks onto a draining or unregistered shard, and mongos to accept only an initiated shard whose StatefulSet exists; a check for initialization is assumed to tell the truth.
- CollectionSharding: the server is assumed to refuse a change of key for a collection that another client has sharded since the lookup; errors are classified by a datatype, not by matching message texts.
- CollectionSharding: unique and timeseries options only influence where the server registers the collection, which is its free choice here; a float64 outside the int64 range is a Fraction.
- ParseFormat: numbers up to 2^63 - 1, since Go's int cannot hold larger ones.
- VersionPath: `major + 1` is computed without 64-bit wrap-around.
- ReplicaSetConfig: member ids are unbounded integers; the set's name and the priorities and votes of members are not kept.
- Insights: document totals are unbounded; by TotalWithin an int64 holds them for fewer than 2^32 documents. The detail line is a record of what it prints, not its text.
- detectMissingIndexes, detectSchemaHints, AnalyzeIndexUsage and suggestIndex: the same grouping loop or single-pass filters.
- observeShardedCollections and ListShardedNamespaces: a filter and a sort over what the server lists.
- Backup, verification, search, federation, password rotation, healing and scaling controllers, and all builders of Kubernetes objects: linear phase chains, threshold checks or plain data.
- Kubernetes API plumbing, mongo-driver connections and BSON decoding are foreign code; their results are inputs of the model.
