# A verified model of the DoltDB operator

The operator keeps a replicated DoltDB cluster running on Kubernetes: it names and configures the pods, decides
which one is primary, switches the primary over when asked or when it fails, rolls out updates, grows volumes and
takes backups. This project models that logic in Dafny and proves what it keeps over every run. It also proves
where the code does less than it means to, with the exact condition under which it does what it means to.

Treat a Kubernetes object as a record and each API or SQL call as one atomic step that may fail. The files are:

| files | what they model |
|---|---|
| `Cluster`, `Snapshot`, `StatusPhase` | pods, status, the two Dolt procedures as assumed contracts, what one look at the pods yields |
| `Protocol`, `BadRuns` | the replication epoch protocol as a state machine, its invariant, and runs from bootstrap that end in a split brain or in a stuck switchover |
| `Switchover`, `Progress`, `RestProgress`, `PassSafety` | whole passes as functions of what the pods look like; when they finish, during a switchover and at rest; that they stay safe |
| `Operator` | the replication reconciler as an object, each method a logged run of the state machine |
| `Routing` | labels and the Service selector |
| `Freshness`, `CaughtUp`, `Ordinals` | choosing a pod to promote |
| `RollingUpdate`, `GracefulUpdate` | the updater, and the switchover it makes before it deletes the primary |
| `Pipeline`, `Interlock`, `PassOutcomes` | the phase pipeline, the flags that exclude each other, scale-downs and resizes, and what a whole pass does to conditions and spec |
| `Backups`, `BackupRuns`, `Schedule` | the Backup state machine and cron schedules |
| `Names`, `Urls`, `ConfigMesh` | pod names, hosts and the peer list each pod is given |

How the pieces hold together. `Operator.Reconciler` works call by call on its fields and keeps a ghost log;
`Valid()` says that the log is a run of `Protocol.Next`, so `NeverTwoPrimariesAtOneEpoch` is about these methods.
The same methods are proved to compute the functions in `Switchover`, so `Progress.CompletesIff` is about them too.
Likewise `BackupReconciler`, `Scheduler`, `DoltDBReconciler` and `Roller` are proved against the functions and
predicates whose runs are reasoned about beside them.

## Results about the code as it is

Each of these is a place where the code and its intent differ; the code is modelled as written.

- Freshness of the promotion epoch. With one answering primary the switchover ignores the recorded epoch, so the epoch
  is fresh exactly when some answering pod carries the top one (`PromotionEpochFreshIff`). Without that, a run from
  bootstrap ends with two primaries at one epoch (`UncoveredRunSplits`).
- The last switchover phase labels the pod that *was* primary and fails if that pod is down. A completed switchover
  labels its target exactly when the target alone answered as primary beforehand (`TargetLabelledIff`).
- A switchover completes exactly when the pod of the recorded primary exists and either is ready, answers and is not
  refused its drain, or is not ready while at most one pod answers as primary, a ready one (`CompletesIff`). Otherwise no number of passes completes
  it (`NeverIfStuck`), whatever they meet if the pod is gone or two pods answer as primary (`BlockedForever`). Runs whose
  snapshots all reach the top epoch get there both ways (`StuckIsReachable`, `GonePrimaryIsReachable`).
- `TransitionToStandby` returns a position in a list that the updater takes for an ordinal: right exactly when as many
  healthy standbys precede the one drained to by name, which up to ten pods means that every lower ordinal is a healthy
  standby (`UpdaterPromotesIntendedIff`). With up to ten pods, all healthy, a standby right after the recorded primary
  leaves the cluster without a primary, and one further up promotes the pod before it (`PromotesWhom`); with eleven a
  drain to pod 10 promotes pod 1 (`ElevenPodsPromotePodOne`). A pod the updater does promote is never recorded, and
  blocks every later pass at rest (`StrayBlocksEveryRestPass`).
- A cluster created with a desired primary other than pod 0 is blocked in the same way from its first Status phase on:
  that pod is recorded while pod 0 bootstraps as primary (`BootstrapIsStrayIff`).
- A report of a failed primary whose spec patch is lost while its status patch lands flags a switchover to the primary
  itself, which no pass carries out and no pass ends (`LostSpecPatchSwitchesToItselfIff`, `SwitchToItselfNeverEnds`).
- Freshness selection and `PickNextPrimary` agree up to ten pods exactly when the latter picks a healthy pod
  (`FailoverAgreesIff`); from eleven pods on, name order is not ordinal order (`ElevenPodsDisagree`).
- A timestamp equal to Go's zero time makes the freshness loop forget all rows before it (`ZeroTimestampForgets`).
- A pod reported not ready during a resize leaves resize and switchover both in progress, and as long as no report
  falls within a pass nothing ends either (`PodNotReadyKeepsInterlockIff`, `BothIsForever`).
- The gate before a scale-down never opens by itself (`BlockedScaleDownNeverProgresses`), and it can be passed by: a
  pass takes the room of the recorded primary away exactly when storage grows in the same pass or the StatefulSet is
  gone (`LosesPrimaryIff`, `GrowingStorageBypassesTheGate`, `LostStatefulSetBypassesTheGate`).
- A resize is lost, and then never ends, exactly when it is cut between deleting the StatefulSet and flagging the wait
  (`CutResizeIsLost`, `LostResizeNeverEnds`).
- Backup attempts stay within the limit exactly as long as failures get recorded (`AccountedIff`): a backup exceeds its
  limit by at most the turns that lost a patch (`AttemptsExceedByLossyTurns`). One at its limit whose failure patches
  are lost is executed again in every turn, until one lands (`LostFailurePatchesRepeat`, `LandedFailurePatchEnds`).
- After a Backup was created, its schedule is due again before the next tick exactly if the patch that records it was
  lost (`DueAgainIffPatchLost`); Backups exceed ticks by at most the patches lost (`BackupsExceedTicksByLostPatches`).
- A schedule without a tick left, such as the thirtieth of February, is always due: it makes a Backup at every wake-up,
  ten seconds apart (`DryScheduleRepeats`). Backups never outnumber ticks exactly for endless schedules
  (`NeverOutnumbersIff`).

## Model

| member | source | states |
|---|---|---|
| `Protocol.NeverTwoPrimariesAtOneEpoch` | pkg/controller/replication/switchover.go:55-128 | over every run from bootstrap, with failures, crashes and interference at every step, no two pods are primary at one epoch, if each snapshot reaches a pod at the top epoch |
| `Protocol.RunKeepsInv` | pkg/controller/replication/switchover.go:55-128 | every state of such a run satisfies the invariant: recorded epoch and primary at the top outside a switchover, the planned epoch spread only as far as the phase allows |
| `Protocol.StepKeepsInv` | pkg/controller/replication/controller.go:78-140 | each single step of Status, replication, switchover, users and pods keeps that invariant |
| `Protocol.ConfigurePodKeepsInv` | pkg/controller/replication/controller.go:142-204 | repairing a pod's role at the recorded epoch never makes a second primary at it |
| `Protocol.PromoteKeepsInv` | pkg/controller/replication/switchover.go:222-259 | promoting the target at the planned epoch keeps primaries unique per epoch |
| `Protocol.SetReadOnlyKeepsInv` | pkg/controller/replication/switchover.go:161-220 | demoting the recorded primary at the planned epoch keeps the invariant, whether or not it took place |
| `Protocol.RecordedPrimaryIsFenced` | pkg/controller/replication/switchover.go:111-121 | once a switchover is recorded the new primary holds the recorded and highest epoch and every other primary a lower one |
| `Protocol.EpochsNeverDecrease` | api/v1alpha/condition_types.go:72-77 | over any run, covered or not, neither the recorded epoch nor any pod's epoch decreases |
| `Protocol.ReplicationNeverPromotes` | pkg/controller/replication/controller.go:175-204 | replication reconcile issues the recorded epoch unincremented, the primary role only to the recorded primary, and creates no new primary |
| `BadRuns.UncoveredRunSplits` | pkg/controller/replication/switchover.go:66-71 | some run from bootstrap with a snapshot that misses the top epoch ends with two primaries at one epoch |
| `BadRuns.StuckIsReachable` | pkg/controller/replication/switchover.go:261-289 | some run from bootstrap whose snapshots all reach the top epoch ends in a switchover with two answering primaries that no number of passes completes |
| `BadRuns.GonePrimaryIsReachable` | pkg/controller/replication/switchover.go:168-171 | and so does one in which nobody answers as primary and the recorded primary's pod is gone |
| `Snapshot.CurrentPrimaryAndEpoch` | pkg/dolt/replication.go:79-101 | succeeds if and only if exactly one pod answers as primary, and then returns it with the highest answered epoch |
| `Snapshot.Highest` | pkg/dolt/replication.go:80-94 | bounds every answered epoch and is one of them unless it is 0 |
| `Snapshot.CoveringSnapshotSeesTop` | pkg/controller/replication/config.go:137-151 | a snapshot reaching a pod at the top epoch observes that epoch as its highest |
| `Snapshot.PromotionEpochFreshIff` | pkg/controller/replication/switchover.go:60-102 | the planned epoch exceeds every pod's if and only if, on the success path, the snapshot reaches the top epoch and, on the fallback path, the recorded epoch is not behind |
| `StatusPhase.GetReplicationStatusAndEpoch` | pkg/controller/status/status.go:129-187 | the replication map has exactly the reported pods with the state of their role; the epoch is the highest answered one if it exceeds the recorded one |
| `StatusPhase.EntryOf` | pkg/controller/status/status.go:158-183 | a pod that answered gets an entry exactly if it exists, is ready and is no second primary |
| `StatusPhase.EntriesReflectRoles` | pkg/controller/status/status.go:154-183 | a pod that is heard and up has its role's entry, primary, standby or not configured, and a second primary none; so at most the recorded primary has a primary entry |
| `StatusPhase.ConfiguredIffStandbyHeard` | api/v1alpha/replication_types.go:93-106 | after the Status phase replication counts as configured if and only if a standby that is up is heard and no such pod in neither role is |
| `StatusPhase.RecordedEpochIsMaximum` | pkg/controller/status/status.go:59-67 | a recorded epoch is the maximum of the old one and every answered one; none is recorded exactly if nothing above 0 was ever seen |
| `StatusPhase.CoveredStatusRecordsTop` | pkg/controller/status/status.go:41-83 | when the answering pods include one at the top epoch, exactly the top epoch is recorded |
| `StatusPhase.IsReplicationConfigured` | api/v1alpha/replication_types.go:93-106 | for every order of iteration: true if and only if nothing is unconfigured and some standby is configured |
| `Operator.Reconciler.ReconcileStatus` | pkg/controller/status/status.go:41-83 | the new status is that of the state machine's Status step; nothing else changes |
| `Operator.Reconciler.ReconcileReplication` | pkg/controller/replication/controller.go:142-204 | a logged run whose result is `ConfigurePods`; status and spec are untouched |
| `Operator.Reconciler.ShiftTrafficAwayFromPrimary` | pkg/controller/replication/switchover.go:130-159 | every pod that exists ends labelled standby; a patch that fails ends the phase with exactly the pods before it relabelled |
| `Operator.Reconciler.SetPrimaryReadOnly` | pkg/controller/replication/switchover.go:161-220 | succeeds exactly when the phase function does, with its pods; a failure changes nothing |
| `Operator.Reconciler.ConfigureNewPrimary` | pkg/controller/replication/switchover.go:222-259 | likewise for the promotion of the target |
| `Operator.Reconciler.ShiftTrafficToNewPrimary` | pkg/controller/replication/switchover.go:261-289 | likewise for labelling the planned current primary, whose patch may fail |
| `Operator.Reconciler.MakePlan` | pkg/controller/replication/switchover.go:66-71 | the plan is the sole answering primary with the observed epoch, else what the status records |
| `Operator.Reconciler.RunSwitchoverPhases` | pkg/controller/replication/switchover.go:79-121 | the phase loop, cut after any number of phases, computes `RunPhases` and is a run of the protocol |
| `Operator.Reconciler.ReconcileSwitchover` | pkg/controller/replication/switchover.go:40-128 | does nothing unless a switch is called for and its flag patch lands; else plans from the snapshot or falls back to the status, and runs the phases |
| `Operator.Reconciler.ReconcileWhileSwitching` | pkg/controller/replication/controller.go:78-140 | a whole pass during a switchover computes `SwitchoverPass` and is a run of the protocol |
| `Operator.Reconciler.ReconcileAtRest` | pkg/controller/replication/controller.go:78-140 | a whole pass outside a switchover computes `RestPass` and is a run of the protocol |
| `Operator.Reconciler.ReconcilePodLabels` | internal/controller/doltdb_controller.go:324-387 | completes if and only if a primary is recorded and no patch fails; every pod that is up and scheduled is then labelled for it and no other pod is touched, and a failing patch leaves exactly the pods before it relabelled |
| `Operator.Reconciler.ReconcilePodNotReady` | pkg/controller/replication/pod_readiness.go:48-107 | only a not-ready recorded primary with failover on causes a switch; the target is the freshest healthy standby; each patch may be lost alone |
| `Switchover.ConfigurePodsRepairs` | pkg/controller/replication/controller.go:142-204 | repair gets through if and only if no single call is lost or refused; then every unconfigured pod has its role at the recorded epoch, and configured pods are as before |
| `Progress.PlanExceedsAnswers` | pkg/controller/replication/switchover.go:60-102 | on both paths the planned epoch exceeds that of every answering pod, when whoever answers has also answered the Status phase |
| `Progress.ChangeNeedsDrain` | pkg/controller/replication/switchover.go:161-220 | with a recorded primary that is up and not yet standby, a pass that changes any role, epoch or the status, however cut and whatever it meets, has drained that primary to a pod that is up, or found it read-only |
| `Progress.RefusedDrainChangesNothing` | pkg/controller/replication/switchover.go:204-216 | a refused drain leaves every role, every epoch and the recorded primary as they were |
| `Progress.PassCompletesIff` | pkg/controller/replication/switchover.go:79-121 | an uninterrupted pass completes if and only if the old primary's pod exists, answers and is standby or not refused its drain if it is ready, and the planned current primary is up; then the target is primary and a drained old primary is standby |
| `Progress.UnyieldingPassStays` | pkg/controller/replication/switchover.go:161-220 | a pass that fails in its second phase leaves the switchover and the recorded primary as they were |
| `Progress.FailedPassPromotes` | pkg/controller/replication/switchover.go:261-289 | a pass that fails in its last phase has promoted the target, recorded nothing and changed no other role but that of an old primary that is up |
| `Progress.OnePassIfOldPrimaryUp` | pkg/controller/replication/switchover.go:98-121 | one pass completes a switchover whose old primary is up and answers, if no pod that is down answers as primary |
| `Progress.TwoPassesIfCompletable` | pkg/controller/replication/switchover.go:98-121 | two passes complete a switchover that can complete at all |
| `Progress.NeverIfStuck` | pkg/controller/replication/switchover.go:161-274 | no number of passes completes one that cannot |
| `Progress.BlockedForever` | pkg/controller/replication/switchover.go:161-274 | over every sequence of passes, however cut, whatever they meet and whoever is asked for: while the old primary's pod is gone, or not ready with two of the initial primaries answering, no other primary is recorded |
| `Progress.CompletesIff` | pkg/controller/replication/switchover.go:98-121 | some number of passes completes if and only if the old primary's pod exists and either is ready, answers and is not refused its drain, or is not ready while at most one pod, a ready one, answers as primary; two are then enough |
| `Progress.InterruptedSwitchoverCompletes` | pkg/controller/replication/switchover.go:161-289 | a switchover cut any number of times at any phase, while pods come and go, completes by uninterrupted passes if and only if the old primary's pod exists and is ready, answers and is not refused its drain, or is not ready and does not answer as primary; within two passes, within one if it is up |
| `RestProgress.RestPassSwitchesIff` | pkg/controller/replication/controller.go:106-140 | with every pod up and answering, a pass at rest records the desired pod, primary above every earlier epoch, if and only if the set is healthy, nothing resizes, calls land, recorded and desired pod exist and differ, every pod has the right role or is behind, and the drain is not refused |
| `RestProgress.EditedSpecSwitches` | pkg/controller/replication/switchover.go:40-128 | a cluster in order switches in the one pass after its spec asks for another primary |
| `RestProgress.RepairIff` | pkg/controller/replication/controller.go:142-204 | role repair gets through if and only if an epoch is known and every pod has the right role or is behind it |
| `PassSafety.SwitchoverPassKeepsInv` | pkg/controller/replication/switchover.go:55-128 | a switchover pass cut anywhere keeps the invariant of the protocol |
| `PassSafety.ConfigurePodsKeepsInv` | pkg/controller/replication/controller.go:142-204 | repairing roles keeps the invariant and keeps the snapshot covering the top epoch, wherever it stops |
| `PassSafety.RestPassKeepsInv` | pkg/controller/replication/controller.go:78-140 | a pass at rest cut anywhere keeps the invariant |
| `Routing.RoutedIff` | pkg/builder/service_builder.go:102-126 | the primary Service's selector matches a pod if and only if it exists, is labelled primary and is the one the Service names |
| `Routing.AtMostOneRouted` | pkg/builder/service_builder.go:102-126 | whatever the labels and however stale the Service, it routes to one pod at most |
| `Routing.RoutedOnlyFromFourthPhase` | pkg/controller/replication/switchover.go:79-109 | once the first phase is through, wherever the pass is cut or fails, the Service routes to a pod if and only if the fourth phase got through and it is the planned current primary |
| `Routing.TrafficOnlyAfterPromotion` | pkg/controller/replication/switchover.go:130-289 | wherever a pass ends after its first phase: no pod is labelled primary before the fourth phase is through, exactly the planned current primary after, and only with the target promoted at the planned epoch |
| `Routing.TargetLabelledIff` | pkg/controller/replication/switchover.go:268-286 | a completed switchover leaves its target labelled primary if and only if the target alone answered as primary before it |
| `Routing.OldPrimaryKeepsTheLabel` | pkg/controller/replication/switchover.go:268-286 | a completed graceful switchover leaves the label on the old primary, by then a standby if it was drained |
| `Routing.ExactlyPrimaryLabelledIff` | internal/controller/doltdb_controller.go:324-387 | after a completed Labels phase exactly the recorded primary exists with the primary label if and only if no existing pod the phase could not touch says otherwise |
| `Routing.RoutedAfterLabelsPhase` | internal/controller/doltdb_controller.go:324-387 | with every pod up, the Service then routes to exactly the recorded primary |
| `Routing.ReadersAfterLabelsPhase` | pkg/builder/service_builder.go:129-149 | after a completed Labels phase the reader Service selects, of the pods it touched, exactly those other than the recorded primary |
| `Routing.ReadersAfterFirstPhase` | pkg/controller/replication/switchover.go:130-159 | after the first phase of a switchover it selects every pod there is |
| `Freshness.OldestUpdate` | pkg/dolt/replication.go:48-53 | the inner loop computes `Oldest` |
| `Freshness.OldestIsMinimum` | pkg/controller/replication/pod_readiness.go:157-170 | without zero timestamps the value is the minimum, and unset exactly if no row has one |
| `Freshness.ZeroTimestampForgets` | pkg/controller/replication/pod_readiness.go:159-166 | a zero timestamp erases everything before it |
| `Freshness.SelectFailoverCandidate` | pkg/controller/replication/pod_readiness.go:112-186 | errors exactly when no standby is usable; else the result's stalest database is at least as fresh as every other's, ties to the earliest |
| `Freshness.HealthyDoltDBStandbys` | pkg/health/health.go:128-159 | the ready pods but the recorded primary, in name order |
| `Freshness.FailoverTarget` | pkg/controller/replication/pod_readiness.go:81-89 | the best standby by freshness, else the first healthy one, else none |
| `Freshness.PickNextPrimary` | pkg/dolt/replication.go:37-65 | the best answering standby, else the first one, else none |
| `Freshness.ChosenIsUnique` | pkg/dolt/replication.go:37-65 | that outcome is unique |
| `Freshness.FailoverAgreesIff` | pkg/controller/replication/pod_readiness.go:81-89 | up to ten pods, with healthy standbys answering as such, the two choices agree if and only if `PickNextPrimary`'s is healthy and not the recorded primary |
| `Freshness.FailoverAgreesUpToTen` | pkg/health/health.go:74-106 | so they agree whenever no other pod answers as standby |
| `Freshness.FailoverEquallyFresh` | pkg/controller/replication/pod_readiness.go:112-186 | for any number of pods both choices are equally fresh |
| `Freshness.ElevenPodsDisagree` | pkg/health/health.go:233-237 | with eleven pods they can differ on a tie |
| `Ordinals.SortByNameSorts` | pkg/health/health.go:233-237 | sorting a listing of distinct pods puts names in strictly ascending order (and `SortByName` keeps the pods) |
| `Ordinals.NameOrderOfUpToTen` | pkg/health/health.go:233-237 | any listing of at most ten pods sorts to 0, 1, 2, … |
| `CaughtUp.CountCaughtUp` | pkg/dolt/sql/replication.go:91-101 | fails exactly if a URL does not parse; else every host has the number of rows it is caught up on |
| `CaughtUp.ArgMax` | pkg/dolt/sql/replication.go:103-110 | for every order of iteration, a host with the highest count, or none if all are zero |
| `CaughtUp.SettledHost` | pkg/dolt/sql/replication.go:91-122 | the host settled on occurs in the rows, all of which parse, and no host is caught up on more; if none is caught up on anything it is the empty host or an error |
| `CaughtUp.CaughtUpPosition` | pkg/dolt/sql/replication.go:112-131 | returns the first position whose host matches a maximal host of the rows; with usable rows it fails only if no listed host matches that one |
| `CaughtUp.CountIsNumberOfDatabases` | pkg/dolt/sql/replication.go:91-101 | with one row per database and host, the count is the number of databases caught up |
| `CaughtUp.MaximalHostIsCaughtUpEverywhere` | pkg/dolt/sql/replication.go:103-118 | if any host is caught up on every database, so is every host that can be settled on |
| `CaughtUp.PositionIsRank` | pkg/health/health.go:184-203 | the position is the rank of the standby settled on in the healthy list |
| `CaughtUp.PositionCountsPreceding` | pkg/health/health.go:128-203 | for any number of pods the position is the number of healthy standbys that precede the one settled on by name |
| `CaughtUp.UpdaterPromotesIntendedIff` | pkg/controller/statefulset/updater.go:250-272 | the updater promotes the standby settled on if and only if that number is its ordinal; up to ten pods, if and only if every lower ordinal is a healthy standby, so never one after the recorded primary |
| `CaughtUp.DrainEndsAtCaughtUpStandby` | pkg/dolt/sql/replication.go:91-131 | from configured remotes through result rows to the host list: the position stands for a healthy standby that is caught up on every database, if any remote is |
| `GracefulUpdate.PromotionAcceptedIff` | pkg/controller/statefulset/updater.go:230-272 | after the drain, one epoch above the primary's, the promotion is accepted if and only if the position is a pod other than the recorded primary; refused, it leaves no primary, accepted, exactly the new one at that epoch |
| `GracefulUpdate.PromotesByRank` | pkg/controller/statefulset/updater.go:245-272 | for any number of pods, whichever are healthy: the pod promoted has the number of healthy standbys before the one drained to as its ordinal, and nobody is promoted, nor left primary, if that is the recorded primary |
| `GracefulUpdate.PromotesWhom` | pkg/controller/statefulset/updater.go:245-272 | with up to ten pods, all healthy: the standby drained to is promoted if it comes before the recorded primary, nobody if right after, the pod before it otherwise |
| `GracefulUpdate.ElevenPodsPromotePodOne` | pkg/health/health.go:233-237 | of eleven healthy pods with pod 0 primary, a drain to pod 10 promotes pod 1 |
| `GracefulUpdate.TwoPodsLoseThePrimary` | pkg/controller/statefulset/updater.go:260-272 | two pods with pod 0 primary: the drain to pod 1 ends with no primary |
| `GracefulUpdate.PromotionIsStray` | pkg/controller/statefulset/updater.go:260-294 | a pod the updater promotes is primary at the top epoch while another is recorded |
| `GracefulUpdate.BootstrapIsStrayIff` | pkg/controller/status/status.go:189-200 | after the first Status phase of a new cluster so is pod 0, if and only if the spec asks for another primary |
| `GracefulUpdate.RepairFailsAtStray` | pkg/controller/replication/controller.go:142-204 | role repair fails at such a pod and leaves it as it is |
| `GracefulUpdate.StrayBlocksEveryRestPass` | pkg/controller/replication/controller.go:124-140 | over every sequence of passes at rest, whatever they meet and whoever is asked for, such a pod stays primary and nothing is switched |
| `Ordinals.RankByName` | pkg/health/health.go:233-237 | in a list in name order an element is at the number of members that precede it |
| `Ordinals.RankIsOrdinalIff` | pkg/controller/statefulset/updater.go:261-272 | in an ascending list an element is at its own index exactly when no lower number is missing |
| `RollingUpdate.Roller.GetPodsByRole` | pkg/controller/statefulset/updater.go:342-401 | succeeds exactly if all pods are listed and the primary is among them; the replicas are all others, highest name first |
| `RollingUpdate.Roller.WaitForReplicationCaughtUp` | pkg/controller/statefulset/updater.go:125-199 | lets the primary go exactly if replication is off, or configured with a healthy standby and every readable row has a lag of at most 5000 ms and no error; skips the phase exactly if replication is not configured, and requeues otherwise |
| `RollingUpdate.Roller.GracefulPrimaryUpdate` | pkg/controller/statefulset/updater.go:204-294 | deletes the primary unless a promotion or relabelling failed; every other end deletes it |
| `RollingUpdate.Roller.ReconcileUpdates` | pkg/controller/statefulset/updater.go:36-108 | replaces at most one pod, a stale one, only with all replicas ready and nothing else in progress; a replica in descending name order, the primary only after every replica and caught up; it does replace one whenever there is one to replace; and how the pass ends in each case |
| `RollingUpdate.ReplacingDropsStaleCount` | pkg/controller/statefulset/updater.go:329-340 | each replacement lowers the number of stale pods by one |
| `RollingUpdate.RollIsBounded` | pkg/controller/statefulset/updater.go:49-108 | over a roll at one revision, replacements plus pods still stale never exceed the pods stale at the start |
| `RollingUpdate.RollEnds` | pkg/controller/statefulset/updater.go:49-108 | no more passes replace a pod than there are pods |
| `Pipeline.DoltDBReconciler.Reconcile` | internal/controller/doltdb_controller.go:102-190 | a refused spec ends the pass before the first phase; else the loop computes `PassFrom` over the phases in order, skippable errors skipped, a return or an error ending it |
| `Pipeline.DoltDBReconciler.ReconcilePodNotReady` | pkg/controller/replication/pod_readiness.go:91-96 | the candidate is asked for if the spec patch lands, a switch is in progress if the status patch lands or one was; a resize or update in progress is left as it is, and so is all else |
| `Interlock.PassFromKeepsFlags` | internal/controller/doltdb_controller.go:122-190 | whatever fails, a pass neither creates nor resolves the state in which resize and switchover are both in progress |
| `Interlock.PodNotReadyKeepsInterlockIff` | pkg/controller/replication/pod_readiness.go:54-96 | the pod controller keeps the exclusion if and only if its status patch does not land during a resize |
| `Interlock.MoveKeepsBoth` | pkg/controller/storage/storage.go:42-56 | no move ends that state, and only a report during a resize starts it |
| `Interlock.InterlockOverLife` | pkg/controller/replication/switchover.go:40-53 | over every life without such a report, resize and switchover are never both in progress |
| `Interlock.BothIsForever` | pkg/controller/storage/storage.go:42-48 | over every life of whole passes, reports and edits, once both are in progress both stay so |
| `Interlock.BlockedPassKeepsPrimary` | internal/controller/doltdb_controller.go:435-474 | a pass that would scale the recorded primary away, and grows no storage, changes neither the primary nor the StatefulSet |
| `PassOutcomes.BlockedPassAsksForPodZero` | internal/controller/doltdb_controller.go:466-473 | such a pass asks for pod 0 if it gets to the gate and the patch lands, and otherwise leaves the spec as it is |
| `PassOutcomes.StorageOpensIff` | pkg/controller/storage/storage.go:50-170 | when the Storage phase lets a pass go on: skipped, nothing to do, or through with a resize; never past a smaller size |
| `PassOutcomes.StatusSetsReady` | pkg/conditions/ready.go:81-116 | the Status phase finds a DoltDB ready if and only if its pods are and no update runs, and keeps quiet during a resize or a switch |
| `PassOutcomes.StatusSetsUpToDate` | pkg/controller/status/status.go:85-127 | up to date if all pods carry the update revision, updating if some do, an update pending if none does |
| `PassOutcomes.SwitchEndsIff` | pkg/controller/replication/controller.go:78-104 | a pass ends a switch in progress, recording the pod asked for, if and only if the spec is accepted and asks for another pod than the recorded one, nothing blocks, and the calls get through |
| `PassOutcomes.ReplicationBeginsSwitch` | pkg/controller/replication/controller.go:106-140 | at rest the Replication phase flags a switch if and only if the set is healthy, repair gets through, nothing resizes and the spec asks for another pod; it records that pod if the calls get through |
| `PassOutcomes.SwitchToItselfNeverEnds` | pkg/controller/replication/switchover.go:40-53 | over every life without edits and reports, a switch flagged while the recorded primary is the one asked for stays in progress |
| `PassOutcomes.LostSpecPatchSwitchesToItselfIff` | pkg/controller/replication/pod_readiness.go:91-100 | a report at rest leaves such a switch if and only if its status patch lands and its spec patch is lost |
| `Interlock.ScaleDownSparesPrimary` | internal/controller/doltdb_controller.go:435-474 | a scale-down that would take the recorded primary away is carried out if and only if the Storage phase does it; any other spares the primary |
| `Interlock.LosesPrimaryIff` | internal/controller/doltdb_controller.go:435-474 | a pass newly leaves a StatefulSet without room for the recorded primary if and only if the spec is accepted, asks for too few pods, and either storage grows as far as the creation or the StatefulSet is gone and gets created |
| `Interlock.GrowingStorageBypassesTheGate` | pkg/controller/storage/storage.go:50-130 | three pods scaled to two with storage growing lose primary pod 2 |
| `Interlock.LostStatefulSetBypassesTheGate` | internal/controller/doltdb_controller.go:443-446 | with the StatefulSet gone primary pod 2 loses its room without storage growing |
| `Interlock.BlockedScaleDownNeverProgresses` | internal/controller/doltdb_controller.go:140-158 | over every life without further edits the blocked scale-down stays blocked with the same primary |
| `Interlock.LostResizeNeverEnds` | pkg/controller/storage/storage.go:50-102 | a resize flagged in progress whose StatefulSet is gone or already of the new size stays in progress over every life without edits |
| `Interlock.StorageLosesResizeIff` | pkg/controller/storage/storage.go:80-102 | the Storage phase of a resize ends lost if and only if it is cut between the deletion and flagging the wait |
| `Interlock.CutResizeIsLost` | pkg/controller/storage/storage.go:80-130 | and so does the whole pass, if the spec is accepted |
| `Interlock.WaitingResizeEnds` | pkg/controller/storage/storage.go:132-170 | a pass ends a waiting resize if and only if the spec is accepted, earlier phases go on, no volume is resizing, the StatefulSet is there with all pods ready, and the closing patch lands |
| `Interlock.ResumedResizeEnds` | pkg/controller/storage/storage.go:50-170 | a resize cut before the deletion is taken up again and ends, if and only if the spec is accepted |
| `Backups.Execute` | pkg/controller/backup/backup.go:32-69 | succeeds exactly if the databases and the URL can be had and none fails; syncs them one by one in order, each under its stable name, all of them on success and those before the first failing one otherwise |
| `Backups.StableNames` | pkg/controller/backup/backup.go:71-77 | for one URL distinct databases have distinct names; names of equally long hashes agree exactly if database and hash of the URL do |
| `Backups.BackupReconciler.HasRunningBackup` | internal/controller/backup_controller.go:203-218 | true if and only if another backup of the same target is Running |
| `Backups.BackupReconciler.HandleFailure` | internal/controller/backup_controller.go:166-198 | counts the failure and fails the backup at the limit, each patch landing or not |
| `Backups.BackupReconciler.ExecuteBackup` | internal/controller/backup_controller.go:111-162 | no other backup changes; the outcome, with the failure handling that follows, is `AfterExecution` |
| `Backups.BackupReconciler.Reconcile` | internal/controller/backup_controller.go:38-77 | one reconcile takes the whole list to `ReconcileAt` |
| `BackupRuns.NeverTwoRunning` | internal/controller/backup_controller.go:63-77 | over every run, whatever calls fail, at most one backup of a target is Running |
| `BackupRuns.TerminalIsFinal` | internal/controller/backup_controller.go:47-50 | Completed and Failed backups never change |
| `BackupRuns.TurnOutcome` | internal/controller/backup_controller.go:38-198 | attempts, retries and phase after a turn, by what it meets: when it executes, when it completes, when the failure is counted and when it ends the backup, at 2 unless the spec sets a limit |
| `BackupRuns.CompletedHasSynced` | pkg/controller/backup/backup.go:32-69 | over every run, whatever calls fail: a backup that gets Completed did so in a turn of its own, which synced every database its spec names, or every one listed in that turn, one by one, under its stable name at its own URL |
| `BackupRuns.AccountedIff` | internal/controller/backup_controller.go:111-198 | an execution keeps attempts and failures in step if and only if it completes the backup or its failure gets recorded |
| `BackupRuns.AttemptsAreAccounted` | internal/controller/backup_controller.go:111-198 | while retry and failure patches land: attempts never exceed max(1, backoffLimit), Failed means exactly that many failures, Completed means every selected database was synced |
| `BackupRuns.AttemptsExceedByLossyTurns` | internal/controller/backup_controller.go:166-198 | over every run attempts exceed max(1, backoffLimit) by no more than the turns of that backup that lost a retry or failure patch |
| `BackupRuns.SomeBackupIsExecutable` | internal/controller/backup_controller.go:203-218 | no set of unfinished backups is deadlocked |
| `BackupRuns.TurnUsesAttempt` | internal/controller/backup_controller.go:38-77 | a reconcile of an executable backup lowers the attempts left; any other leaves them and keeps executable backups executable |
| `BackupRuns.RoundsDrain` | internal/controller/backup_controller.go:38-77 | as many rounds as attempts left, each reconciling every backup in any order, finish every backup |
| `BackupRuns.LostFailurePatchesRepeat` | internal/controller/backup_controller.go:182-193 | the bound is reached: with failure patches lost, a backup at its limit is executed in each of n turns, stays Running and blocks the others of its target |
| `BackupRuns.LandedFailurePatchEnds` | internal/controller/backup_controller.go:182-193 | until a failure patch lands, whose turn is the last attempt and ends it as Failed |
| `Schedule.Scheduler.Reconcile` | pkg/controller/backupschedule/backupschedule.go:35-112 | the new state is `Reconciled`; the delay after a creation ends exactly at the next tick, or after ten seconds if none is left, and an early reconcile waits for the due tick |
| `Schedule.BackupsNeverOutnumberTicks` | pkg/controller/backupschedule/backupschedule.go:35-89 | for an endless schedule, over any run with a clock that does not go back and landed patches, Backups never outnumber the ticks since creation, and creation times strictly increase |
| `Schedule.NeverOutnumbersIff` | pkg/controller/backupschedule/backupschedule.go:35-89 | that holds of every such run of a schedule if and only if the schedule is endless |
| `Schedule.DueIff` | pkg/controller/backupschedule/backupschedule.go:49-63 | a schedule is due if and only if a tick has come since its last time or none is left; the latter exactly if no tick has come |
| `Schedule.DryScheduleRepeats` | pkg/controller/backupschedule/backupschedule.go:59-112 | with no tick left, n wake-ups ten seconds apart make n Backups |
| `Schedule.DueCreates` | pkg/controller/backupschedule/backupschedule.go:60-77 | a schedule whose tick has come creates its Backup: the name is never taken |
| `Schedule.WakesAtNextTick` | pkg/controller/backupschedule/backupschedule.go:93-112 | after a creation the schedule is due again exactly from the next tick on, or at once if none is left |
| `Schedule.NextAfterTruncation` | pkg/controller/backupschedule/backupschedule.go:93-98 | storing whole seconds does not move the next tick |
| `Schedule.DueAgainIffPatchLost` | pkg/controller/backupschedule/backupschedule.go:79-88 | after a creation, and before the next tick, the schedule is due again if and only if the patch that records it was lost |
| `Schedule.BackupsExceedTicksByLostPatches` | pkg/controller/backupschedule/backupschedule.go:35-89 | for an endless schedule, over any run with a clock that does not go back, Backups exceed the ticks since creation by no more than the patches lost, and creation times strictly increase whatever is lost |
| `Schedule.LostPatchRepeatsATick` | pkg/controller/backupschedule/backupschedule.go:77-88 | with that patch lost a single tick makes two Backups a second apart |
| `Names.PodIndexOfPodName` | pkg/statefulset/statefulset.go:34-59 | the ordinal read from a printed pod name is the ordinal, for every cluster name, dashes included |
| `Names.AtoiOfNegative` | pkg/statefulset/statefulset.go:49-59 | a minus sign is read, down to the least 64-bit integer |
| `Names.AtoiOfPositive` | pkg/statefulset/statefulset.go:49-59 | a plus sign is read, up to the greatest one |
| `Names.PodNameInjective` | pkg/statefulset/statefulset.go:34-36 | distinct ordinals have distinct names |
| `Names.PodHostPrefixFree` | pkg/statefulset/statefulset.go:44-46 | a peer's host name starts another's only if they are the same pod |
| `Names.NameOrderIsOrdinalOrder` | pkg/health/health.go:233-237 | between ordinals of equal length, name order is ordinal order |
| `Names.TenSortsBeforeTwo` | pkg/health/health.go:233-237 | across lengths it is not |
| `Urls.HostnameOfHostPort` | pkg/dolt/sql/replication.go:123-129 | a port printed after a host comes off again |
| `Urls.HostnameOfBrackets` | pkg/dolt/sql/replication.go:123-129 | a host in brackets comes out of them, with or without a port |
| `ConfigMesh.GenerateStandbyRemotes` | pkg/dolt/generate.go:83-98 | the remotes of a pod are those of exactly the other ordinals, in order |
| `ConfigMesh.GenerateConfigMapData` | pkg/dolt/generate.go:21-80 | exactly one entry per pod under its own key; with replication on only ordinal 0 bootstraps as primary |
| `ConfigMesh.OthersAscend` | pkg/dolt/generate.go:83-98 | the peers come in ordinal order |
| `ConfigMesh.ConfigKeyInjective` | pkg/dolt/generate.go:21-80 | distinct pods have distinct keys |
| `ConfigMesh.ConfigKeyNamesThePod` | pkg/dolt/generate.go:77-77 | the key is a YAML file name from which the pod's ordinal can be read |
| `ConfigMesh.MeshIsComplete` | pkg/dolt/generate.go:83-98 | one pod is a remote of another exactly if they differ; each has N-1 remotes |
| `ConfigMesh.RemoteUrlNamesTheHost` | pkg/health/health.go:184-203 | the host of a remote URL is the name `StandbyHostFQDNs` gives that pod |
| `ConfigMesh.RemoteUrlNamesThePort` | pkg/dolt/generate.go:21-98 | its port is the one that pod's own configuration listens on, the spec's if set and 50051 otherwise |

## Left out

- The Kubernetes client, watches, predicates, metrics, events, logging and wiring. One key is never reconciled twice at once, as the controllers are set up.
- Stale informer caches: a pass reads the DoltDB and its pods as they are when it reads them.
- The SQL driver and Dolt itself: `AssumeRole` and `TransitionToStandby` are assumed contracts (a lower epoch is rejected, and so is another role at the same epoch). That Dolt may demote itself on its own, and that a volume may be lost, is not modelled.
- The epoch protocol has a fixed number of pods with replication enabled; scaling is in `Pipeline` and `Interlock`.
- RollingUpdate.Roller.GracefulPrimaryUpdate: states which pod is deleted; the roles and epochs it leaves are in `GracefulUpdate`, its label patches are not modelled. It records no primary, so it is not a step of `Protocol`, whose invariant speaks of the recorded one.
- An empty role text counts as no answer, and epochs are not negative.
- Operator.Reconciler.ReconcileWhileSwitching: no other controller moves within a pass, and readiness does not change during it; `Protocol` allows both.
- Operator.Reconciler.ReconcileAtRest: likewise.
- Progress.CompletesIff: the target is ready and answers, no resize is in progress, readiness and reachability stay the same over the uninterrupted passes, patches land, and who answers after the Status phase has answered in it. `BlockedForever` and `ChangeNeedsDrain` need none of this.
- BackupRuns.RoundsDrain: the target is ready and every call lands; how executions end is free.
- That a Backup is reconciled again after its status was patched: the runs of `BackupRuns` have whatever turns they have.
- Interlock.BothIsForever: lives consist of whole passes. Within a pass, a status patch that carries the pass's own condition list can drop a flag that another controller raised meanwhile; `Protocol` has that for the switching flag, `Interlock` does not.
- Interlock.InterlockOverLife: likewise.
- A timeout or a poll is a step that succeeds or fails; how long it takes is not modelled.
- Pod lists are sorted by insertion; the sorting algorithm of Go's library is not modelled.
- Times are integers; Go's zero time is 0 in `Freshness`, and a pod's timestamps there are not negative.
- SHA-256, YAML text and cron parsing: an arbitrary function, a value, and a `next` that returns the least tick after its argument or none; the parser's library gives up five years ahead.
- Names.PodIndexOfPodName: ordinals within the range of a 64-bit integer, which is all the parser reads.
- RestProgress.RestPassSwitchesIff: every pod is up and answers, as a pass at rest demands of the StatefulSet before it repairs or switches anything.
- ConfigMesh.RemoteUrlNamesThePort: for ports up to 65535, which is all there are.
- ConfigMesh.RemoteUrlNamesTheHost: for hosts made of the characters of DNS names, as Kubernetes demands of object names.
- The contents of StatefulSets, Services, PodDisruptionBudgets, RBAC objects and containers, but for replicas, storage size and the primary Service's selector.
- S3 credentials of backups: an execution that cannot have them is one that does not connect.
- Database, User, Grant and Snapshot objects, their reconcilers and the SQL finalizer.
