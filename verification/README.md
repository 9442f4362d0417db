# Verified model of virtrigaud's control plane

virtrigaud drives virtual machines on several hypervisors from Kubernetes objects. This project
models the parts of it where correctness is a property of whole runs rather than of one call, and
proves those properties in Dafny 4.11:

- **Migration** of a VM between providers: an eleven-phase state machine over a persisted status,
  with an in-memory guard, nondeterministic provider calls, retries with backoff, crashes, lost
  status writes, stale reads and deletion.
- **Clone, VirtualMachine and VMImage controllers** sharing objects in a store that accepts an
  update only for the current version, while reads come from caches of any age.
- **Circuit breaker** whose calls overlap, so that a result may arrive in a later state than the
  one that admitted the call.
- **PVC staging store**: chunked copies with an in-stream checksum, and the addresses migrations
  stage their disks under.

`dafny verify dfyconfig.toml` checks everything.

## How it is organised

Code that updates state step by step is modelled as classes and methods, proved against
specification functions; the run-level properties are proved about those functions.

| file | content |
|---|---|
| `MigrationPlan.dfy`, `MigrationReconciler.dfy` | what each phase handler issues, as a function and as the imperative handlers |
| `MigrationShape.dfy`, `MigrationWorld.dfy` | the footprint of every handler; runs with crashes, lost writes and stale reads |
| `MigrationTasks.dfy` | operations that finish later: what counts as success, and which runs build on success only |
| `MigrationStaging.dfy`, `MigrationSourceDeletion.dfy`, `MigrationSnapshots.dfy`, `MigrationPower.dfy`, `MigrationTermination.dfy`, `MigrationCleanup.dfy` | one run-level property each |
| `MigrationRetry.dfy`, `MigrationContinuations.dfy` | what a failed state, a recorded transfer, a stale read or a claimed target name decides about every run that continues from it |
| `MigrationDrive.dfy`, `MigrationLimits.dfy` | building runs step by step; runs in which a hypothesis fails and the property with it |
| `MigrationGuard.dfy` | unserialized reconciles racing for the duplicate-call guard |
| `RetryBackoff.dfy` | the 64-bit backoff loop |
| `CircuitBreaker.dfy`, `BreakerRuns.dfy`, `BreakerSequential.dfy` | the breaker, its interleavings, its sequential meaning |
| `CloneController.dfy`, `CloneRuns.dfy`, `CloneOnce.dfy` | the clone reconciler as an automaton over API calls, its interleavings, how often it clones |
| `VirtualMachine.dfy`, `VmConvergence.dfy` | one VM reconcile; repeated reconciles against a correct provider |
| `ImagePrepare.dfy`, `ImageRuns.dfy`, `ImageTasks.dfy`, `CreateFromImage.dfy` | preparing a shared image, concurrent writers, whose task is on record, creating from what was prepared |
| `PvcStorage.dfy`, `StagedFile.dfy` | the staging store; where a migration's disk lands in it |

Provider RPCs, Kubernetes lookups, clocks and checksums are parameters: every answer they can give
is covered, including errors. Conditions are modelled by type and value; messages, events, metrics
and requeue intervals are not.

## Properties that do not hold as one might expect

Each is kept as the code has it, with an input or a run that shows it and the exact condition. The
migration runs exist for every specification of a simple kind; `MigrationLimits.DemoIsTypical`
and `DemoToPowerOff` give one.

- A retry forgets the task it polled but not the operation it belonged to. An export or import whose
  task failed is then taken as done: it is imported (`MigrationLimits.FailedExportIsImported`), or
  attached and the source deleted (`FailedImportDeletesSource`). After a retry an operation is issued
  again if and only if neither status nor guard knows of it (`ExportsAgainIff`, `ImportsAgainIff`). In
  every continuation of a Failed state an operation its status knows of is never issued again, and
  everything that builds on it builds on success if and only if the operation had succeeded when the
  migration failed (`MigrationRetry.RetryDecides`). Without such a retry every run builds on success
  only (`MigrationTasks.BuildsOnSuccess`).
- If the status write that records an accepted export or import is lost while the process lives, the
  guard alone carries the migration on (`MigrationLimits.LostExportRecordBreaksStaging`,
  `LostImportRecordDeletesSource`). In every continuation the property survives if and only if what is
  on record already equals the lost answer (`LostExportDecides`, `LostImportDecides`). A crash, which
  also loses the guard, is safe.
- A VM that already bears the target's name is taken for the target
  (`MigrationLimits.ClaimedNameDeletesSource`). In every continuation in which nobody removes it,
  deleting the source is justified if and only if that VM is attached to the disk imported last
  (`MigrationContinuations.ClaimedNameDecides`).
- A process that reads an object from before the export may export again
  (`MigrationLimits.StaleReadBreaksStaging`). In every continuation with fresh reads an import reads the
  last export as it should if and only if that export returned the checksum on record
  (`MigrationContinuations.StaleReadDecides`).
- A VirtualMachine pass that read the old desired power state before the migration changed it may
  power the source on again before the export (`MigrationLimits.StalePassExportsHot`). When Validating
  is left, a hot export is possible if and only if a pass that intends On is outstanding
  (`MigrationPower.OutstandingPassDecides`).
- The backoff loop multiplies in 64 bits. It yields the documented delay if and only if the product
  fits, or is too large to fit and its low 64 bits stand for a delay beyond the cap
  (`RetryBackoff.DelayIsExactIff`). The CRD's bounds admit inputs with a negative delay
  (`RetryBackoff.CrdBoundsAllowNegativeDelay`).
- Closing a half-open breaker counts admissions, not successes. All probes succeeded if and only
  if none is still in flight (`BreakerRuns.ClosingCertifiesIff`, `ClosesOnOneSuccessOfTwo`).
- With HalfOpenMaxCalls below one an Open breaker recovers only through the late success of a call
  still in flight; with none in flight it never does (`BreakerRuns.OpensAgainIff`).
- All providers of an image share one task reference. A provider may be marked available although
  PrepareImage was never called on it (`ImageTasks.AvailableUncalled`), if and only if the version it
  decided on carries a task that another provider's import set (`ImageTasks.AdoptsIff`). The comment that
  a task is always polled on the provider that triggered it (`virtualmachine_image_prepare.go:187-189`)
  does not hold for a second provider.
- A clone whose Clone answer is lost before it is persisted, by a crash or by a failed write, is
  cloned again (`CloneOnce.LostAnswerClonesAgain`, `ClonedTwice`); otherwise it is cloned at most once
  (`CloneOnce.ClonedAtMostOnce`).
- A VM settles if and only if its desired power is On or Off and it exists or can be created
  (`VmConvergence.ConvergesInTwo`, `OtherwiseNeverSettles`); a desired `OffGraceful` is requested for
  ever (`GracefulOffRepeats`).
- Ready is withdrawn if and only if something fails (`VirtualMachine.ReadyWithdrawnIff`). A missing
  machine is no failure: a VM that vanishes and cannot be recreated keeps its Ready condition
  (`VmConvergence.VanishedKeepsReady`, `ReadyNeverWithdrawn`).
- `parsePath` documents `path` as an accepted form. The code accepts an address if and only if, without
  its scheme, it has a slash and no two dots in a row (`StagedFile.AcceptedIff`, `BarePathIsRefused`).

The terminal-failure snapshot cleanup of the Failed handler is modelled but never reached from
Reconcile, which ignores exhausted migrations first; `MigrationShape.PlanHasShape` shows that a
reconcile in the Failed phase either does nothing or retries.

## Model

| member | source | states |
|---|---|---|
| MigrationStaging.StagingIntegrity | internal/controller/vmmigration_controller.go:713-933 | in every run with fresh reads, with crashes, restarts, retries, deletion and lost writes (except the one recording an accepted export), in which no retry is taken over an export whose success is not on record: each ImportDisk reads the address the latest ExportDisk wrote, expects its checksum, and that export has succeeded, at once or by a reported task |
| MigrationStaging.ImportsReadLastExport | internal/controller/vmmigration_controller.go:743-933 | without the condition on retries: each ImportDisk reads the address and expects the checksum of the latest ExportDisk, which was accepted |
| MigrationTasks.BuildsOnSuccess | internal/controller/vmmigration_controller.go:759-781 | in such runs no import of an open or failed export, no target attached to an open or failed import, and no source deleted for one |
| MigrationTasks.TaskInvariant | internal/controller/vmmigration_controller.go:755-802 | every reachable state that confirms an operation follows its success, and every other state that knows of it polls its own task |
| MigrationCleanup.NoTransferAfterRemoval | internal/controller/vmmigration_controller.go:2729-2790 | with fresh reads no ExportDisk or ImportDisk follows the removal of the staged object or of its volume |
| MigrationStaging.StagingInvariant | internal/controller/vmmigration_controller.go:979-1145 | every reachable state that claims an export carries the address and checksum of the latest accepted one |
| MigrationSourceDeletion.SourceDeletionSafe | internal/controller/vmmigration_controller.go:1467-1533 | every deletion of the source was requested and follows an observation of a Ready target attached to the disk id, path and native format of the latest ImportDisk, and that import has succeeded, provided no retry is taken over an import whose success is not on record |
| MigrationSourceDeletion.DeletionsFollowReadyTarget | internal/controller/vmmigration_controller.go:1467-1533 | without the condition on retries: the same for the latest accepted ImportDisk |
| MigrationSourceDeletion.DeletionInvariant | internal/controller/vmmigration_controller.go:1147-1464 | every reachable state past import records the disk of the latest accepted import, and an existing target attaches it |
| MigrationSnapshots.SnapshotOwnership | internal/controller/vmmigration_controller.go:2793-2875 | with arbitrarily stale reads and any ending, every SnapshotDelete names an id an earlier SnapshotCreate of this migration returned; none is issued for a user snapshot or CleanupPolicy Never |
| MigrationPower.ExportsAreCold | internal/controller/vmmigration_controller.go:485-592 | in every interleaving with the VM controller in which no pass that intends On is outstanding when Validating is left, every ExportDisk is issued with the source Off |
| MigrationPower.AtomicExportsAreCold | internal/controller/virtualmachine_controller.go:355-364 | with atomic reconciles of both controllers every export is cold, with no further condition |
| MigrationPower.OutstandingPassDecides | internal/controller/virtualmachine_controller.go:603-639 | when Validating is left, with or without a snapshot ahead, some continuation with fresh reads exports a running VM if and only if a pass that intends On, having read or acting, is outstanding |
| MigrationPower.ChilledForever | internal/controller/virtualmachine_controller.go:355-364 | with the source off and no such pass, no run at all, stale reads included, exports it running |
| MigrationLimits.StalePassExportsHot | internal/controller/vmmigration_controller.go:533-592 | every migration of a running source that is to be powered off first has a run with fresh reads in which an outstanding pass powers it on before the export |
| MigrationLimits.LostExportRecordBreaksStaging | internal/controller/vmmigration_controller.go:864-922 | every typical migration has a run in which losing the record of its export leads to an import without its checksum |
| MigrationLimits.LostExportDecides | internal/controller/vmmigration_controller.go:755-803 | for every specification and world: after such a loss, in every continuation with fresh reads, every import reads the last export as it should if and only if the checksum on record is the one the lost answer brought |
| MigrationLimits.LostImportRecordDeletesSource | internal/controller/vmmigration_controller.go:1129-1181 | every typical migration has a run in which losing the record of its import ends with the source deleted and a target attached to no imported disk |
| MigrationLimits.LostImportDecides | internal/controller/vmmigration_controller.go:1003-1050 | for every specification and world: after such a loss, in every continuation with fresh reads, every target created is attached to the disk landed last, and every deletion of the source is justified, if and only if the disk on record is the one the lost answer announced |
| MigrationLimits.ClaimedNameDeletesSource | internal/controller/vmmigration_controller.go:1249-1268 | every migration that deletes its source and whose target's name is taken by a Ready VM has a run, losing no write, that deletes the source unjustifiedly |
| MigrationContinuations.ClaimedNameDecides | internal/controller/vmmigration_controller.go:1249-1268 | with the target's name taken and the recorded import not yet observed, in every continuation that does not remove that VM every deletion of the source is justified if and only if the VM is attached to the disk landed last |
| MigrationContinuations.ImportRecordDecides | internal/controller/vmmigration_controller.go:1249-1330 | in every continuation of a state whose status knows of an import, every target created attaches the disk landed last, and every deletion of the source is justified, if and only if the disk on record is the disk landed last |
| MigrationLimits.StaleReadBreaksStaging | internal/controller/vmmigration_controller.go:2610-2656 | every simple migration has a run in which a stale read after a restart exports again and the import expects the checksum of the replaced export |
| MigrationContinuations.StaleReadDecides | internal/controller/vmmigration_controller.go:2610-2656 | once a stale read has exported again without its record landing, in every continuation with fresh reads every import reads the last export as it should if and only if that export returned the checksum on record |
| MigrationContinuations.RecordDecides | internal/controller/vmmigration_controller.go:755-803 | in every continuation with fresh reads of any state whose status knows of an export, every import reads the last export as it should if and only if that status carries the address and checksum of the last export, which was accepted |
| MigrationLimits.FailedExportIsImported | internal/controller/vmmigration_controller.go:1606-1633 | every typical migration has a run, losing no write, with an ImportDisk at which the export is still open and the failure of its task was reported before |
| MigrationLimits.FailedImportDeletesSource | internal/controller/vmmigration_controller.go:1606-1633 | every typical migration to an unclaimed name has a run, losing no write, with a DeleteSource at which the import is still open and the failure of its task was reported before |
| MigrationLimits.ExportsAgainIff | internal/controller/vmmigration_controller.go:755-757 | after a retry the Exporting pass exports again if and only if neither status nor guard knew of an export |
| MigrationLimits.ImportsAgainIff | internal/controller/vmmigration_controller.go:1003-1005 | the same for imports |
| MigrationRetry.NeverReissued | internal/controller/vmmigration_controller.go:755-757 | with fresh reads an operation the status knows of is never issued again, whatever became of its task |
| MigrationRetry.NothingLearntAfterFailure | internal/controller/vmmigration_controller.go:1606-1633 | in every continuation of a Failed state, until the operation is issued again it is at every moment as finished as it was when the migration failed |
| MigrationRetry.RetryDecides | internal/controller/vmmigration_controller.go:1617-1618 | in every continuation of a Failed state whose status knows of an operation, it is never issued again and every effect that builds on it finds it finished if and only if it was finished when the migration failed |
| MigrationTermination.MigrationTerminates | internal/controller/vmmigration_controller.go:242-302 | RetryCount is the number of Failed to Pending steps and within the limit, and the number of phase changes is bounded by the lexicographic measure |
| MigrationTermination.LinkDecreases | internal/controller/vmmigration_controller.go:1783-1807 | every phase change strictly decreases (retries left, phase rank) |
| MigrationTermination.HistoryIsLinked | internal/controller/vmmigration_controller.go:305-521 | every persisted status follows from the one before it by a legal transition |
| MigrationTermination.TerminalAbsorbs | internal/controller/vmmigration_controller.go:252-272 | Ready and exhausted Failed keep their phase for ever, and an exhausted Failed status is never written again |
| MigrationTermination.RetriesAreSpaced | internal/controller/vmmigration_controller.go:1588-1609 | consecutive retries are recorded at least the backoff delay apart |
| MigrationShape.PlanHasShape | internal/controller/vmmigration_controller.go:190-302 | for every object read, guard, view and answer, what a reconcile issues has the footprint of its phase |
| MigrationReconciler.Reconciler.Reconcile | internal/controller/vmmigration_controller.go:190-302 | a reconcile issues exactly the effects of its plan in order and leaves the guard as those effects say |
| MigrationReconciler.Reconciler.HandleValidating | internal/controller/vmmigration_controller.go:327-521 | the Validating handler issues its plan, recording the claim's name before anything else |
| MigrationReconciler.Reconciler.EnsurePowerAndLeave | internal/controller/vmmigration_controller.go:485-592 | patch, power off and wait as asked, or leave Validating |
| MigrationReconciler.Reconciler.HandleSnapshotting | internal/controller/vmmigration_controller.go:595-711 | the Snapshotting handler issues its plan |
| MigrationReconciler.Reconciler.HandleExporting | internal/controller/vmmigration_controller.go:713-933 | the Exporting handler issues its plan and leaves the guard set exactly for an export that did not fail |
| MigrationReconciler.Reconciler.HandleImporting | internal/controller/vmmigration_controller.go:979-1225 | the Importing handler issues its plan and leaves the guard set exactly for an import that did not fail |
| MigrationReconciler.Reconciler.FollowTask | internal/controller/vmmigration_controller.go:758-784 | polls the recorded task and waits, fails or goes on, as the plan says |
| MigrationReconciler.GuardAfterIsApplied | internal/controller/vmmigration_controller.go:127-137 | the guard a reconcile leaves behind is the one its effects have in a run |
| MigrationReconciler.Reconciler.HandleCreating | internal/controller/vmmigration_controller.go:1227-1382 | the Creating handler issues its plan |
| MigrationReconciler.Reconciler.HandleValidatingTarget | internal/controller/vmmigration_controller.go:1385-1464 | the ValidatingTarget handler issues its plan |
| MigrationReconciler.Reconciler.HandleReady | internal/controller/vmmigration_controller.go:1467-1533 | the Ready handler issues its plan: cleanup, then source deletion, then the record |
| MigrationReconciler.Reconciler.HandleFailed | internal/controller/vmmigration_controller.go:1536-1633 | the Failed handler issues its plan, with the delay computed by the loop |
| MigrationReconciler.Reconciler.HandleDeletion | internal/controller/vmmigration_controller.go:1664-1780 | deletion issues its plan |
| MigrationReconciler.Reconciler.DeleteSourceSnapshot | internal/controller/vmmigration_controller.go:2799-2875 | the delete request names the recorded snapshot and success is reported exactly when it went through |
| MigrationReconciler.Reconciler.TransitionToFailed | internal/controller/vmmigration_controller.go:1783-1807 | persists the failed status with its two conditions |
| MigrationGuard.OneInFlight | internal/controller/vmmigration_controller.go:864-883 | for any number of unserialized reconciles with arbitrarily stale reads, at most one has a given operation in flight |
| MigrationGuard.SuccessIsFinal | internal/controller/vmmigration_controller.go:743-758 | after an operation succeeded nothing is issued for it again in this process, so it succeeds at most once |
| MigrationGuard.ReissueFollowsError | internal/controller/vmmigration_controller.go:1129-1145 | between two calls for one operation lies the error of the first |
| MigrationGuard.GuardedIff | internal/controller/vmmigration_controller.go:127-137 | the guard holds an entry exactly while a reconcile owns the operation or once it has succeeded |
| MigrationGuard.KeysDistinguish | internal/controller/vmmigration_controller.go:115-122 | two operations share a guard key exactly when UID, generation and operation agree |
| RetryBackoff.ComputeDelay | internal/controller/vmmigration_controller.go:1567-1587 | the loop yields the wrapped, capped power |
| RetryBackoff.DelayIsExactIff | internal/controller/vmmigration_controller.go:1578-1587 | the delay is min(30 min, base * multiplier^RetryCount) if and only if the product fits 64 bits, or exceeds them with low 64 bits that stand for a delay beyond the cap |
| RetryBackoff.DelayMonotone | internal/controller/vmmigration_controller.go:1578-1587 | below 2^63 the delay does not decrease with RetryCount |
| RetryBackoff.DefaultsAreExact | api/infra.virtrigaud.io/v1beta1/vmmigration_types.go:170-189 | with the default base and multiplier the delay is exact for every retry count the CRD admits |
| RetryBackoff.CrdBoundsAllowNegativeDelay | api/infra.virtrigaud.io/v1beta1/vmmigration_types.go:170-189 | inputs within the CRD's bounds for which the loop yields a negative delay |
| CircuitBreaker.CircuitBreaker.constructor | internal/resilience/circuitbreaker.go:84-100 | a new breaker is Closed with its counters at zero and the default configuration if none is given |
| CircuitBreaker.CircuitBreaker.AllowCall | internal/resilience/circuitbreaker.go:132-158 | new state and admission are those of the specification step |
| CircuitBreaker.CircuitBreaker.RecordResult | internal/resilience/circuitbreaker.go:161-213 | the new state is that of the specification step |
| CircuitBreaker.CircuitBreaker.Reset | internal/resilience/circuitbreaker.go:263-267 | Reset closes the breaker and keeps the last failure time |
| CircuitBreaker.CircuitBreaker.Call | internal/resilience/circuitbreaker.go:103-129 | a call that overlaps no other admits, runs and records, or is refused and changes nothing more |
| BreakerRuns.BreakerInvariant | internal/resilience/circuitbreaker.go:132-246 | in every interleaving: Closed iff failures are below the threshold, half-open admissions in 1..max and zero elsewhere, every probe of the window accounted for, and a full window with a probe in flight |
| BreakerRuns.NoWedge | internal/resilience/circuitbreaker.go:132-213 | from every reachable state late calls are admitted, at once or after any outcome of a probe in flight |
| BreakerRuns.OpensAgainIff | internal/resilience/circuitbreaker.go:139-210 | from every system with the breaker Open some run without resets admits a call again if and only if HalfOpenMaxCalls is positive or a call is in flight |
| BreakerRuns.ClosingCertifiesIff | internal/resilience/circuitbreaker.go:196-213 | on closing, all probes of the window have succeeded if and only if none is in flight |
| BreakerRuns.ClosesOnOneSuccessOfTwo | internal/resilience/circuitbreaker.go:196-202 | a run that closes on one success while the other probe is still out |
| BreakerRuns.LoadShedding | internal/resilience/circuitbreaker.go:132-246 | from opening at t0 until closing or reset, the k-th window starts later than t0 + k * ResetTimeout and at most HalfOpenMaxCalls * floor(T / ResetTimeout) calls are admitted by t0 + T |
| BreakerRuns.OpeningIsJustOpened | internal/resilience/circuitbreaker.go:179-193 | every result that opens the breaker puts it in the state the bound starts from |
| BreakerSequential.SequentialRefinement | internal/resilience/circuitbreaker.go:103-233 | for non-overlapping calls the breaker is a fold over the call history of a three-mode reference |
| BreakerSequential.OpensAtThreshold | internal/resilience/circuitbreaker.go:179-193 | a new breaker opens exactly at FailureThreshold failures in a row |
| BreakerSequential.ClosesAfterProbes | internal/resilience/circuitbreaker.go:196-202 | it closes exactly at HalfOpenMaxCalls successes in a row |
| BreakerSequential.ReopensOnFailure | internal/resilience/circuitbreaker.go:187-189 | any failure among the probes reopens it, timed from that failure |
| BreakerSequential.RejectsWithinTimeout | internal/resilience/circuitbreaker.go:139-146 | attempts within the timeout are refused and change nothing |
| CloneRuns.NoDoubleCreate | internal/controller/vmclone_controller.go:383-511 | in every interleaving of both controllers over the versioned store, with stale reads and spec edits: no provider Create for the target, every version of the target has an empty id or TargetVMID, and Ready implies the target carries it |
| CloneRuns.NothingTakenBack | internal/controller/virtualmachine_controller.go:1065-1069 | between any two points of a run TargetVMID, the target's id and a Ready or Failed verdict stay as they are |
| CloneRuns.AlwaysAdopted | internal/controller/vmclone_controller.go:450-454 | the target is adopted whatever labels are requested, and keeps the other labels |
| CloneOnce.ClonedAtMostOnce | internal/controller/vmclone_controller.go:158-264 | with serialized fresh reads and non-empty ids, Clone is called at most once however often reconciles crash or lose writes, unless the provider's answer itself is lost before it is persisted |
| CloneOnce.PartialBindResumes | internal/controller/vmclone_controller.go:239-248 | from any interrupted state with a recorded target id one undisturbed reconcile seeds the target, marks the clone Ready and does not clone again |
| CloneOnce.LostAnswerClonesAgain | internal/controller/vmclone_controller.go:305-325 | in every orderly state with the provider's answer not yet persisted, any crash or failed write that loses it lets the next reconcile call Clone once more |
| CloneOnce.ClonedTwice | internal/controller/vmclone_controller.go:305-325 | a run from a new clone with two Clone calls |
| CloneController.CloneReconciler.Reconcile | internal/controller/vmclone_controller.go:113-264 | a reconcile holds only conversations the automaton allows, beginning with its read and ending at rest |
| CloneController.CloneReconciler.StartClone | internal/controller/vmclone_controller.go:267-335 | continues such a conversation from the Clone call: persist before binding |
| CloneController.CloneReconciler.PollCloneTask | internal/controller/vmclone_controller.go:339-369 | continues it from an outstanding task |
| CloneController.CloneReconciler.BindTargetVm | internal/controller/vmclone_controller.go:383-439 | continues it from a recorded id: find or create the target, seed, finish |
| CloneController.CloneReconciler.SeedStatusId | internal/controller/vmclone_controller.go:418-435 | the bounded conflict-retry loop; true exactly when the target was seen or written with the id |
| CloneController.CloneReconciler.MarkFailed | internal/controller/vmclone_controller.go:564-579 | ends the conversation by persisting Failed, whether or not that works |
| CloneController.CloneReconciler.FinalizeReady | internal/controller/vmclone_controller.go:491-511 | ends it by persisting Ready |
| VirtualMachine.VmReconciler.Reconcile | internal/controller/virtualmachine_controller.go:165-384 | a reconcile issues the calls of its plan and persists its status |
| VirtualMachine.VmReconciler.DriveVm | internal/controller/virtualmachine_controller.go:312-384 | the part after the task checks does the same |
| VirtualMachine.VmReconciler.CreateVm | internal/controller/virtualmachine_controller.go:539-600 | creates only with exactly one disk source, and records id and resources |
| VirtualMachine.VmReconciler.AdjustPowerState | internal/controller/virtualmachine_controller.go:603-639 | one power call for a known state, none otherwise |
| VirtualMachine.VmReconciler.ReconfigureVm | internal/controller/virtualmachine_controller.go:1118-1163 | one reconfigure call, recorded as done or as a task |
| VirtualMachine.VmReconciler.UpdateCurrentResources | internal/controller/virtualmachine_controller.go:1166-1185 | the tracked resources are the desired ones, so no reconfigure is needed afterwards |
| VirtualMachine.CreateIssuedIff | internal/controller/virtualmachine_controller.go:302-339 | a reconcile calls Create if and only if the guards say so: prepared, no task, not adopted without id or denied by Describe, exactly one disk source |
| VirtualMachine.IdKeptUnlessAbsent | internal/controller/virtualmachine_controller.go:312-339 | an adopted VM, or one Describe does not deny, keeps its id and is not created |
| VmConvergence.ConvergesInTwo | internal/controller/virtualmachine_controller.go:312-384 | from any persisted status a convergent VM is settled after two reconciles, Ready from the third on, and the provider is never touched again |
| VmConvergence.OtherwiseNeverSettles | internal/controller/virtualmachine_controller.go:355-364 | without the condition no number of reconciles settles it |
| VmConvergence.SettledForever | internal/controller/virtualmachine_controller.go:366-384 | once settled, later reconciles only look and keep it Ready |
| VmConvergence.SettledIff | internal/controller/virtualmachine_controller.go:1072-1099 | settled means exactly: the machine exists, is in the desired power state and needs no reconfigure |
| VmConvergence.ResizedOnce | internal/controller/virtualmachine_controller.go:1072-1163 | a settled VM whose class changes is reconfigured if and only if its tracked resources no longer fit, and one reconcile settles it again |
| VmConvergence.GracefulOffRepeats | internal/controller/virtualmachine_controller.go:612-620 | a desired OffGraceful is requested again by every reconcile |
| VirtualMachine.ReadyWithdrawnIff | internal/controller/virtualmachine_controller.go:165-384 | a reconcile reports a Ready VM not ready if and only if a dependency, the provider or the image fails, or Describe or the power call does |
| VmConvergence.ReadyNeverWithdrawn | internal/controller/virtualmachine_controller.go:312-384 | against a correct provider Ready, once reported, is never withdrawn, whatever becomes of the machine |
| VmConvergence.VanishedKeepsReady | internal/controller/virtualmachine_controller.go:335-339 | a VM that vanished and cannot be recreated loses its id and keeps its Ready condition |
| ImagePrepare.ImageHandle.EnsureImageOnProvider | internal/controller/virtualmachine_image_prepare.go:85-285 | verdict, prepare calls and the caller's copy of the status are those of the decision and of the committed write |
| ImagePrepare.ImageHandle.WriteImageStatus | internal/controller/virtualmachine_image_prepare.go:443-463 | the retry loop commits the change or reports failure, and mirrors the committed status |
| ImagePrepare.ImageHandle.MarkPrepared | internal/controller/virtualmachine_image_prepare.go:384-432 | success makes the provider available and lists it |
| ImagePrepare.AppendDedup | internal/controller/virtualmachine_image_prepare.go:466-473 | appends a missing element and nothing else |
| ImagePrepare.CommitsWhatItReRead | internal/controller/virtualmachine_image_prepare.go:448-456 | a write commits if and only if some attempt is accepted after conflicts only, and then commits the change applied to what that very attempt read |
| ImagePrepare.ProceedMeansAvailable | internal/controller/virtualmachine_image_prepare.go:128-285 | an import-style image is let through only with the provider available; OnMissing Fail and Wait never let it through |
| ImagePrepare.RequestConsumesLocation | internal/controller/virtualmachine_controller.go:1028-1062 | the request names the recorded location without the URL exactly when the entry is available and records one |
| ImageRuns.WritesAreSerial | internal/controller/virtualmachine_image_prepare.go:434-463 | for any number of writers every version is the fold of the committed changes in commit order |
| ImageRuns.SharedImageLosesNothing | internal/controller/virtualmachine_image_prepare.go:384-473 | in every version each provider's entry is what its own commits alone would make it, available providers are listed without duplicates, and Ready implies an available provider |
| ImageRuns.EntryIgnoresOthers | internal/controller/virtualmachine_image_prepare.go:234-266 | other providers' changes leave a provider's entry as it is |
| ImageRuns.EntryHasOrigin | internal/controller/virtualmachine_image_prepare.go:384-415 | a provider is available only after a prepare was committed for it, and its recorded id and path each come from a commit for it |
| ImageRuns.PreparedStaysAvailable | internal/controller/virtualmachine_image_prepare.go:391-412 | a prepared provider stays available until a new import is started for that same provider |
| ImageTasks.UncalledMeansForeignTask | internal/controller/virtualmachine_image_prepare.go:190-219 | in every interleaving a provider available without a PrepareImage call on it was marked after another provider's task had been on record |
| ImageTasks.AdoptsIff | internal/controller/virtualmachine_image_prepare.go:190-219 | in every reachable state a reconcile marks a provider not called before without calling it if and only if the version it read carries a task set by another provider |
| ImageTasks.AvailableUncalled | internal/controller/virtualmachine_image_prepare.go:190-219 | for every image to be imported and every two providers there is a run in which one becomes available although only the other was called |
| CreateFromImage.CreateWaitsForPreparedImage | internal/controller/virtualmachine_controller.go:224-252 | for an import-style source on a capable provider Create is issued only with the entry available, naming the recorded path or template with the URL cleared |
| CreateFromImage.CreateNamesCommittedLocation | internal/controller/virtualmachine_controller.go:860-873 | in every run of the shared image, a Create from an import-style source follows a committed prepare for its provider and names a location a commit for that provider recorded |
| CreateFromImage.CreateUsesWhatPrepareReturned | internal/controller/virtualmachine_controller.go:860-873 | the location a synchronous prepare returned is the one the same reconcile creates from |
| CreateFromImage.HeldUntilPrepared | internal/controller/virtualmachine_image_prepare.go:148-185 | with OnMissing Fail or Wait the reconcile issues nothing and only reports not ready |
| PvcStorage.CopyLoop | internal/storage/pvc.go:180-222 | for every chunking, short write and error the loop lands, counts and hashes what the specification says |
| PvcStorage.CopySucceedsIff | internal/storage/pvc.go:180-222 | a copy succeeds if and only if the reader ends cleanly and every chunk is taken in full, and then lands the whole content |
| PvcStorage.CopyLandsPrefix | internal/storage/pvc.go:180-222 | whatever goes wrong the destination holds a prefix of the content |
| PvcStorage.PvcStore.Upload | internal/storage/pvc.go:107-254 | files and answer after an upload are those of the specification |
| PvcStorage.PvcStore.Download | internal/storage/pvc.go:257-402 | delivered bytes and answer are those of the specification |
| PvcStorage.UploadStoresContentIff | internal/storage/pvc.go:107-254 | exactly when an upload succeeds, and that it then stores the content, its length and its checksum and touches no other file |
| PvcStorage.FailedUploadLeaves | internal/storage/pvc.go:186-243 | a failed upload leaves the files alone, removes the file on a checksum mismatch, or leaves a prefix in it |
| PvcStorage.RoundTrip | internal/storage/pvc.go:257-402 | a verified download of an uploaded address with the reported checksum succeeds and yields the uploaded bytes, for every chunking on both sides |
| PvcStorage.VerifiedDownloadCertifies | internal/storage/pvc.go:381-392 | a verified success carries the expected checksum, so it delivers the original bytes or a collision with them; a mismatch is reported only for other bytes |
| StagedFile.StagedUrlResolves | internal/controller/vmmigration_controller.go:2668-2683 | the address a PVC-staged migration builds resolves to one file below any mount |
| StagedFile.StagedFilesDistinct | internal/controller/vmmigration_controller.go:2668-2683 | two migrations share a staged file below a mount if and only if they are the same object |
| StagedFile.ResolvedBelowMount | internal/storage/pvc.go:525-561 | every accepted address resolves below the mount and contains no parent reference |
| StagedFile.AcceptedIff | internal/storage/pvc.go:525-561 | an address is accepted if and only if, without its scheme, it has a slash and no two dots in a row, and resolves to what follows the first slash |
| StagedFile.BarePathIsRefused | internal/storage/pvc.go:523-524 | the documented form without a slash is refused |

## Left out

- `cmd/*`, scaffolding, configuration parsing and conformance stubs: no state worth a property.
- Provider implementations, gRPC, TLS, metrics, logging and events: providers are a nondeterministic environment.
- `internal/storage/s3.go` and the NFS client: only the address of the staged object is modelled; the NFS address is a fixed value of the specification, since its flat key is not injective.
- SHA-256 and the file system: the checksum is a function parameter and files are a map from path to bytes; a file and a directory of the same name are not told apart.
- `internal/resilience/retry.go`, `internal/util/backoff.go`: simple loops over floating-point delays.
- The breaker registry: a map of independent breakers.
- The breaker's failure counter is an unbounded integer; overflow of a 64-bit counter is not modelled.
- `vmsnapshot_controller.go`, `vmadoption_controller.go` and the stub reconcilers (VMSet, VMClass, VMNetworkAttachment).
- `buildCreateRequest` except for the image location: a field-by-field copy.
- Deletion of VirtualMachine objects and the finalizer of the VM controller: the clone runs assume that the target object is not deleted.
- MigrationStaging.StagingIntegrity: assumes fresh reads, because `updateStatus` copies a stale status over a fresh object on conflict, and excludes retries over an unconfirmed export, after which it fails. A crash falls between effects: one during ExportDisk, with the provider still writing, appears as a crash before or after the call.
- MigrationSourceDeletion.SourceDeletionSafe: assumes that nobody else creates the target's name, because an existing VM of that name is accepted without an ownership check, and excludes retries over an unconfirmed import, after which it fails.
- MigrationPower.OutstandingPassDecides: assumes that target and source have different names.
- MigrationPower.ExportsAreCold: the VM controller's pass over the source is reduced to reading the desired state, describing and one synchronous power call, and a migration reconcile is one atomic event relative to it.
- MigrationRetry.RetryDecides: for exports assumes that no snapshot is given the very task reference of the export still open; fresh reads throughout.
- MigrationGuard.OneInFlight: an RPC is in flight from the client's call to its return; work a provider continues after a client-side timeout is not visible.
- MigrationReconciler.Reconciler.HandleExporting: handlers run one at a time here, so a lost claim of the guard cannot occur; races for it are the subject of `MigrationGuard`.
- CloneRuns.NoDoubleCreate: other actors may edit the target's spec but not its status or its adopted label.
- ImageRuns.SharedImageLosesNothing: does not claim that an available provider ran a prepare of its own, because all providers share one task reference; `ImageTasks` says exactly when it did not.
- VmConvergence.ConvergesInTwo: dependencies resolve, the image is prepared and the provider answers synchronously and truthfully; sizes of the machine at the provider are represented by the tracked resources.
- PvcStorage.PvcStore.Download: the destination is separate from the store, so downloading into the mount itself is not modelled.
