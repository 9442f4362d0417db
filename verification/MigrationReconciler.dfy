/**
  The migration reconciler, handler by handler.

  The handlers update the migration's status in place and issue requests as they go.  Each is
  proved to issue exactly the effects of its plan, in order; the properties of whole runs are
  proved about the plans.
 */
module MigrationReconciler {
  import opened Common
  import opened MigrationPlan
  import Backoff = RetryBackoff
  import W = MigrationWorld

  /** The guard entries after a list of effects. */
  function GuardAfter(guard: set<LongOp>, es: seq<Effect>): set<LongOp> {
    if es == [] then guard
    else
      var before := GuardAfter(guard, es[..|es| - 1]);
      match es[|es| - 1]
      case ClaimGuard(op) => before + {op}
      case ReleaseGuard(op) => before - {op}
      case _ => before
  }

  /** The guard a reconcile leaves behind is the one the effects it issued have in a run. */
  lemma {:induction false} GuardAfterIsApplied(c: Config, w: W.World, es: seq<Effect>)
    ensures W.ApplyAll(c, w, es).guard == GuardAfter(w.guard, es)
  {
    if es != [] {
      var before, last := es[..|es| - 1], [es[|es| - 1]];
      assert es == before + last;
      GuardAfterIsApplied(c, w, before);
      W.ApplyAllConcat(c, w, before, last);
      W.ApplyOne(c, W.ApplyAll(c, w, before), es[|es| - 1], (_, _, _) => true);
    }
  }

  lemma ClaimedAndReleased(guard: set<LongOp>, op: LongOp, request: Effect)
    requires !request.ClaimGuard? && !request.ReleaseGuard? && op !in guard
    ensures GuardAfter(guard, [ClaimGuard(op), request]) == guard + {op}
    ensures GuardAfter(guard, [ClaimGuard(op), request, ReleaseGuard(op)]) == guard
  {
    var es := [ClaimGuard(op), request, ReleaseGuard(op)];
    assert es[..2] == [ClaimGuard(op), request] && es[..2][..1] == [ClaimGuard(op)];
    assert GuardAfter(guard, [ClaimGuard(op)]) == guard + {op};
  }

  class Reconciler {
    const config: Config
    var status: Status          // migration.Status in memory
    var guard: set<LongOp>      // longOpInFlight for this object

    // What the current reconcile has issued, in order.
    var named: Option<Status>
    var calls: seq<Effect>
    var write: Option<Status>

    constructor (config: Config, guard: set<LongOp>)
      ensures this.config == config && this.guard == guard && Beginning()
    {
      this.config, this.guard, status := config, guard, INITIAL_STATUS;
      named, calls, write := None, [], None;
    }

    /** A reconcile that may still issue requests, and has issued none yet. */
    ghost predicate Beginning()
      reads this
    {
      calls == [] && write.None?
    }

    ghost predicate Did(plan: Plan)
      reads this
    {
      calls == plan.calls && write == plan.write
    }

    method Issue(e: Effect)
      requires write.None? && !e.ClaimGuard? && !e.ReleaseGuard?
      modifies this`calls
      ensures calls == old(calls) + [e]
    {
      calls := calls + [e];
    }

    method MarkLongOpStarted(op: LongOp)
      requires write.None?
      modifies this`calls, this`guard
      ensures calls == old(calls) + [ClaimGuard(op)] && guard == old(guard) + {op}
    {
      calls, guard := calls + [ClaimGuard(op)], guard + {op};
    }

    method ReleaseLongOp(op: LongOp)
      requires write.None?
      modifies this`calls, this`guard
      ensures calls == old(calls) + [ReleaseGuard(op)] && guard == old(guard) - {op}
    {
      calls, guard := calls + [ReleaseGuard(op)], guard - {op};
    }

    /** The closing write; nothing is issued after it. */
    method UpdateStatus()
      requires write.None?
      modifies this`write
      ensures write == Some(status)
    {
      write := Some(status);
    }

    method SetCondition(cond: ConditionType, value: bool)
      modifies this`status
      ensures status == old(status).SetCondition(cond, value)
    {
      status := status.(conditions := status.conditions[cond := value]);
    }

    method TransitionToFailed()
      requires write.None?
      modifies this`status, this`write
      ensures write == Some(FailedStatus(old(status)))
    {
      status := status.(phase := Failed);
      SetCondition(CondFailed, true);
      SetCondition(CondReady, false);
      UpdateStatus();
    }

    method HandlePending()
      requires Beginning()
      modifies this`status, this`calls, this`write
      ensures Did(Write(old(status).(phase := Validating).SetCondition(CondValidating, true)))
    {
      status := status.(phase := Validating);
      SetCondition(CondValidating, true);
      UpdateStatus();
    }

    method HandleTransferring()
      requires Beginning()
      modifies this`status, this`calls, this`write
      ensures Did(Write(old(status).(phase := Importing).SetCondition(CondTransferring, true)))
    {
      status := status.(phase := Importing);
      SetCondition(CondTransferring, true);
      UpdateStatus();
    }

    // -------------------------------------------------------------------------------------
    // Validating

    method KeepValidating()
      requires Beginning()
      modifies this`status, this`calls, this`write
      ensures Did(Write(old(status).SetCondition(CondValidating, false)))
    {
      SetCondition(CondValidating, false);
      UpdateStatus();
    }

    /** The last steps of validation: power the source off if asked to, then move on. */
    method EnsurePowerAndLeave(source: Vm, power: Power, env: Env)
      requires Beginning()
      modifies this`status, this`calls, this`write
      ensures Did(PowerPlan(config, old(status), source, power, env))
    {
      if config.powerOffBefore {
        if source.desired != WantOff {
          if env.patchFails {
            TransitionToFailed();
            return;
          }
          Issue(PatchSourceOff);
        }
        if env.sourceInstanceFails || env.describeFails {
          TransitionToFailed();
          return;
        }
        if power != PowerOff {
          if power == PowerOn {
            if env.powerFails {
              TransitionToFailed();
              return;
            }
            Issue(PowerOffSource);
          }
          if env.pollWriteFails {
            TransitionToFailed();
          } else {
            UpdateStatus();
          }
          return;
        }
      }
      status := status.(phase := if config.createSnapshot then Snapshotting else Exporting);
      SetCondition(CondValidating, true);
      UpdateStatus();
    }

    method AwaitMount(source: Vm, power: Power, env: Env)
      requires Beginning()
      modifies this`status, this`calls, this`write
      ensures Did(MountPlan(config, old(status), source, power, env))
    {
      match env.mount {
        case Mounted =>
          EnsurePowerAndLeave(source, power, env);
        case Waiting =>
          KeepValidating();
        case _ =>
          TransitionToFailed();
      }
    }

    method HandleValidating(vms: map<Key, Vm>, power: Power, env: Env)
      requires Beginning() && named.None?
      modifies this`status, this`calls, this`write, this`named
      ensures Did(ValidatingPlan(config, old(status), vms, power, env))
      ensures named == ValidatingPlan(config, old(status), vms, power, env).named
    {
      if SourceMissing(config, vms, env) {
        TransitionToFailed();
        return;
      }
      var source := vms[config.SourceKey()];
      if source.id == "" {
        KeepValidating();
        return;
      }
      if env.sourceProviderFails || env.targetProviderFails {
        TransitionToFailed();
        return;
      }
      if !env.sourceReady || !env.targetReady {
        KeepValidating();
        return;
      }
      if env.backendRejected || (config.storage.Some? && env.storageInvalid) {
        TransitionToFailed();
        return;
      }
      if config.storage.Some? && config.storage.value.S3? && env.credentialsFail {
        TransitionToFailed();
        return;
      }
      if config.storage.Some? && config.storage.value.Pvc? {
        PrepareClaim(config.storage.value.claim, source, power, env);
        return;
      }
      EnsurePowerAndLeave(source, power, env);
    }

    /** The PVC part of validation: resolve the claim, record its name, wait for the mount. */
    method PrepareClaim(claim: string, source: Vm, power: Power, env: Env)
      requires Beginning() && named.None?
      modifies this`status, this`calls, this`write, this`named
      ensures if env.crossNamespace || env.pvcFails then named.None? && Did(Fail(old(status)))
              else if old(status).pvcName == "" then
                var st := old(status).(pvcName := ClaimName(config, claim));
                named == Some(st) && Did(MountPlan(config, st, source, power, env))
              else named.None? && Did(MountPlan(config, old(status), source, power, env))
    {
      if env.crossNamespace || env.pvcFails {
        TransitionToFailed();
        return;
      }
      if status.pvcName == "" {
        status := status.(pvcName := ClaimName(config, claim));
        named := Some(status);
      }
      AwaitMount(source, power, env);
    }

    // -------------------------------------------------------------------------------------
    // Snapshotting, exporting, importing

    method HandleSnapshotting(vms: map<Key, Vm>, env: Env)
      requires Beginning()
      modifies this`status, this`calls, this`write
      ensures Did(SnapshottingPlan(config, old(status), vms, env))
    {
      if SourceMissing(config, vms, env) {
        TransitionToFailed();
        return;
      }
      if config.snapshotRef.Some? {
        status := status.(snapshotID := config.snapshotRef.value, phase := Exporting);
        SetCondition(CondSnapshotting, true);
        UpdateStatus();
        return;
      }
      if env.sourceProviderFails || env.sourceInstanceFails {
        TransitionToFailed();
        return;
      }
      if status.snapshotID == "" {
        Issue(SnapshotCreate(env.snapshot));
        if env.snapshot.SnapshotFailed? {
          TransitionToFailed();
          return;
        }
        status := status.(snapshotID := env.snapshot.id);
        if env.snapshot.task != "" {
          status := status.(taskRef := env.snapshot.task);
          UpdateStatus();
          return;
        }
        status := status.(taskRef := "");
      }
      status := status.(phase := Exporting);
      SetCondition(CondSnapshotting, true);
      UpdateStatus();
    }

    /** Polls the recorded task, if any: the handler goes on, or has waited or failed. */
    method FollowTask(op: LongOp, answer: TaskAnswer) returns (goesOn: bool)
      requires Beginning()
      modifies this`status, this`calls, this`write
      ensures goesOn == (old(status).taskRef == "" || answer == TaskSucceeded)
      ensures if goesOn
              then status == old(status) && write.None?
                   && calls == PollPlan(op, status, status, answer).calls
              else forall next :: Did(PollPlan(op, old(status), next, answer))
    {
      if status.taskRef != "" {
        Issue(PollTask(op, status.taskRef, answer));
        if answer.PollFails? || answer.Running? {
          return false;
        }
        if answer.StatusFails? || answer.TaskFailed? {
          TransitionToFailed();
          return false;
        }
      }
      return true;
    }

    method HandleExporting(vms: map<Key, Vm>, env: Env)
      requires Beginning()
      modifies this`status, this`guard, this`calls, this`write
      ensures Did(ExportingPlan(config, old(status), old(guard), vms, env))
      ensures guard == GuardAfter(old(guard), calls)
    {
      if SourceMissing(config, vms, env) || env.sourceProviderFails || env.sourceInstanceFails {
        TransitionToFailed();
        return;
      }
      if ExportAlreadyDone(status, guard) {
        var goesOn := FollowTask(ExportOp, env.task);
        if goesOn {
          status := status.(phase := Importing, taskRef := "");
          SetCondition(CondExporting, true);
          UpdateStatus();
        }
        return;
      }
      var url := StorageUrl(config, status.pvcName);
      if url.None? || env.optionsFail || env.credentialsFail || env.exportBlocked {
        TransitionToFailed();
        return;
      }
      RunExport(url.value, env);
    }

    /** Claims the guard, exports, and records the result or gives the guard back. */
    method RunExport(url: string, env: Env)
      requires Beginning() && ExportOp !in guard
      modifies this`status, this`guard, this`calls, this`write
      ensures Did(ExportCalls(config, old(status), url, env.exported))
      ensures guard == GuardAfter(old(guard), calls)
    {
      MarkLongOpStarted(ExportOp);
      Issue(ExportDisk(url, status.snapshotID, env.exported));
      ClaimedAndReleased(old(guard), ExportOp, calls[1]);
      if env.exported.ExportFailed? {
        ReleaseLongOp(ExportOp);
        TransitionToFailed();
        return;
      }
      status := status.(exportID := env.exported.exportID);
      if status.diskInfo.None? {
        status := status.(diskInfo := Some(NO_DISK_INFO));
      }
      var info := status.diskInfo.value;
      status := status.(diskInfo := Some(info.(
        sourceFormat := DiskFormat(config), sourceChecksum := env.exported.checksum)));
      if env.exported.task != "" {
        status := status.(taskRef := env.exported.task);
        UpdateStatus();
        return;
      }
      status := status.(phase := Importing, taskRef := "");
      SetCondition(CondExporting, true);
      UpdateStatus();
    }

    method HandleImporting(env: Env)
      requires Beginning()
      modifies this`status, this`guard, this`calls, this`write
      ensures Did(ImportingPlan(config, old(status), old(guard), env))
      ensures guard == GuardAfter(old(guard), calls)
    {
      if env.targetProviderFails || env.targetInstanceFails {
        TransitionToFailed();
        return;
      }
      if ImportAlreadyDone(status, guard) {
        var goesOn := FollowTask(ImportOp, env.task);
        if goesOn {
          status := status.(phase := Creating, taskRef := "");
          SetCondition(CondImporting, true);
          UpdateStatus();
        }
        return;
      }
      var url := StorageUrl(config, status.pvcName);
      if url.None? || env.optionsFail || env.credentialsFail {
        TransitionToFailed();
        return;
      }
      if config.storage.Some? && config.storage.value.S3? && env.sourceProviderFails {
        TransitionToFailed();
        return;
      }
      if env.importBlocked {
        TransitionToFailed();
        return;
      }
      RunImport(url.value, env);
    }

    method RunImport(url: string, env: Env)
      requires Beginning() && ImportOp !in guard
      modifies this`status, this`guard, this`calls, this`write
      ensures Did(ImportCalls(config, old(status), url, env.imported))
      ensures guard == GuardAfter(old(guard), calls)
    {
      MarkLongOpStarted(ImportOp);
      Issue(ImportDisk(url, ExpectedChecksum(status), ImportFormat(config), env.imported));
      ClaimedAndReleased(old(guard), ImportOp, calls[1]);
      if env.imported.ImportFailed? {
        ReleaseLongOp(ImportOp);
        TransitionToFailed();
        return;
      }
      status := status.(importID := env.imported.diskID);
      if status.diskInfo.None? {
        status := status.(diskInfo := Some(NO_DISK_INFO));
      }
      var info := status.diskInfo.value;
      status := status.(diskInfo := Some(info.(
        targetDiskID := env.imported.diskID, targetFormat := NativeDiskFormat(config.targetType),
        targetPath := env.imported.path, targetChecksum := env.imported.checksum)));
      if env.imported.task != "" {
        status := status.(taskRef := env.imported.task);
        UpdateStatus();
        return;
      }
      status := status.(phase := Creating, taskRef := "");
      SetCondition(CondImporting, true);
      UpdateStatus();
    }

    // -------------------------------------------------------------------------------------
    // The target

    method HandleCreating(vms: map<Key, Vm>, env: Env)
      requires Beginning()
      modifies this`status, this`calls, this`write
      ensures Did(CreatingPlan(config, old(status), vms, env))
    {
      if env.targetGetFails {
        TransitionToFailed();
        return;
      }
      if config.TargetKey() in vms {
        var vm := vms[config.TargetKey()];
        if vm.id != "" && vm.ready {
          Issue(ReadTargetReady(vm));
          status := status.(targetVMID := vm.id, phase := ValidatingTarget);
          UpdateStatus();
        }
        return;
      }
      if status.diskInfo.None? || env.createFails {
        TransitionToFailed();
        return;
      }
      var info := status.diskInfo.value;
      Issue(CreateTarget(ImportedDisk(status.importID, info.targetPath, info.targetFormat)));
      UpdateStatus();
    }

    method HandleValidatingTarget(vms: map<Key, Vm>, env: Env)
      requires Beginning()
      modifies this`status, this`calls, this`write
      ensures Did(ValidatingTargetPlan(config, old(status), vms, env))
    {
      if env.targetGetFails || config.TargetKey() !in vms {
        TransitionToFailed();
        return;
      }
      var vm := vms[config.TargetKey()];
      if !vm.ready {
        UpdateStatus();
        return;
      }
      Issue(ReadTargetReady(vm));
      if !env.markFails {
        Issue(MarkTargetCompleted);
      }
      status := status.(targetVMID := vm.id, phase := Ready);
      SetCondition(CondReady, true);
      UpdateStatus();
    }

    // -------------------------------------------------------------------------------------
    // Terminal phases

    method DeleteSourceSnapshot(vms: map<Key, Vm>, env: Env) returns (ok: bool)
      requires write.None?
      modifies this`calls
      ensures calls == old(calls) + SnapshotDeleteCalls(config, status, vms, env)
      ensures ok == SnapshotDeleted(config, vms, env)
    {
      if SourceMissing(config, vms, env) || env.sourceProviderFails || env.sourceInstanceFails {
        return false;
      }
      Issue(SnapshotDelete(status.snapshotID, !env.snapshotDeleteFails));
      return !env.snapshotDeleteFails;
    }

    method HandleReady(vms: map<Key, Vm>, env: Env)
      requires Beginning()
      modifies this`status, this`calls, this`write
      ensures Did(ReadyPlan(config, old(status), vms, env))
    {
      if status.cleanedUp {
        return;
      }
      var cleaned := false;
      if CleanupAllowed(config) {
        if config.storage.Some? {
          if env.cleanupFails {
            return;
          }
          Issue(DeleteStaged);
          cleaned := true;
        }
        if status.snapshotID != "" && config.snapshotRef.None? {
          var ok := DeleteSourceSnapshot(vms, env);
          if !ok {
            return;
          }
          status := status.(snapshotID := "");
          cleaned := true;
        }
      }
      if config.deleteAfter {
        if SourceMissing(config, vms, env) || env.sourceDeleteFails {
          return;
        }
        Issue(DeleteSource);
        cleaned := true;
      }
      if cleaned {
        status := status.(cleanedUp := true);
        UpdateStatus();
      }
    }

    method CleanupSnapshotOnTerminalFailure(vms: map<Key, Vm>, env: Env)
      requires Beginning()
      modifies this`status, this`calls
      ensures calls == TerminalCleanupCalls(config, old(status), vms, env)
      ensures status == if OwnsSnapshot(config, old(status)) && SnapshotDeleted(config, vms, env)
                        then old(status).(snapshotID := "") else old(status)
    {
      if OwnsSnapshot(config, status) {
        var ok := DeleteSourceSnapshot(vms, env);
        if ok {
          status := status.(snapshotID := "");
        }
      }
    }

    method ComputeRetryDelay(policy: RetryPolicy) returns (delay: int)
      ensures delay == RetryDelay(policy, status.retryCount)
    {
      var baseDelay, multiplier := Backoff.DEFAULT_BASE_DELAY, Backoff.DEFAULT_MULTIPLIER;
      if policy.retryDelay.Some? {
        baseDelay := policy.retryDelay.value;
      }
      if policy.backoffMultiplier.Some? {
        multiplier := policy.backoffMultiplier.value;
      }
      delay := Backoff.ComputeDelay(baseDelay, multiplier, status.retryCount);
    }

    method HandleFailed(vms: map<Key, Vm>, env: Env)
      requires Beginning()
      modifies this`status, this`calls, this`write
      ensures Did(FailedPlan(config, old(status), vms, env))
    {
      if config.retryPolicy.None? {
        CleanupSnapshotOnTerminalFailure(vms, env);
        return;
      }
      var policy := config.retryPolicy.value;
      var maxRetries := 3;
      if policy.maxRetries.Some? {
        maxRetries := policy.maxRetries.value;
      }
      if status.retryCount >= maxRetries {
        CleanupSnapshotOnTerminalFailure(vms, env);
        UpdateStatus();
        return;
      }
      var delay := ComputeRetryDelay(policy);
      if status.lastRetry.Some? && env.now - status.lastRetry.value < delay {
        return;
      }
      Retry(env.now);
    }

    method Retry(now: int)
      requires write.None?
      modifies this`status, this`write
      ensures write == Some(RetryStatus(old(status), now))
    {
      status := status.(retryCount := status.retryCount + 1, lastRetry := Some(now));
      status := status.(phase := Pending, taskRef := "");
      SetCondition(CondFailed, false);
      UpdateStatus();
    }

    method CleanupVolumes(env: Env)
      requires Beginning()
      modifies this`calls
      ensures calls == VolumeCleanupCalls(config, status, env)
    {
      IssueWhen(config.storage.Some? && !status.cleanedUp && !env.cleanupFails, DeleteStaged);
      IssueWhen(status.pvcName != "" && !env.pvcDeleteFails, DeletePvc);
    }

    method CleanupObjects(vms: map<Key, Vm>, env: Env)
      requires write.None?
      modifies this`calls
      ensures calls == old(calls) + ObjectCleanupCalls(config, status, vms, env)
    {
      if OwnsSnapshot(config, status) {
        var _ := DeleteSourceSnapshot(vms, env);
      }
      assert calls == old(calls) + TerminalCleanupCalls(config, status, vms, env);
      IssueWhen(TargetDeletable(config, status, vms) && !env.targetGetFails && !env.targetDeleteFails, DeleteTarget);
    }

    method HandleDeletion(vms: map<Key, Vm>, env: Env)
      requires Beginning()
      modifies this`calls
      ensures Did(DeletionPlan(config, old(status), vms, env))
    {
      CleanupVolumes(env);
      CleanupObjects(vms, env);
      IssueWhen(!env.finalizerFails, RemoveFinalizer);
    }

    method IssueWhen(condition: bool, e: Effect)
      requires write.None? && !e.ClaimGuard? && !e.ReleaseGuard?
      modifies this`calls
      ensures calls == old(calls) + if condition then [e] else []
    {
      if condition {
        Issue(e);
      }
    }

    // -------------------------------------------------------------------------------------
    // Reconcile

    method HandlePhase(vms: map<Key, Vm>, power: Power, env: Env)
      requires Beginning() && named.None?
      modifies this
      ensures guard == if old(status).phase in {Exporting, Importing} then GuardAfter(old(guard), calls) else old(guard)
      ensures Did(PhasePlan(config, old(status), old(guard), vms, power, env))
      ensures named == PhasePlan(config, old(status), old(guard), vms, power, env).named
    {
      ghost var plan := PhasePlan(config, status, guard, vms, power, env);
      match status.phase {
        case Unset =>
          status := status.(phase := Pending);
          UpdateStatus();
        case Pending =>
          HandlePending();
        case Validating =>
          assert plan == ValidatingPlan(config, status, vms, power, env);
          HandleValidating(vms, power, env);
        case Snapshotting =>
          assert plan == SnapshottingPlan(config, status, vms, env) && plan.named.None?;
          HandleSnapshotting(vms, env);
        case Exporting =>
          assert plan == ExportingPlan(config, status, guard, vms, env) && plan.named.None?;
          HandleExporting(vms, env);
        case Transferring =>
          HandleTransferring();
        case Converting =>
          status := status.(phase := Importing);
          UpdateStatus();
        case Importing =>
          assert plan == ImportingPlan(config, status, guard, env) && plan.named.None?;
          HandleImporting(env);
        case Creating =>
          assert plan == CreatingPlan(config, status, vms, env) && plan.named.None?;
          HandleCreating(vms, env);
        case ValidatingTarget =>
          assert plan == ValidatingTargetPlan(config, status, vms, env) && plan.named.None?;
          HandleValidatingTarget(vms, env);
        case Ready =>
          assert plan == ReadyPlan(config, status, vms, env) && plan.named.None?;
          HandleReady(vms, env);
        case Failed =>
          assert plan == FailedPlan(config, status, vms, env) && plan.named.None?;
          HandleFailed(vms, env);
      }
    }

    /** A reconcile issues the effects of its plan, and leaves the guard as those effects say. */
    method Reconcile(o: Object, vms: map<Key, Vm>, power: Power, env: Env)
      modifies this
      ensures Plan(named, calls, write) == ReconcilePlan(config, o, old(guard), vms, power, env)
      ensures guard == if !o.deleting && o.finalizer && o.status.phase in {Exporting, Importing}
                       then GuardAfter(old(guard), calls) else old(guard)
    {
      status := o.status;
      named, calls, write := None, [], None;
      if o.deleting {
        HandleDeletion(vms, env);
        return;
      }
      if !o.finalizer {
        if !env.finalizerFails {
          Issue(AddFinalizer);
        }
        return;
      }
      if status.phase == Failed {
        if config.retryPolicy.Some? {
          var maxRetries := 3;
          if config.retryPolicy.value.maxRetries.Some? {
            maxRetries := config.retryPolicy.value.maxRetries.value;
          }
          if status.retryCount >= maxRetries {
            return;
          }
        } else {
          return;
        }
      }
      HandlePhase(vms, power, env);
    }
  }
}
