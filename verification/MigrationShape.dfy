/**
  The footprint of every handler: which requests it may issue, in which phase, and which
  parts of the status its write may change.  The run-level proofs rest on these facts only.
 */
module MigrationShape {
  import opened Common
  import opened MigrationPlan

  /** The write changes the phase and progress conditions but nothing that records a result. */
  predicate SameRecord(st: Status, s: Status) {
    && s.(phase := st.phase, conditions := st.conditions) == st
    && s.IsTrue(CondExporting) == st.IsTrue(CondExporting)
    && s.IsTrue(CondImporting) == st.IsTrue(CondImporting)
  }

  predicate FailsOrWaits(st: Status, p: Plan) {
    && p.named.None?
    && (|| p.calls == []
        || (&& st.phase in {Exporting, Importing} && |p.calls| == 1 && p.calls[0].PollTask?
            && p.calls[0].op == (if st.phase == Exporting then ExportOp else ImportOp)
            && p.calls[0].task == st.taskRef))
    && (p.write.Some? ==> p.write.value == FailedStatus(st))
  }

  predicate SourceHeldOff(c: Config, vms: map<Key, Vm>, power: Power, calls: seq<Effect>) {
    && power == PowerOff && PowerOffSource !in calls
    && c.SourceKey() in vms
    && (vms[c.SourceKey()].desired == WantOff || calls == [PatchSourceOff])
  }

  /** How a Validating pass may close, relative to the status it holds by then. */
  predicate ValidatingEnd(
      c: Config, base: Status, vms: map<Key, Vm>, power: Power, calls: seq<Effect>, write: Option<Status>)
  {
    && (forall e :: e in calls ==> e == PatchSourceOff || e == PowerOffSource)
    && write.Some? && SameRecord(base, write.value)
    && (|| write.value.phase in {Validating, Failed}
        || (&& write.value.phase == (if c.createSnapshot then Snapshotting else Exporting)
            && (c.powerOffBefore ==> SourceHeldOff(c, vms, power, calls))))
  }

  predicate ValidatingShape(c: Config, st: Status, vms: map<Key, Vm>, power: Power, p: Plan) {
    match p.named
    case None => ValidatingEnd(c, st, vms, power, p.calls, p.write)
    case Some(named) =>
      && c.storage.Some? && c.storage.value.Pvc? && st.pvcName == ""
      && named == st.(pvcName := ClaimName(c, c.storage.value.claim))
      && ValidatingEnd(c, named, vms, power, p.calls, p.write)
  }

  predicate SnapshottingShape(c: Config, st: Status, p: Plan) {
    && p.named.None? && p.write.Some?
    && var s := p.write.value;
    && SameRecord(st, s.(snapshotID := st.snapshotID, taskRef := st.taskRef))
    && s.phase in {Snapshotting, Exporting, Failed}
    && (|| s.taskRef in {st.taskRef, ""}
        || (|p.calls| == 1 && p.calls[0].SnapshotCreate? && p.calls[0].result.SnapshotTaken?
            && p.calls[0].result.task == s.taskRef))
    && (p.calls == [] || (|p.calls| == 1 && p.calls[0].SnapshotCreate? && c.snapshotRef.None?))
    && (|| s.snapshotID == st.snapshotID
        || c.snapshotRef == Some(s.snapshotID)
        || (p.calls != [] && p.calls[0].SnapshotCreate? && p.calls[0].result.SnapshotTaken?
            && p.calls[0].result.id == s.snapshotID))
  }

  /** A pass over an operation already issued goes on once the recorded task, if any, has succeeded. */
  predicate Advances(op: LongOp, st: Status, next: Status, p: Plan) {
    && p.named.None? && p.write == Some(next)
    && p.calls == if st.taskRef == "" then [] else [PollTask(op, st.taskRef, TaskSucceeded)]
  }

  predicate ExportingShape(c: Config, st: Status, guard: set<LongOp>, p: Plan) {
    || FailsOrWaits(st, p)
    || (ExportAlreadyDone(st, guard) && Advances(ExportOp, st, AfterExport(st), p))
    || (&& !ExportAlreadyDone(st, guard) && |p.calls| >= 2 && p.calls[1].ExportDisk?
        && StorageUrl(c, st.pvcName) == Some(p.calls[1].url)
        && match p.calls[1].exported
           case ExportFailed =>
             p == Then([ClaimGuard(ExportOp), p.calls[1], ReleaseGuard(ExportOp)], FailedStatus(st))
           case Exported(id, checksum, task) =>
             p == Then([ClaimGuard(ExportOp), p.calls[1]], RecordExport(c, st, id, checksum, task)))
  }

  predicate ImportingShape(c: Config, st: Status, guard: set<LongOp>, p: Plan) {
    || FailsOrWaits(st, p)
    || (ImportAlreadyDone(st, guard) && Advances(ImportOp, st, AfterImport(st), p))
    || (&& !ImportAlreadyDone(st, guard) && |p.calls| >= 2 && p.calls[1].ImportDisk?
        && StorageUrl(c, st.pvcName) == Some(p.calls[1].url)
        && p.calls[1].expectedChecksum == ExpectedChecksum(st)
        && match p.calls[1].imported
           case ImportFailed =>
             p == Then([ClaimGuard(ImportOp), p.calls[1], ReleaseGuard(ImportOp)], FailedStatus(st))
           case Imported(id, path, checksum, task) =>
             p == Then([ClaimGuard(ImportOp), p.calls[1]], RecordImport(c, st, id, path, checksum, task)))
  }

  /** The disk a target created from this status is attached to. */
  function Attached(st: Status): Option<ImportedDisk> {
    if st.diskInfo.None? then None
    else Some(ImportedDisk(st.importID, st.diskInfo.value.targetPath, st.diskInfo.value.targetFormat))
  }

  predicate CreatingShape(c: Config, st: Status, vms: map<Key, Vm>, env: Env, p: Plan) {
    || FailsOrWaits(st, p)
    || (&& c.TargetKey() in vms && vms[c.TargetKey()].ready
        && p == Then([ReadTargetReady(vms[c.TargetKey()])],
                     st.(targetVMID := vms[c.TargetKey()].id, phase := ValidatingTarget)))
    || (&& c.TargetKey() !in vms && !env.createFails && st.diskInfo.Some?
        && p == Then([CreateTarget(ImportedDisk(st.importID, st.diskInfo.value.targetPath,
                                                st.diskInfo.value.targetFormat))], st))
  }

  predicate ValidatingTargetShape(c: Config, st: Status, vms: map<Key, Vm>, p: Plan) {
    || FailsOrWaits(st, p)
    || p == Write(st)
    || (&& c.TargetKey() in vms && vms[c.TargetKey()].ready
        && p.named.None?
        && (p.calls == [ReadTargetReady(vms[c.TargetKey()])]
            || p.calls == [ReadTargetReady(vms[c.TargetKey()]), MarkTargetCompleted])
        && p.write.Some? && p.write.value.phase == Ready
        && SameRecord(st, p.write.value.(targetVMID := st.targetVMID)))
  }

  predicate ReadyShape(c: Config, st: Status, p: Plan) {
    && p.named.None?
    && (forall e :: e in p.calls ==>
          || e == DeleteStaged
          || (e.SnapshotDelete? && OwnsSnapshot(c, st) && e.snapshotID == st.snapshotID)
          || (e == DeleteSource && c.deleteAfter))
    && (p.write.Some? ==>
          && p.write.value.(cleanedUp := st.cleanedUp, snapshotID := st.snapshotID) == st
          && (p.write.value.snapshotID == st.snapshotID || p.write.value.snapshotID == ""))
  }

  predicate FailedShape(c: Config, st: Status, env: Env, p: Plan) {
    || p == NOTHING
    || (&& c.retryPolicy.Some? && st.retryCount < c.MaxRetries()
        && (st.lastRetry.Some? ==> env.now - st.lastRetry.value >= RetryDelay(c.retryPolicy.value, st.retryCount))
        && p == Write(RetryStatus(st, env.now)))
  }

  predicate DeletionShape(c: Config, st: Status, vms: map<Key, Vm>, p: Plan) {
    && p.named.None? && p.write.None?
    && forall e :: e in p.calls ==>
         || e in {DeleteStaged, DeletePvc, RemoveFinalizer}
         || (e == DeleteTarget && TargetDeletable(c, st, vms))
         || (e.SnapshotDelete? && OwnsSnapshot(c, st) && e.snapshotID == st.snapshotID)
  }

  predicate StepsTo(st: Status, p: Plan, next: Phase) {
    p.named.None? && p.calls == [] && p.write.Some? && SameRecord(st, p.write.value) && p.write.value.phase == next
  }

  predicate PhaseShape(c: Config, st: Status, guard: set<LongOp>, vms: map<Key, Vm>, power: Power, env: Env, p: Plan) {
    match st.phase
    case Unset => StepsTo(st, p, Pending)
    case Pending => StepsTo(st, p, Validating)
    case Validating => ValidatingShape(c, st, vms, power, p)
    case Snapshotting => SnapshottingShape(c, st, p)
    case Exporting => ExportingShape(c, st, guard, p)
    case Transferring => StepsTo(st, p, Importing)
    case Converting => StepsTo(st, p, Importing)
    case Importing => ImportingShape(c, st, guard, p)
    case Creating => CreatingShape(c, st, vms, env, p)
    case ValidatingTarget => ValidatingTargetShape(c, st, vms, p)
    case Ready => ReadyShape(c, st, p)
    case Failed => FailedShape(c, st, env, p)
  }

  predicate ReconcileShape(
      c: Config, o: Object, guard: set<LongOp>, vms: map<Key, Vm>, power: Power, env: Env, p: Plan)
  {
    if o.deleting then DeletionShape(c, o.status, vms, p)
    else if !o.finalizer then p == NOTHING || p == Plan(None, [AddFinalizer], None)
    else PhaseShape(c, o.status, guard, vms, power, env, p)
  }

  // ---------------------------------------------------------------------------------------

  lemma WritesKeepRecord(c: Config, st: Status)
    ensures SameRecord(st, FailedStatus(st))
    ensures SameRecord(st, LeaveValidating(c, st))
    ensures SameRecord(st, st.SetCondition(CondValidating, false))
    ensures FailedStatus(st).phase == Failed
  {
  }

  lemma PowerHasShape(c: Config, st: Status, vms: map<Key, Vm>, power: Power, env: Env)
    requires c.SourceKey() in vms && st.phase == Validating
    ensures var p := PowerPlan(c, st, vms[c.SourceKey()], power, env);
            p.named.None? && ValidatingEnd(c, st, vms, power, p.calls, p.write)
  {
    WritesKeepRecord(c, st);
    var p := PowerPlan(c, st, vms[c.SourceKey()], power, env);
    var patch := if vms[c.SourceKey()].desired != WantOff then [PatchSourceOff] else [];
    if p.calls == patch {
    } else if p.calls == [] {
    } else {
      assert p.calls == patch + [PowerOffSource];
    }
  }

  lemma MountHasShape(c: Config, st: Status, vms: map<Key, Vm>, power: Power, env: Env)
    requires c.SourceKey() in vms && st.phase == Validating
    ensures var p := MountPlan(c, st, vms[c.SourceKey()], power, env);
            p.named.None? && ValidatingEnd(c, st, vms, power, p.calls, p.write)
  {
    match env.mount {
      case Mounted => PowerHasShape(c, st, vms, power, env);
      case _ => WritesKeepRecord(c, st);
    }
  }

  lemma ValidatingHasShape(c: Config, st: Status, vms: map<Key, Vm>, power: Power, env: Env)
    requires st.phase == Validating
    ensures ValidatingShape(c, st, vms, power, ValidatingPlan(c, st, vms, power, env))
  {
    var p := ValidatingPlan(c, st, vms, power, env);
    if p == Fail(st) || p == Write(st.SetCondition(CondValidating, false)) {
      WritesKeepRecord(c, st);
    } else if p == PowerPlan(c, st, vms[c.SourceKey()], power, env) {
      PowerHasShape(c, st, vms, power, env);
    } else if st.pvcName != "" {
      MountHasShape(c, st, vms, power, env);
    } else {
      MountHasShape(c, st.(pvcName := ClaimName(c, c.storage.value.claim)), vms, power, env);
    }
  }

  lemma SnapshottingHasShape(c: Config, st: Status, vms: map<Key, Vm>, env: Env)
    requires st.phase == Snapshotting
    ensures SnapshottingShape(c, st, SnapshottingPlan(c, st, vms, env))
  {
  }

  lemma ExportingHasShape(c: Config, st: Status, guard: set<LongOp>, vms: map<Key, Vm>, env: Env)
    requires st.phase == Exporting
    ensures ExportingShape(c, st, guard, ExportingPlan(c, st, guard, vms, env))
  {
  }

  lemma ImportingHasShape(c: Config, st: Status, guard: set<LongOp>, env: Env)
    requires st.phase == Importing
    ensures ImportingShape(c, st, guard, ImportingPlan(c, st, guard, env))
  {
  }

  lemma TargetHasShape(c: Config, st: Status, vms: map<Key, Vm>, env: Env)
    ensures CreatingShape(c, st, vms, env, CreatingPlan(c, st, vms, env))
    ensures ValidatingTargetShape(c, st, vms, ValidatingTargetPlan(c, st, vms, env))
  {
  }

  lemma FailedHasShape(c: Config, st: Status, vms: map<Key, Vm>, env: Env)
    requires !Exhausted(c, st)
    ensures FailedShape(c, st, env, FailedPlan(c, st, vms, env))
  {
  }

  lemma ReadyHasShape(c: Config, st: Status, vms: map<Key, Vm>, env: Env)
    ensures ReadyShape(c, st, ReadyPlan(c, st, vms, env))
  {
  }

  lemma DeletionHasShape(c: Config, st: Status, vms: map<Key, Vm>, env: Env)
    ensures DeletionShape(c, st, vms, DeletionPlan(c, st, vms, env))
  {
  }

  lemma SteppingHasShape(c: Config, st: Status, guard: set<LongOp>, vms: map<Key, Vm>, power: Power, env: Env)
    requires st.phase in {Unset, Pending, Transferring, Converting}
    ensures PhaseShape(c, st, guard, vms, power, env, PhasePlan(c, st, guard, vms, power, env))
  {
  }

  lemma EarlyHasShape(c: Config, st: Status, guard: set<LongOp>, vms: map<Key, Vm>, power: Power, env: Env)
    requires st.phase in {Validating, Snapshotting, Exporting, Importing}
    ensures PhaseShape(c, st, guard, vms, power, env, PhasePlan(c, st, guard, vms, power, env))
  {
    match st.phase {
      case Validating => ValidatingHasShape(c, st, vms, power, env);
      case Snapshotting => SnapshottingHasShape(c, st, vms, env);
      case Exporting => ExportingHasShape(c, st, guard, vms, env);
      case Importing => ImportingHasShape(c, st, guard, env);
    }
  }

  lemma LateHasShape(c: Config, st: Status, guard: set<LongOp>, vms: map<Key, Vm>, power: Power, env: Env)
    requires st.phase in {Creating, ValidatingTarget, Ready, Failed}
    requires st.phase == Failed ==> !Exhausted(c, st)
    ensures PhaseShape(c, st, guard, vms, power, env, PhasePlan(c, st, guard, vms, power, env))
  {
    match st.phase {
      case Creating => TargetHasShape(c, st, vms, env);
      case ValidatingTarget => TargetHasShape(c, st, vms, env);
      case Ready => ReadyHasShape(c, st, vms, env);
      case Failed => FailedHasShape(c, st, vms, env);
    }
  }

  /** Every reconcile of every object stays within its footprint. */
  lemma PlanHasShape(c: Config, o: Object, guard: set<LongOp>, vms: map<Key, Vm>, power: Power, env: Env)
    ensures ReconcileShape(c, o, guard, vms, power, env, ReconcilePlan(c, o, guard, vms, power, env))
  {
    if o.deleting {
      DeletionHasShape(c, o.status, vms, env);
    } else if o.finalizer && !(o.status.phase == Failed && Exhausted(c, o.status)) {
      if o.status.phase in {Unset, Pending, Transferring, Converting} {
        SteppingHasShape(c, o.status, guard, vms, power, env);
      } else if o.status.phase in {Validating, Snapshotting, Exporting, Importing} {
        EarlyHasShape(c, o.status, guard, vms, power, env);
      } else {
        LateHasShape(c, o.status, guard, vms, power, env);
      }
    }
  }

  /** Requests carry no status write. */
  lemma ShapeHasNoWriteCalls(
      c: Config, o: Object, guard: set<LongOp>, vms: map<Key, Vm>, power: Power, env: Env, p: Plan)
    requires ReconcileShape(c, o, guard, vms, power, env, p)
    ensures NoWrites(p.calls)
  {
  }
}
