/**
  What one reconcile of a VMMigration does.

  A handler is described by its plan: the requests and status writes it issues, in order, as
  a function of the object it read and of the answers it gets.  Answers that
  come from code outside the model (Kubernetes lookups, provider RPCs, clocks) are fields of
  `Env`; the plan is total, so every error branch of the handlers is present.
 */
module MigrationPlan {
  import opened Common
  import Backoff = RetryBackoff

  datatype Phase =
    | Unset | Pending | Validating | Snapshotting | Exporting | Transferring | Converting
    | Importing | Creating | ValidatingTarget | Ready | Failed

  datatype ConditionType =
    | CondValidating | CondSnapshotting | CondExporting | CondTransferring | CondImporting
    | CondReady | CondFailed

  datatype DiskInfo = DiskInfo(
    sourceChecksum: string, sourceFormat: string,
    targetDiskID: string, targetFormat: string, targetPath: string, targetChecksum: string)

  const NO_DISK_INFO := DiskInfo("", "", "", "", "", "")

  /** The persisted status of a migration. */
  datatype Status = Status(
    phase: Phase,
    snapshotID: string, exportID: string, importID: string, taskRef: string, targetVMID: string,
    pvcName: string,
    diskInfo: Option<DiskInfo>,
    cleanedUp: bool,
    conditions: map<ConditionType, bool>,
    retryCount: int, lastRetry: Option<int>)
  {
    predicate IsTrue(cond: ConditionType) {
      cond in conditions && conditions[cond]
    }

    function SetCondition(cond: ConditionType, value: bool): Status {
      this.(conditions := conditions[cond := value])
    }
  }

  const INITIAL_STATUS := Status(Unset, "", "", "", "", "", "", None, false, map[], 0, None)

  datatype Key = Key(namespace: string, name: string)

  datatype RetryPolicy = RetryPolicy(
    maxRetries: Option<int>, retryDelay: Option<Backoff.Duration>, backoffMultiplier: Option<int>)

  /** The staging backend; an NFS address is fixed by the specification and kept opaque. */
  datatype Storage = Pvc(claim: string) | S3(bucket: string, prefix: string) | Nfs(url: Option<string>)

  datatype ProviderType = VSphere | Libvirt | Proxmox | OtherProvider

  /** The immutable specification of a migration together with its identity. */
  datatype Config = Config(
    namespace: string, name: string,
    sourceName: string, targetName: string, targetNamespace: string,
    createSnapshot: bool, snapshotRef: Option<string>,
    powerOffBefore: bool, deleteAfter: bool,
    storage: Option<Storage>, diskFormat: string,
    retryPolicy: Option<RetryPolicy>, cleanupNever: bool,
    sourceType: ProviderType, targetType: ProviderType)
  {
    function SourceKey(): Key {
      Key(namespace, sourceName)
    }

    function TargetKey(): Key {
      Key(if targetNamespace == "" then namespace else targetNamespace,
          if targetName == "" then sourceName + "-migrated" else targetName)
    }

    function MaxRetries(): int {
      match retryPolicy
      case None => 0
      case Some(policy) => if policy.maxRetries.Some? then policy.maxRetries.value else 3
    }
  }

  datatype LongOp = ExportOp | ImportOp

  datatype ImportedDisk = ImportedDisk(diskID: string, path: string, format: string)

  datatype DesiredPower = WantOn | WantOff | WantOffGraceful
  datatype Power = PowerOn | PowerOff | OtherPower

  /** A VirtualMachine object, reduced to what the migration reads or writes. */
  datatype Vm = Vm(
    id: string, ready: bool, desired: DesiredPower,
    disk: Option<ImportedDisk>, migrationOwned: bool, completed: bool)

  datatype ExportResult = ExportFailed | Exported(exportID: string, checksum: string, task: string)
  datatype ImportResult = ImportFailed | Imported(diskID: string, path: string, checksum: string, task: string)
  datatype SnapshotResult = SnapshotFailed | SnapshotTaken(id: string, task: string)
  datatype TaskAnswer = PollFails | Running | StatusFails | TaskFailed | TaskSucceeded
  datatype MountAnswer = MountCheckFails | Waiting | DeadlineCheckFails | DeadlineExceeded | Mounted

  /** Every answer one reconcile may get from outside. */
  datatype Env = Env(
    now: int,
    sourceGetFails: bool, sourceProviderFails: bool, targetProviderFails: bool,
    sourceInstanceFails: bool, targetInstanceFails: bool,
    sourceReady: bool, targetReady: bool,
    backendRejected: bool, storageInvalid: bool, credentialsFail: bool, optionsFail: bool,
    crossNamespace: bool, pvcFails: bool, mount: MountAnswer,
    patchFails: bool, describeFails: bool, powerFails: bool, pollWriteFails: bool,
    snapshot: SnapshotResult, task: TaskAnswer,
    exportBlocked: bool, exported: ExportResult,
    importBlocked: bool, imported: ImportResult,
    targetGetFails: bool, createFails: bool, markFails: bool,
    cleanupFails: bool, pvcDeleteFails: bool, snapshotDeleteFails: bool,
    sourceDeleteFails: bool, targetDeleteFails: bool, finalizerFails: bool)

  /** One request, in-memory guard change or status write of a reconcile. */
  datatype Effect =
    | WriteStatus(status: Status)
    | AddFinalizer
    | RemoveFinalizer
    | ClaimGuard(op: LongOp)
    | ReleaseGuard(op: LongOp)
    | SnapshotCreate(result: SnapshotResult)
    | SnapshotDelete(snapshotID: string, deleted: bool)
    | ExportDisk(url: string, snapshotID: string, exported: ExportResult)
    | ImportDisk(url: string, expectedChecksum: string, format: string, imported: ImportResult)
    | PollTask(op: LongOp, task: string, answer: TaskAnswer)
    | CreateTarget(disk: ImportedDisk)
    | ReadTargetReady(vm: Vm)
    | MarkTargetCompleted
    | PatchSourceOff
    | PowerOffSource
    | DeleteStaged
    | DeletePvc
    | DeleteSource
    | DeleteTarget

  /**
    What one reconcile issues: the write naming the staging volume (Validating only), then
    requests and guard changes, then the closing status write.
   */
  datatype Plan = Plan(named: Option<Status>, calls: seq<Effect>, write: Option<Status>)

  function Writing(st: Option<Status>): seq<Effect> {
    if st.Some? then [WriteStatus(st.value)] else []
  }

  /** The effects of a plan in the order they are issued. */
  function Effects(p: Plan): seq<Effect> {
    Writing(p.named) + p.calls + Writing(p.write)
  }

  /** The status a reconcile holds when it starts issuing requests. */
  function BaseOf(st: Status, p: Plan): Status {
    if p.named.Some? then p.named.value else st
  }

  predicate NoWrites(es: seq<Effect>) {
    forall e :: e in es ==> !e.WriteStatus?
  }

  const NOTHING := Plan(None, [], None)

  function Write(st: Status): Plan {
    Plan(None, [], Some(st))
  }

  function Then(calls: seq<Effect>, st: Status): Plan {
    Plan(None, calls, Some(st))
  }

  /** The VMMigration object as read at the start of a reconcile. */
  datatype Object = Object(status: Status, finalizer: bool, deleting: bool)

  // ---------------------------------------------------------------------------------------
  // Pure helpers

  function NativeDiskFormat(t: ProviderType): string {
    if t == VSphere then "vmdk" else "qcow2"
  }

  function DiskFormat(c: Config): string {
    if c.diskFormat != "" then c.diskFormat else "qcow2"
  }

  /** The format announced to the target for the staged object. */
  function ImportFormat(c: Config): string {
    if c.storage.Some? && c.storage.value.S3? then NativeDiskFormat(c.sourceType)
    else if c.storage.Some? && c.storage.value.Nfs? then "qcow2"
    else DiskFormat(c)
  }

  function TrimSlashes(s: string): string {
    if s != [] && s[0] == '/' then TrimSlashes(s[1..])
    else if s != [] && s[|s| - 1] == '/' then TrimSlashes(s[..|s| - 1])
    else s
  }

  function ClaimName(c: Config, claim: string): string {
    if claim != "" then claim else c.name + "-storage"
  }

  /** The address of the staged disk, shared by export and import; None when it cannot be built. */
  function StorageUrl(c: Config, pvcName: string): Option<string> {
    match c.storage
    case None => None
    case Some(Pvc(_)) =>
      if pvcName == "" then None
      else Some("pvc://" + pvcName + "/vmmigrations/" + c.namespace + "/" + c.name + "/export.qcow2")
    case Some(S3(bucket, prefix)) =>
      if bucket == "" then None
      else
        var key := "vmmigrations/" + c.namespace + "/" + c.name + "/export.vmdk";
        var trimmed := TrimSlashes(prefix);
        Some("s3://" + bucket + "/" + (if trimmed != "" then trimmed + "/" + key else key))
    case Some(Nfs(url)) => url
  }

  predicate CleanupAllowed(c: Config) {
    !c.cleanupNever
  }

  /** Failed with no retry left: the reconciler ignores the object from here on. */
  predicate Exhausted(c: Config, st: Status) {
    c.retryPolicy.None? || st.retryCount >= c.MaxRetries()
  }

  function RetryDelay(policy: RetryPolicy, retryCount: int): int {
    Backoff.Delay(
      if policy.retryDelay.Some? then policy.retryDelay.value else Backoff.DEFAULT_BASE_DELAY,
      if policy.backoffMultiplier.Some? then policy.backoffMultiplier.value else Backoff.DEFAULT_MULTIPLIER,
      retryCount)
  }

  function FailedStatus(st: Status): Status {
    st.(phase := Failed).SetCondition(CondFailed, true).SetCondition(CondReady, false)
  }

  function Fail(st: Status): Plan {
    Write(FailedStatus(st))
  }

  predicate SourceMissing(c: Config, vms: map<Key, Vm>, env: Env) {
    env.sourceGetFails || c.SourceKey() !in vms
  }

  // ---------------------------------------------------------------------------------------
  // Validating, including the power-off gate

  function LeaveValidating(c: Config, st: Status): Status {
    st.(phase := if c.createSnapshot then Snapshotting else Exporting).SetCondition(CondValidating, true)
  }

  function PowerPlan(c: Config, st: Status, source: Vm, power: Power, env: Env): Plan {
    if !c.powerOffBefore then Write(LeaveValidating(c, st))
    else if source.desired != WantOff && env.patchFails then Fail(st)
    else
      var patch := if source.desired != WantOff then [PatchSourceOff] else [];
      if env.sourceInstanceFails || env.describeFails then Then(patch, FailedStatus(st))
      else if power == PowerOff then Then(patch, LeaveValidating(c, st))
      else if power == PowerOn && env.powerFails then Then(patch, FailedStatus(st))
      else
        Then(patch + (if power == PowerOn then [PowerOffSource] else []),
             if env.pollWriteFails then FailedStatus(st) else st)
  }

  function MountPlan(c: Config, st: Status, source: Vm, power: Power, env: Env): Plan {
    match env.mount
    case Mounted => PowerPlan(c, st, source, power, env)
    case Waiting => Write(st.SetCondition(CondValidating, false))
    case _ => Fail(st)
  }

  function ValidatingPlan(c: Config, st: Status, vms: map<Key, Vm>, power: Power, env: Env): Plan {
    if SourceMissing(c, vms, env) then Fail(st)
    else
      var source := vms[c.SourceKey()];
      if source.id == "" then Write(st.SetCondition(CondValidating, false))
      else if env.sourceProviderFails || env.targetProviderFails then Fail(st)
      else if !env.sourceReady || !env.targetReady then Write(st.SetCondition(CondValidating, false))
      else if env.backendRejected then Fail(st)
      else match c.storage
      case None => PowerPlan(c, st, source, power, env)
      case Some(storage) =>
        if env.storageInvalid then Fail(st)
        else match storage
        case S3(_, _) => if env.credentialsFail then Fail(st) else PowerPlan(c, st, source, power, env)
        case Nfs(_) => PowerPlan(c, st, source, power, env)
        case Pvc(claim) =>
          if env.crossNamespace || env.pvcFails then Fail(st)
          else if st.pvcName == "" then
            var named := st.(pvcName := ClaimName(c, claim));
            MountPlan(c, named, source, power, env).(named := Some(named))
          else MountPlan(c, st, source, power, env)
  }

  // ---------------------------------------------------------------------------------------
  // Snapshotting

  function SnapshottingPlan(c: Config, st: Status, vms: map<Key, Vm>, env: Env): Plan {
    if SourceMissing(c, vms, env) then Fail(st)
    else
      var exporting := st.(phase := Exporting).SetCondition(CondSnapshotting, true);
      match c.snapshotRef
      case Some(ref) => Write(exporting.(snapshotID := ref))
      case None =>
        if env.sourceProviderFails || env.sourceInstanceFails then Fail(st)
        else if st.snapshotID != "" then Write(exporting)
        else match env.snapshot
        case SnapshotFailed => Then([SnapshotCreate(env.snapshot)], FailedStatus(st))
        case SnapshotTaken(id, task) =>
          Then([SnapshotCreate(env.snapshot)],
               if task != "" then st.(snapshotID := id, taskRef := task)
               else exporting.(snapshotID := id, taskRef := ""))
  }

  // ---------------------------------------------------------------------------------------
  // Exporting and importing

  /** The task poll shared by both long operations: wait, fail, or go on to the next phase. */
  function PollPlan(op: LongOp, st: Status, next: Status, answer: TaskAnswer): Plan {
    if st.taskRef == "" then Write(next)
    else
      var poll := [PollTask(op, st.taskRef, answer)];
      match answer
      case PollFails => Plan(None, poll, None)
      case Running => Plan(None, poll, None)
      case StatusFails => Then(poll, FailedStatus(st))
      case TaskFailed => Then(poll, FailedStatus(st))
      case TaskSucceeded => Then(poll, next)
  }

  predicate ExportAlreadyDone(st: Status, guard: set<LongOp>) {
    st.exportID != "" || st.IsTrue(CondExporting) || ExportOp in guard
  }

  function AfterExport(st: Status): Status {
    st.(phase := Importing, taskRef := "").SetCondition(CondExporting, true)
  }

  function RecordExport(c: Config, st: Status, exportID: string, checksum: string, task: string): Status {
    var info := if st.diskInfo.Some? then st.diskInfo.value else NO_DISK_INFO;
    var recorded := st.(exportID := exportID,
                        diskInfo := Some(info.(sourceFormat := DiskFormat(c), sourceChecksum := checksum)));
    if task != "" then recorded.(taskRef := task) else AfterExport(recorded)
  }

  /** The guarded RPC and what is recorded of its answer. */
  function ExportCalls(c: Config, st: Status, url: string, answer: ExportResult): Plan {
    var request := ExportDisk(url, st.snapshotID, answer);
    match answer
    case ExportFailed => Then([ClaimGuard(ExportOp), request, ReleaseGuard(ExportOp)], FailedStatus(st))
    case Exported(id, checksum, task) =>
      Then([ClaimGuard(ExportOp), request], RecordExport(c, st, id, checksum, task))
  }

  function ExportingPlan(c: Config, st: Status, guard: set<LongOp>, vms: map<Key, Vm>, env: Env): Plan {
    if SourceMissing(c, vms, env) || env.sourceProviderFails || env.sourceInstanceFails then Fail(st)
    else if ExportAlreadyDone(st, guard) then PollPlan(ExportOp, st, AfterExport(st), env.task)
    else
      var url := StorageUrl(c, st.pvcName);
      if url.None? || env.optionsFail || env.credentialsFail || env.exportBlocked then Fail(st)
      else ExportCalls(c, st, url.value, env.exported)
  }

  predicate ImportAlreadyDone(st: Status, guard: set<LongOp>) {
    st.importID != "" || st.IsTrue(CondImporting) || ImportOp in guard
  }

  function AfterImport(st: Status): Status {
    st.(phase := Creating, taskRef := "").SetCondition(CondImporting, true)
  }

  function ExpectedChecksum(st: Status): string {
    if st.diskInfo.Some? then st.diskInfo.value.sourceChecksum else ""
  }

  function RecordImport(c: Config, st: Status, diskID: string, path: string, checksum: string, task: string): Status {
    var info := if st.diskInfo.Some? then st.diskInfo.value else NO_DISK_INFO;
    var recorded := st.(importID := diskID,
                        diskInfo := Some(info.(targetDiskID := diskID, targetFormat := NativeDiskFormat(c.targetType),
                                               targetPath := path, targetChecksum := checksum)));
    if task != "" then recorded.(taskRef := task) else AfterImport(recorded)
  }

  function ImportCalls(c: Config, st: Status, url: string, answer: ImportResult): Plan {
    var request := ImportDisk(url, ExpectedChecksum(st), ImportFormat(c), answer);
    match answer
    case ImportFailed => Then([ClaimGuard(ImportOp), request, ReleaseGuard(ImportOp)], FailedStatus(st))
    case Imported(id, path, checksum, task) =>
      Then([ClaimGuard(ImportOp), request], RecordImport(c, st, id, path, checksum, task))
  }

  function ImportingPlan(c: Config, st: Status, guard: set<LongOp>, env: Env): Plan {
    if env.targetProviderFails || env.targetInstanceFails then Fail(st)
    else if ImportAlreadyDone(st, guard) then PollPlan(ImportOp, st, AfterImport(st), env.task)
    else
      var url := StorageUrl(c, st.pvcName);
      var needsSource := c.storage.Some? && c.storage.value.S3?;
      if url.None? || env.optionsFail || env.credentialsFail || (needsSource && env.sourceProviderFails)
         || env.importBlocked
      then Fail(st)
      else ImportCalls(c, st, url.value, env.imported)
  }

  // ---------------------------------------------------------------------------------------
  // Creating and validating the target

  function CreatingPlan(c: Config, st: Status, vms: map<Key, Vm>, env: Env): Plan {
    if env.targetGetFails then Fail(st)
    else if c.TargetKey() in vms then
      var vm := vms[c.TargetKey()];
      if vm.id != "" && vm.ready
      then Then([ReadTargetReady(vm)], st.(targetVMID := vm.id, phase := ValidatingTarget))
      else NOTHING
    else if st.diskInfo.None? || env.createFails then Fail(st)
    else
      var info := st.diskInfo.value;
      Then([CreateTarget(ImportedDisk(st.importID, info.targetPath, info.targetFormat))], st)
  }

  function ValidatingTargetPlan(c: Config, st: Status, vms: map<Key, Vm>, env: Env): Plan {
    if env.targetGetFails || c.TargetKey() !in vms then Fail(st)
    else
      var vm := vms[c.TargetKey()];
      if !vm.ready then Write(st)
      else
        Then([ReadTargetReady(vm)] + (if env.markFails then [] else [MarkTargetCompleted]),
             st.(targetVMID := vm.id, phase := Ready).SetCondition(CondReady, true))
  }

  // ---------------------------------------------------------------------------------------
  // Terminal phases and deletion

  predicate OwnsSnapshot(c: Config, st: Status) {
    CleanupAllowed(c) && st.snapshotID != "" && c.snapshotRef.None?
  }

  /** The snapshot delete request, absent when the source or its provider cannot be resolved. */
  function SnapshotDeleteCalls(c: Config, st: Status, vms: map<Key, Vm>, env: Env): seq<Effect> {
    if SourceMissing(c, vms, env) || env.sourceProviderFails || env.sourceInstanceFails then []
    else [SnapshotDelete(st.snapshotID, !env.snapshotDeleteFails)]
  }

  predicate SnapshotDeleted(c: Config, vms: map<Key, Vm>, env: Env) {
    !SourceMissing(c, vms, env) && !env.sourceProviderFails && !env.sourceInstanceFails && !env.snapshotDeleteFails
  }

  /** The last step of the Ready phase: delete the source on request and record the cleanup. */
  function FinishReadyPlan(c: Config, st: Status, calls: seq<Effect>, vms: map<Key, Vm>, env: Env): Plan {
    if c.deleteAfter then
      if SourceMissing(c, vms, env) || env.sourceDeleteFails then Plan(None, calls, None)
      else Then(calls + [DeleteSource], st.(cleanedUp := true))
    else if calls != [] then Then(calls, st.(cleanedUp := true))
    else NOTHING
  }

  function ReadyPlan(c: Config, st: Status, vms: map<Key, Vm>, env: Env): Plan {
    if st.cleanedUp then NOTHING
    else if !CleanupAllowed(c) then FinishReadyPlan(c, st, [], vms, env)
    else if c.storage.Some? && env.cleanupFails then NOTHING
    else
      var staged := if c.storage.Some? then [DeleteStaged] else [];
      if !OwnsSnapshot(c, st) then FinishReadyPlan(c, st, staged, vms, env)
      else
        var calls := staged + SnapshotDeleteCalls(c, st, vms, env);
        if !SnapshotDeleted(c, vms, env) then Plan(None, calls, None)
        else FinishReadyPlan(c, st.(snapshotID := ""), calls, vms, env)
  }

  function RetryStatus(st: Status, now: int): Status {
    st.(retryCount := st.retryCount + 1, lastRetry := Some(now), phase := Pending, taskRef := "")
      .SetCondition(CondFailed, false)
  }

  /** The best-effort snapshot cleanup the handler attempts before giving up. */
  function TerminalCleanupCalls(c: Config, st: Status, vms: map<Key, Vm>, env: Env): seq<Effect> {
    if OwnsSnapshot(c, st) then SnapshotDeleteCalls(c, st, vms, env) else []
  }

  function FailedPlan(c: Config, st: Status, vms: map<Key, Vm>, env: Env): Plan {
    var cleanup := TerminalCleanupCalls(c, st, vms, env);
    match c.retryPolicy
    case None => Plan(None, cleanup, None)
    case Some(policy) =>
      if st.retryCount >= c.MaxRetries() then
        Then(cleanup, if OwnsSnapshot(c, st) && SnapshotDeleted(c, vms, env) then st.(snapshotID := "") else st)
      else if st.lastRetry.Some? && env.now - st.lastRetry.value < RetryDelay(policy, st.retryCount) then NOTHING
      else Write(RetryStatus(st, env.now))
  }

  predicate TargetDeletable(c: Config, st: Status, vms: map<Key, Vm>) {
    && (st.phase == Failed || st.phase == Creating)
    && c.TargetKey() in vms
    && !vms[c.TargetKey()].completed && vms[c.TargetKey()].migrationOwned
  }

  function VolumeCleanupCalls(c: Config, st: Status, env: Env): seq<Effect> {
    (if c.storage.Some? && !st.cleanedUp && !env.cleanupFails then [DeleteStaged] else [])
    + (if st.pvcName != "" && !env.pvcDeleteFails then [DeletePvc] else [])
  }

  function ObjectCleanupCalls(c: Config, st: Status, vms: map<Key, Vm>, env: Env): seq<Effect> {
    TerminalCleanupCalls(c, st, vms, env)
    + (if TargetDeletable(c, st, vms) && !env.targetGetFails && !env.targetDeleteFails then [DeleteTarget] else [])
  }

  function DeletionPlan(c: Config, st: Status, vms: map<Key, Vm>, env: Env): Plan {
    Plan(None,
      VolumeCleanupCalls(c, st, env) + ObjectCleanupCalls(c, st, vms, env)
      + (if env.finalizerFails then [] else [RemoveFinalizer]),
      None)
  }

  // ---------------------------------------------------------------------------------------
  // The reconciler

  function PhasePlan(c: Config, st: Status, guard: set<LongOp>, vms: map<Key, Vm>, power: Power, env: Env): Plan {
    match st.phase
    case Unset => Write(st.(phase := Pending))
    case Pending => Write(st.(phase := Validating).SetCondition(CondValidating, true))
    case Validating => ValidatingPlan(c, st, vms, power, env)
    case Snapshotting => SnapshottingPlan(c, st, vms, env)
    case Exporting => ExportingPlan(c, st, guard, vms, env)
    case Transferring => Write(st.(phase := Importing).SetCondition(CondTransferring, true))
    case Converting => Write(st.(phase := Importing))
    case Importing => ImportingPlan(c, st, guard, env)
    case Creating => CreatingPlan(c, st, vms, env)
    case ValidatingTarget => ValidatingTargetPlan(c, st, vms, env)
    case Ready => ReadyPlan(c, st, vms, env)
    case Failed => FailedPlan(c, st, vms, env)
  }

  function ReconcilePlan(c: Config, o: Object, guard: set<LongOp>, vms: map<Key, Vm>, power: Power, env: Env): Plan {
    if o.deleting then DeletionPlan(c, o.status, vms, env)
    else if !o.finalizer then if env.finalizerFails then NOTHING else Plan(None, [AddFinalizer], None)
    else if o.status.phase == Failed && Exhausted(c, o.status) then NOTHING
    else PhasePlan(c, o.status, guard, vms, power, env)
  }
}
