/**
  Driving a migration.  Runs are built step by step from reconciles in which every lookup goes
  well, for any specification that stages over NFS without a snapshot or a power-off.
 */
module MigrationDrive {
  import opened Common
  import opened MigrationPlan
  import opened MigrationShape
  import opened MigrationWorld
  import Deletion = MigrationSourceDeletion
  import Staging = MigrationStaging
  import Tasks = MigrationTasks

  predicate Easy(c: Config) {
    && c.storage.Some? && c.storage.value.Nfs? && c.storage.value.url.Some?
    && !c.createSnapshot && !c.powerOffBefore && c.snapshotRef.None? && !c.cleanupNever
    && c.TargetKey() != c.SourceKey()
  }

  function Url(c: Config): string
    requires Easy(c)
  {
    c.storage.value.url.value
  }

  predicate Drivable(c: Config, w: World) {
    && w.finalizer && !w.deleting && !w.gone && w.status in w.history
    && c.SourceKey() in w.vms && w.vms[c.SourceKey()].id != ""
  }

  /** A run with fresh reads that leads from one world to another that can be driven on. */
  predicate Leads(c: Config, w: World, evs: seq<Event>, n: World) {
    FreshRun(c, w, evs) && n == Run(c, w, evs) && Drivable(c, n)
  }

  /** Every reconcile of the run performs its whole plan. */
  predicate Complete(evs: seq<Event>) {
    forall i :: 0 <= i < |evs| && evs[i].Reconcile? ==> evs[i].ending.Completed?
  }

  /** Everything goes well; a target that exists is not created again. */
  function Fair(now: int, exported: ExportResult, imported: ImportResult, task: TaskAnswer): Env {
    Smooth(now, exported, imported).(task := task, createFails := true)
  }

  const FAIR := Fair(0, ExportFailed, ImportFailed, TaskSucceeded)

  // ---------------------------------------------------------------------------------------
  // What a trace comes to

  /** The state of both operations, failing polls, targets observed Ready, and which properties hold so far. */
  datatype Summary = Summary(
    exporting: Tasks.CallState, importing: Tasks.CallState,
    lastExport: Option<Effect>, landed: Option<ImportedDisk>, observed: set<Option<ImportedDisk>>,
    stagingSound: bool, deletionSound: bool, exportsFinished: bool, importsFinished: bool,
    failed: set<Effect>, importedFailed: bool, deletedFailed: bool)

  /** The call is open and its task was reported failed. */
  predicate ReportedFailed(s: Tasks.CallState, op: LongOp, failed: set<Effect>) {
    s.Open? && PollTask(op, s.task, TaskFailed) in failed
  }

  /** The import reads the address and expects the checksum of the last, accepted export. */
  predicate Matches(lastExport: Option<Effect>, e: Effect)
    requires e.ImportDisk? && (lastExport.Some? ==> lastExport.value.ExportDisk?)
  {
    && lastExport.Some? && lastExport.value.exported.Exported?
    && e.url == lastExport.value.url && e.expectedChecksum == lastExport.value.exported.checksum
  }

  /** One more effect. */
  function Summarized(c: Config, s: Summary, e: Effect): Summary
    requires s.lastExport.Some? ==> s.lastExport.value.ExportDisk?
  {
    Summary(
      Tasks.Advance(s.exporting, ExportOp, e), Tasks.Advance(s.importing, ImportOp, e),
      if e.ExportDisk? then Some(e) else s.lastExport,
      if e.ImportDisk? && e.imported.Imported? then Some(DiskOf(c, e.imported)) else s.landed,
      if e.ReadTargetReady? && e.vm.ready then s.observed + {e.vm.disk} else s.observed,
      s.stagingSound && (e.ImportDisk? ==> Matches(s.lastExport, e)),
      s.deletionSound && (e.DeleteSource? ==> c.deleteAfter && s.landed.Some? && s.landed in s.observed),
      s.exportsFinished && (Tasks.Uses(e, ExportOp) ==> s.exporting.Succeeded?),
      s.importsFinished && (Tasks.Uses(e, ImportOp) ==> s.importing.Succeeded?),
      if e.PollTask? && e.answer == TaskFailed then s.failed + {e} else s.failed,
      s.importedFailed || (e.ImportDisk? && ReportedFailed(s.exporting, ExportOp, s.failed)),
      s.deletedFailed || (e.DeleteSource? && ReportedFailed(s.importing, ImportOp, s.failed)))
  }

  /** The disk an accepted import announces. */
  function DiskOf(c: Config, answer: ImportResult): ImportedDisk
    requires answer.Imported?
  {
    ImportedDisk(answer.diskID, answer.path, NativeDiskFormat(c.targetType))
  }

  const NOTHING_DONE :=
    Summary(Tasks.NotCalled, Tasks.NotCalled, None, None, {}, true, true, true, true, {}, false, false)

  /** The summary of a trace, effect by effect. */
  function SummaryOf(c: Config, t: seq<Effect>): (s: Summary)
    ensures s.lastExport.Some? ==> s.lastExport.value.ExportDisk?
  {
    if t == [] then NOTHING_DONE else Summarized(c, SummaryOf(c, t[..|t| - 1]), t[|t| - 1])
  }

  lemma SummarySnoc(c: Config, t: seq<Effect>, e: Effect)
    ensures SummaryOf(c, t + [e]) == Summarized(c, SummaryOf(c, t), e)
  {
    assert (t + [e])[..|t|] == t;
  }

  predicate Silent(e: Effect) {
    || e.WriteStatus? || e.AddFinalizer? || e.ClaimGuard? || e.ReleaseGuard? || e == DeleteStaged
    || (e.PollTask? && e.answer !in {TaskSucceeded, TaskFailed})
  }

  lemma SilentSnoc(c: Config, t: seq<Effect>, e: Effect)
    requires Silent(e)
    ensures SummaryOf(c, t + [e]) == SummaryOf(c, t)
  {
    SummarySnoc(c, t, e);
  }

  /** A call and a silent effect. */
  lemma CallSummary(c: Config, t: seq<Effect>, e: Effect, after: Effect)
    requires Silent(after)
    ensures SummaryOf(c, t + [e] + [after]) == Summarized(c, SummaryOf(c, t), e)
  {
    SummarySnoc(c, t, e);
    SilentSnoc(c, t + [e], after);
  }

  /** A call between silent effects. */
  lemma GuardedSummary(c: Config, t: seq<Effect>, before: Effect, e: Effect, after: Effect)
    requires Silent(before) && Silent(after)
    ensures SummaryOf(c, t + [before] + [e] + [after]) == Summarized(c, SummaryOf(c, t), e)
  {
    SilentSnoc(c, t, before);
    CallSummary(c, t + [before], e, after);
  }

  // ---------------------------------------------------------------------------------------
  // Steps

  lemma {:induction false} GoPlan(c: Config, w: World, evs: seq<Event>, n: World, env: Env)
    returns (evs': seq<Event>, n': World)
    requires Leads(c, w, evs, n) && (c.TargetKey() in n.vms ==> env.createFails)
    ensures Complete(evs) ==> Complete(evs')
    ensures FreshRun(c, w, evs') && n' == Run(c, w, evs') && n' == AfterPlan(c, n, PlanOf(c, n, FreshReconcile(n, env)))
  {
    FreshStep(c, n, env);
    FreshSnoc(c, w, evs, FreshReconcile(n, env));
    evs' := evs + [FreshReconcile(n, env)];
    n' := Run(c, w, evs');
  }

  /** One more reconcile that only writes the status. */
  lemma {:induction false} GoWrite(c: Config, w: World, evs: seq<Event>, n: World, env: Env, s: Status)
    returns (evs': seq<Event>, n': World)
    requires Leads(c, w, evs, n) && (c.TargetKey() in n.vms ==> env.createFails)
    requires PlanOf(c, n, FreshReconcile(n, env)) == Write(s)
    ensures Complete(evs) ==> Complete(evs')
    ensures Leads(c, w, evs', n') && n' == Apply(c, n, WriteStatus(s))
    ensures SummaryOf(c, n'.trace) == SummaryOf(c, n.trace)
  {
    evs', n' := GoPlan(c, w, evs, n, env);
    SilentSnoc(c, n.trace, WriteStatus(s));
  }

  /** One more reconcile with one request and a write. */
  lemma {:induction false} GoOne(c: Config, w: World, evs: seq<Event>, n: World, env: Env, e: Effect, s: Status)
    returns (evs': seq<Event>, n': World)
    requires Leads(c, w, evs, n) && (c.TargetKey() in n.vms ==> env.createFails)
    requires PlanOf(c, n, FreshReconcile(n, env)) == Then([e], s)
    ensures Complete(evs) ==> Complete(evs')
    ensures FreshRun(c, w, evs') && n' == Run(c, w, evs') && n' == Apply(c, Apply(c, n, e), WriteStatus(s))
  {
    evs', n' := GoPlan(c, w, evs, n, env);
    ApplyOne(c, n, e, (_, _, _) => true);
  }

  /** One more reconcile with two requests and a write. */
  lemma {:induction false} GoTwo(
      c: Config, w: World, evs: seq<Event>, n: World, env: Env, a: Effect, b: Effect, s: Status)
    returns (evs': seq<Event>, n': World)
    requires Leads(c, w, evs, n) && (c.TargetKey() in n.vms ==> env.createFails)
    requires PlanOf(c, n, FreshReconcile(n, env)) == Then([a, b], s)
    ensures Complete(evs) ==> Complete(evs')
    ensures FreshRun(c, w, evs') && n' == Run(c, w, evs')
    ensures n' == Apply(c, Apply(c, Apply(c, n, a), b), WriteStatus(s))
  {
    evs', n' := GoPlan(c, w, evs, n, env);
    ApplyTwo(c, n, a, b, (_, _, _) => true);
  }

  function Validated(c: Config, st: Status): Status {
    LeaveValidating(c, st.(phase := Validating).SetCondition(CondValidating, true))
  }

  lemma PendingPlan(c: Config, n: World)
    requires Drivable(c, n) && n.status.phase == Pending
    ensures PlanOf(c, n, FreshReconcile(n, FAIR))
            == Write(n.status.(phase := Validating).SetCondition(CondValidating, true))
  {
  }

  lemma LeavingPlan(c: Config, n: World)
    requires Easy(c) && Drivable(c, n) && n.status.phase == Validating
    ensures PlanOf(c, n, FreshReconcile(n, FAIR)) == Write(LeaveValidating(c, n.status))
  {
  }

  lemma {:induction false} PendingRuns(c: Config, w: World, evs: seq<Event>, n: World)
    returns (evs': seq<Event>, n': World)
    requires Leads(c, w, evs, n) && n.status.phase == Pending
    ensures Complete(evs) ==> Complete(evs')
    ensures Leads(c, w, evs', n')
    ensures n' == Apply(c, n, WriteStatus(n.status.(phase := Validating).SetCondition(CondValidating, true)))
    ensures SummaryOf(c, n'.trace) == SummaryOf(c, n.trace)
  {
    PendingPlan(c, n);
    evs', n' := GoWrite(c, w, evs, n, FAIR, n.status.(phase := Validating).SetCondition(CondValidating, true));
  }

  lemma {:induction false} LeavingRuns(c: Config, w: World, evs: seq<Event>, n: World)
    returns (evs': seq<Event>, n': World)
    requires Easy(c) && Leads(c, w, evs, n) && n.status.phase == Validating
    ensures Complete(evs) ==> Complete(evs')
    ensures Leads(c, w, evs', n') && n' == Apply(c, n, WriteStatus(LeaveValidating(c, n.status)))
    ensures SummaryOf(c, n'.trace) == SummaryOf(c, n.trace)
  {
    LeavingPlan(c, n);
    evs', n' := GoWrite(c, w, evs, n, FAIR, LeaveValidating(c, n.status));
  }

  /** From Pending to Exporting, whatever was recorded before. */
  lemma {:induction false} GoValidate(c: Config, w: World, evs: seq<Event>, n: World)
    returns (evs': seq<Event>, n': World)
    requires Easy(c) && Leads(c, w, evs, n) && n.status.phase == Pending
    ensures Complete(evs) ==> Complete(evs')
    ensures Leads(c, w, evs', n') && SummaryOf(c, n'.trace) == SummaryOf(c, n.trace)
    ensures n'.status == Validated(c, n.status)
    ensures n'.guard == n.guard && n'.vms == n.vms
  {
    evs', n' := PendingRuns(c, w, evs, n);
    evs', n' := LeavingRuns(c, w, evs', n');
  }

  /** A new migration of an existing source. */
  predicate Fresh(c: Config, w: World) {
    Initial(w) && c.SourceKey() in w.vms && w.vms[c.SourceKey()].id != ""
  }

  function Exportable(c: Config): Status {
    Validated(c, INITIAL_STATUS.(phase := Pending))
  }

  lemma {:induction false} GoFinalizer(c: Config, w: World) returns (evs: seq<Event>, n: World)
    requires Fresh(c, w)
    ensures Complete(evs) && Leads(c, w, evs, n) && n.status == INITIAL_STATUS
    ensures n.guard == {} && n.vms == w.vms && n.power == w.power && n.pass == w.pass && n.hotExports == w.hotExports
    ensures SummaryOf(c, n.trace) == NOTHING_DONE
  {
    var ev := FreshReconcile(w, FAIR);
    FreshStep(c, w, FAIR);
    ApplyOne(c, w, AddFinalizer, (_, _, _) => true);
    assert PlanOf(c, w, ev) == Plan(None, [AddFinalizer], None);
    FreshSnoc(c, w, [], ev);
    SilentSnoc(c, [], AddFinalizer);
    evs, n := [] + [ev], Apply(c, w, AddFinalizer);
  }

  lemma FirstPlan(c: Config, n: World)
    requires Drivable(c, n) && n.status.phase == Unset
    ensures PlanOf(c, n, FreshReconcile(n, FAIR)) == Write(n.status.(phase := Pending))
  {
  }

  lemma {:induction false} FirstRuns(c: Config, w: World, evs: seq<Event>, n: World)
    returns (evs': seq<Event>, n': World)
    requires Leads(c, w, evs, n) && n.status.phase == Unset
    ensures Complete(evs) ==> Complete(evs')
    ensures Leads(c, w, evs', n') && n' == Apply(c, n, WriteStatus(n.status.(phase := Pending)))
    ensures SummaryOf(c, n'.trace) == SummaryOf(c, n.trace)
  {
    FirstPlan(c, n);
    evs', n' := GoWrite(c, w, evs, n, FAIR, n.status.(phase := Pending));
  }

  /** From nothing to Pending. */
  lemma {:induction false} GoPending(c: Config, w: World) returns (evs: seq<Event>, n: World)
    requires Fresh(c, w)
    ensures Complete(evs) && Leads(c, w, evs, n) && n.status == INITIAL_STATUS.(phase := Pending)
    ensures n.guard == {} && n.vms == w.vms && n.power == w.power && n.pass == w.pass && n.hotExports == w.hotExports
    ensures SummaryOf(c, n.trace) == NOTHING_DONE
  {
    evs, n := GoFinalizer(c, w);
    evs, n := FirstRuns(c, w, evs, n);
  }

  /** From nothing to Exporting. */
  lemma {:induction false} SetOut(c: Config, w: World) returns (evs: seq<Event>, n: World)
    requires Easy(c) && Fresh(c, w)
    ensures Complete(evs) && Leads(c, w, evs, n) && n.status == Exportable(c) && n.guard == {} && n.vms == w.vms
    ensures SummaryOf(c, n.trace) == NOTHING_DONE
  {
    evs, n := GoPending(c, w);
    evs, n := GoValidate(c, w, evs, n);
  }

  // ---------------------------------------------------------------------------------------
  // Retrying

  predicate RetryDue(c: Config, st: Status, now: int) {
    && st.phase == Failed && !Exhausted(c, st)
    && (st.lastRetry.Some? ==> now - st.lastRetry.value >= RetryDelay(c.retryPolicy.value, st.retryCount))
  }

  lemma RetryPlan(c: Config, n: World, now: int)
    requires Drivable(c, n) && RetryDue(c, n.status, now)
    ensures PlanOf(c, n, FreshReconcile(n, FAIR.(now := now))) == Write(RetryStatus(n.status, now))
  {
  }

  lemma {:induction false} RetryRuns(c: Config, w: World, evs: seq<Event>, n: World, now: int)
    returns (evs': seq<Event>, n': World)
    requires Leads(c, w, evs, n) && RetryDue(c, n.status, now)
    ensures Complete(evs) ==> Complete(evs')
    ensures Leads(c, w, evs', n') && n' == Apply(c, n, WriteStatus(RetryStatus(n.status, now)))
    ensures SummaryOf(c, n'.trace) == SummaryOf(c, n.trace)
  {
    RetryPlan(c, n, now);
    evs', n' := GoWrite(c, w, evs, n, FAIR.(now := now), RetryStatus(n.status, now));
  }

  /** From Failed back to Exporting. */
  lemma {:induction false} GoRetry(c: Config, w: World, evs: seq<Event>, n: World, now: int)
    returns (evs': seq<Event>, n': World)
    requires Easy(c) && Leads(c, w, evs, n) && RetryDue(c, n.status, now)
    ensures Complete(evs) ==> Complete(evs')
    ensures Leads(c, w, evs', n') && SummaryOf(c, n'.trace) == SummaryOf(c, n.trace)
    ensures n'.status == Validated(c, RetryStatus(n.status, now)) && n'.guard == n.guard && n'.vms == n.vms
  {
    evs', n' := RetryRuns(c, w, evs, n, now);
    evs', n' := GoValidate(c, w, evs', n');
  }

  // ---------------------------------------------------------------------------------------
  // Exporting and importing

  lemma ExportDonePlan(c: Config, n: World)
    requires Drivable(c, n) && n.status.phase == Exporting
    requires ExportAlreadyDone(n.status, n.guard) && n.status.taskRef == ""
    ensures PlanOf(c, n, FreshReconcile(n, FAIR)) == Write(AfterExport(n.status))
  {
  }

  lemma ImportDonePlan(c: Config, n: World)
    requires Drivable(c, n) && n.status.phase == Importing
    requires ImportAlreadyDone(n.status, n.guard) && n.status.taskRef == ""
    ensures PlanOf(c, n, FreshReconcile(n, FAIR)) == Write(AfterImport(n.status))
  {
  }

  lemma ExportPlan(c: Config, n: World, answer: ExportResult)
    requires Easy(c) && Drivable(c, n) && n.status.phase == Exporting && !ExportAlreadyDone(n.status, n.guard)
    ensures PlanOf(c, n, FreshReconcile(n, FAIR.(exported := answer))) == ExportCalls(c, n.status, Url(c), answer)
  {
  }

  lemma ImportPlan(c: Config, n: World, answer: ImportResult)
    requires Easy(c) && Drivable(c, n) && n.status.phase == Importing && !ImportAlreadyDone(n.status, n.guard)
    ensures PlanOf(c, n, FreshReconcile(n, FAIR.(imported := answer))) == ImportCalls(c, n.status, Url(c), answer)
  {
  }

  /** What the status becomes when the recorded task is reported failed. */
  lemma FailedPollPlan(c: Config, n: World, op: LongOp)
    requires Drivable(c, n) && n.status.taskRef != ""
    requires if op == ExportOp then n.status.phase == Exporting && ExportAlreadyDone(n.status, n.guard)
             else n.status.phase == Importing && ImportAlreadyDone(n.status, n.guard)
    ensures PlanOf(c, n, FreshReconcile(n, FAIR.(task := TaskFailed)))
            == Then([PollTask(op, n.status.taskRef, TaskFailed)], FailedStatus(n.status))
  {
  }

  lemma {:induction false} ExportRuns(c: Config, w: World, evs: seq<Event>, n: World, answer: ExportResult)
    returns (evs': seq<Event>, n': World)
    requires Easy(c) && Leads(c, w, evs, n) && n.status.phase == Exporting
    requires !ExportAlreadyDone(n.status, n.guard) && answer.Exported?
    ensures Complete(evs) ==> Complete(evs')
    ensures FreshRun(c, w, evs') && n' == Run(c, w, evs')
    ensures var p := ExportCalls(c, n.status, Url(c), answer);
            n' == Apply(c, Apply(c, Apply(c, n, p.calls[0]), p.calls[1]), WriteStatus(p.write.value))
  {
    ExportPlan(c, n, answer);
    var p := ExportCalls(c, n.status, Url(c), answer);
    evs', n' := GoTwo(c, w, evs, n, FAIR.(exported := answer), p.calls[0], p.calls[1], p.write.value);
  }

  /** An export the provider accepts, recorded. */
  lemma {:induction false} GoExport(c: Config, w: World, evs: seq<Event>, n: World, answer: ExportResult)
    returns (evs': seq<Event>, n': World)
    requires Easy(c) && Leads(c, w, evs, n) && n.status.phase == Exporting
    requires !ExportAlreadyDone(n.status, n.guard) && answer.Exported?
    ensures Complete(evs) ==> Complete(evs')
    ensures Leads(c, w, evs', n') && n'.vms == n.vms && n'.guard == n.guard + {ExportOp}
    ensures n'.history == n.history + [n'.status]
    ensures n'.status == RecordExport(c, n.status, answer.exportID, answer.checksum, answer.task)
    ensures SummaryOf(c, n'.trace)
            == Summarized(c, SummaryOf(c, n.trace), ExportDisk(Url(c), n.status.snapshotID, answer))
  {
    var p := ExportCalls(c, n.status, Url(c), answer);
    evs', n' := ExportRuns(c, w, evs, n, answer);
    GuardedSummary(c, n.trace, p.calls[0], p.calls[1], WriteStatus(p.write.value));
  }

  lemma {:induction false} ImportRuns(c: Config, w: World, evs: seq<Event>, n: World, answer: ImportResult)
    returns (evs': seq<Event>, n': World)
    requires Easy(c) && Leads(c, w, evs, n) && n.status.phase == Importing
    requires !ImportAlreadyDone(n.status, n.guard) && answer.Imported?
    ensures Complete(evs) ==> Complete(evs')
    ensures FreshRun(c, w, evs') && n' == Run(c, w, evs')
    ensures var p := ImportCalls(c, n.status, Url(c), answer);
            n' == Apply(c, Apply(c, Apply(c, n, p.calls[0]), p.calls[1]), WriteStatus(p.write.value))
  {
    ImportPlan(c, n, answer);
    var p := ImportCalls(c, n.status, Url(c), answer);
    evs', n' := GoTwo(c, w, evs, n, FAIR.(imported := answer), p.calls[0], p.calls[1], p.write.value);
  }

  /** An import the provider accepts, recorded. */
  lemma {:induction false} GoImport(c: Config, w: World, evs: seq<Event>, n: World, answer: ImportResult)
    returns (evs': seq<Event>, n': World)
    requires Easy(c) && Leads(c, w, evs, n) && n.status.phase == Importing
    requires !ImportAlreadyDone(n.status, n.guard) && answer.Imported?
    ensures Complete(evs) ==> Complete(evs')
    ensures Leads(c, w, evs', n') && n'.vms == n.vms && n'.guard == n.guard + {ImportOp}
    ensures n'.status == RecordImport(c, n.status, answer.diskID, answer.path, answer.checksum, answer.task)
    ensures SummaryOf(c, n'.trace)
            == Summarized(c, SummaryOf(c, n.trace),
                          ImportDisk(Url(c), ExpectedChecksum(n.status), ImportFormat(c), answer))
  {
    var p := ImportCalls(c, n.status, Url(c), answer);
    evs', n' := ImportRuns(c, w, evs, n, answer);
    GuardedSummary(c, n.trace, p.calls[0], p.calls[1], WriteStatus(p.write.value));
  }

  lemma {:induction false} FailedPollRuns(c: Config, w: World, evs: seq<Event>, n: World, op: LongOp)
    returns (evs': seq<Event>, n': World)
    requires Leads(c, w, evs, n) && n.status.taskRef != ""
    requires if op == ExportOp then n.status.phase == Exporting && ExportAlreadyDone(n.status, n.guard)
             else n.status.phase == Importing && ImportAlreadyDone(n.status, n.guard)
    ensures Complete(evs) ==> Complete(evs')
    ensures FreshRun(c, w, evs') && n' == Run(c, w, evs')
    ensures var poll := PollTask(op, n.status.taskRef, TaskFailed);
            n' == Apply(c, Apply(c, n, poll), WriteStatus(FailedStatus(n.status)))
  {
    FailedPollPlan(c, n, op);
    var poll := PollTask(op, n.status.taskRef, TaskFailed);
    evs', n' := GoOne(c, w, evs, n, FAIR.(task := TaskFailed), poll, FailedStatus(n.status));
  }

  /** The polled task is reported failed. */
  lemma {:induction false} GoFailedPoll(c: Config, w: World, evs: seq<Event>, n: World, op: LongOp)
    returns (evs': seq<Event>, n': World)
    requires Leads(c, w, evs, n) && n.status.taskRef != ""
    requires if op == ExportOp then n.status.phase == Exporting && ExportAlreadyDone(n.status, n.guard)
             else n.status.phase == Importing && ImportAlreadyDone(n.status, n.guard)
    ensures Complete(evs) ==> Complete(evs')
    ensures Leads(c, w, evs', n') && n'.vms == n.vms && n'.guard == n.guard
    ensures n'.status == FailedStatus(n.status)
    ensures SummaryOf(c, n'.trace)
            == Summarized(c, SummaryOf(c, n.trace), PollTask(op, n.status.taskRef, TaskFailed))
  {
    var poll := PollTask(op, n.status.taskRef, TaskFailed);
    evs', n' := FailedPollRuns(c, w, evs, n, op);
    CallSummary(c, n.trace, poll, WriteStatus(FailedStatus(n.status)));
  }

  /** Past an export taken as done. */
  lemma {:induction false} GoPastExport(c: Config, w: World, evs: seq<Event>, n: World)
    returns (evs': seq<Event>, n': World)
    requires Leads(c, w, evs, n) && n.status.phase == Exporting
    requires ExportAlreadyDone(n.status, n.guard) && n.status.taskRef == ""
    ensures Complete(evs) ==> Complete(evs')
    ensures Leads(c, w, evs', n') && n'.vms == n.vms && n'.guard == n.guard
    ensures n'.status == AfterExport(n.status) && SummaryOf(c, n'.trace) == SummaryOf(c, n.trace)
  {
    ExportDonePlan(c, n);
    evs', n' := GoWrite(c, w, evs, n, FAIR, AfterExport(n.status));
  }

  lemma {:induction false} GoPastImport(c: Config, w: World, evs: seq<Event>, n: World)
    returns (evs': seq<Event>, n': World)
    requires Leads(c, w, evs, n) && n.status.phase == Importing
    requires ImportAlreadyDone(n.status, n.guard) && n.status.taskRef == ""
    ensures Complete(evs) ==> Complete(evs')
    ensures Leads(c, w, evs', n') && n'.vms == n.vms && n'.guard == n.guard
    ensures n'.status == AfterImport(n.status) && SummaryOf(c, n'.trace) == SummaryOf(c, n.trace)
  {
    ImportDonePlan(c, n);
    evs', n' := GoWrite(c, w, evs, n, FAIR, AfterImport(n.status));
  }

  // ---------------------------------------------------------------------------------------
  // From Creating to the deletion of the source

  lemma CreatePlan(c: Config, n: World)
    requires Drivable(c, n) && n.status.phase == Creating && c.TargetKey() !in n.vms && n.status.diskInfo.Some?
    ensures PlanOf(c, n, FreshReconcile(n, FAIR.(createFails := false)))
            == Then([CreateTarget(Attached(n.status).value)], n.status)
  {
  }

  lemma {:induction false} CreateRuns(c: Config, w: World, evs: seq<Event>, n: World)
    returns (evs': seq<Event>, n': World)
    requires Leads(c, w, evs, n)
    requires n.status.phase == Creating && c.TargetKey() !in n.vms && n.status.diskInfo.Some?
    ensures Complete(evs) ==> Complete(evs')
    ensures FreshRun(c, w, evs') && n' == Run(c, w, evs')
    ensures n' == Apply(c, Apply(c, n, CreateTarget(Attached(n.status).value)), WriteStatus(n.status))
  {
    CreatePlan(c, n);
    var e := CreateTarget(Attached(n.status).value);
    evs', n' := GoOne(c, w, evs, n, FAIR.(createFails := false), e, n.status);
  }

  lemma {:induction false} GoCreate(c: Config, w: World, evs: seq<Event>, n: World)
    returns (evs': seq<Event>, n': World)
    requires Easy(c) && Leads(c, w, evs, n)
    requires n.status.phase == Creating && c.TargetKey() !in n.vms && n.status.diskInfo.Some?
    ensures Complete(evs) ==> Complete(evs')
    ensures Leads(c, w, evs', n') && n'.status == n.status
    ensures n'.vms == n.vms[c.TargetKey() := Vm("", false, WantOn, Attached(n.status), true, false)]
    ensures SummaryOf(c, n'.trace) == Summarized(c, SummaryOf(c, n.trace), CreateTarget(Attached(n.status).value))
  {
    var e := CreateTarget(Attached(n.status).value);
    evs', n' := CreateRuns(c, w, evs, n);
    CallSummary(c, n.trace, e, WriteStatus(n.status));
  }

  /** The VirtualMachine controller finds the target running. */
  lemma {:induction false} GoObserve(c: Config, w: World, evs: seq<Event>, n: World)
    returns (evs': seq<Event>, n': World)
    requires Easy(c) && Leads(c, w, evs, n) && c.TargetKey() in n.vms
    ensures Complete(evs) ==> Complete(evs')
    ensures Leads(c, w, evs', n') && n'.trace == n.trace && n'.status == n.status
    ensures n'.vms == n.vms[c.TargetKey() := n.vms[c.TargetKey()].(id := "vm", ready := true)]
  {
    FreshSnoc(c, w, evs, TargetObserved("vm", true));
    evs', n' := evs + [TargetObserved("vm", true)], Step(c, n, TargetObserved("vm", true));
  }

  predicate HasReadyTarget(c: Config, n: World, vm: Vm) {
    c.TargetKey() in n.vms && n.vms[c.TargetKey()] == vm && vm.id != "" && vm.ready
  }

  lemma SeePlan(c: Config, n: World, vm: Vm)
    requires Drivable(c, n) && n.status.phase == Creating && HasReadyTarget(c, n, vm)
    ensures PlanOf(c, n, FreshReconcile(n, FAIR))
            == Then([ReadTargetReady(vm)], n.status.(targetVMID := vm.id, phase := ValidatingTarget))
  {
  }

  lemma {:induction false} SeeRuns(c: Config, w: World, evs: seq<Event>, n: World, vm: Vm)
    returns (evs': seq<Event>, n': World)
    requires Leads(c, w, evs, n) && n.status.phase == Creating && HasReadyTarget(c, n, vm)
    ensures Complete(evs) ==> Complete(evs')
    ensures FreshRun(c, w, evs') && n' == Run(c, w, evs')
    ensures n' == Apply(c, Apply(c, n, ReadTargetReady(vm)),
                        WriteStatus(n.status.(targetVMID := vm.id, phase := ValidatingTarget)))
  {
    SeePlan(c, n, vm);
    var s := n.status.(targetVMID := vm.id, phase := ValidatingTarget);
    evs', n' := GoOne(c, w, evs, n, FAIR, ReadTargetReady(vm), s);
  }

  /** Creating sees the Ready target. */
  lemma {:induction false} GoSee(c: Config, w: World, evs: seq<Event>, n: World, vm: Vm)
    returns (evs': seq<Event>, n': World)
    requires Leads(c, w, evs, n) && n.status.phase == Creating && HasReadyTarget(c, n, vm)
    ensures Complete(evs) ==> Complete(evs')
    ensures Leads(c, w, evs', n') && n'.vms == n.vms
    ensures n'.status == n.status.(targetVMID := vm.id, phase := ValidatingTarget)
    ensures SummaryOf(c, n'.trace) == Summarized(c, SummaryOf(c, n.trace), ReadTargetReady(vm))
  {
    evs', n' := SeeRuns(c, w, evs, n, vm);
    CallSummary(c, n.trace, ReadTargetReady(vm), WriteStatus(n'.status));
  }

  function ReadyStatus(st: Status, vm: Vm): Status {
    st.(targetVMID := vm.id, phase := Ready).SetCondition(CondReady, true)
  }

  lemma BecomeReadyPlan(c: Config, n: World, vm: Vm)
    requires Drivable(c, n) && n.status.phase == ValidatingTarget && HasReadyTarget(c, n, vm)
    ensures PlanOf(c, n, FreshReconcile(n, FAIR.(markFails := true)))
            == Then([ReadTargetReady(vm)], ReadyStatus(n.status, vm))
  {
  }

  lemma {:induction false} ReadyRuns(c: Config, w: World, evs: seq<Event>, n: World, vm: Vm)
    returns (evs': seq<Event>, n': World)
    requires Leads(c, w, evs, n) && n.status.phase == ValidatingTarget && HasReadyTarget(c, n, vm)
    ensures Complete(evs) ==> Complete(evs')
    ensures FreshRun(c, w, evs') && n' == Run(c, w, evs')
    ensures n' == Apply(c, Apply(c, n, ReadTargetReady(vm)), WriteStatus(ReadyStatus(n.status, vm)))
  {
    BecomeReadyPlan(c, n, vm);
    evs', n' := GoOne(c, w, evs, n, FAIR.(markFails := true), ReadTargetReady(vm), ReadyStatus(n.status, vm));
  }

  /** ValidatingTarget marks it and is done; marking is best effort and left out here. */
  lemma {:induction false} GoReady(c: Config, w: World, evs: seq<Event>, n: World, vm: Vm)
    returns (evs': seq<Event>, n': World)
    requires Leads(c, w, evs, n) && n.status.phase == ValidatingTarget && HasReadyTarget(c, n, vm)
    ensures Complete(evs) ==> Complete(evs')
    ensures Leads(c, w, evs', n') && n'.vms == n.vms && n'.status == ReadyStatus(n.status, vm)
    ensures SummaryOf(c, n'.trace) == Summarized(c, SummaryOf(c, n.trace), ReadTargetReady(vm))
  {
    evs', n' := ReadyRuns(c, w, evs, n, vm);
    CallSummary(c, n.trace, ReadTargetReady(vm), WriteStatus(n'.status));
  }

  lemma CleanupPlan(c: Config, n: World)
    requires Easy(c) && c.deleteAfter && Drivable(c, n)
    requires n.status.phase == Ready && !n.status.cleanedUp && n.status.snapshotID == ""
    ensures PlanOf(c, n, FreshReconcile(n, FAIR)) == Then([DeleteStaged, DeleteSource], n.status.(cleanedUp := true))
  {
  }

  /** Ready deletes the staged object and then the source. */
  lemma {:induction false} GoCleanup(c: Config, w: World, evs: seq<Event>, n: World)
    returns (evs': seq<Event>, t: seq<Effect>)
    requires Easy(c) && c.deleteAfter && Leads(c, w, evs, n) && n.status.phase == Ready
    requires !n.status.cleanedUp && n.status.snapshotID == ""
    ensures Complete(evs) ==> Complete(evs')
    ensures FreshRun(c, w, evs') && t == Run(c, w, evs').trace
    ensures SummaryOf(c, t) == Summarized(c, SummaryOf(c, n.trace), DeleteSource)
  {
    var s := n.status.(cleanedUp := true);
    CleanupPlan(c, n);
    var n';
    evs', n' := GoTwo(c, w, evs, n, FAIR, DeleteStaged, DeleteSource, s);
    t := n'.trace;
    GuardedSummary(c, n.trace, DeleteStaged, DeleteSource, WriteStatus(s));
  }

  lemma FinishSummary(c: Config, s: Summary, vm: Vm)
    requires c.deleteAfter && vm.ready && (s.lastExport.Some? ==> s.lastExport.value.ExportDisk?)
    ensures var read := Summarized(c, Summarized(c, s, ReadTargetReady(vm)), ReadTargetReady(vm));
            Summarized(c, read, DeleteSource)
            == s.(observed := s.observed + {vm.disk},
                  deletionSound := s.deletionSound && s.landed.Some? && (s.landed in s.observed || vm.disk == s.landed),
                  importsFinished := s.importsFinished && s.importing.Succeeded?,
                  deletedFailed := s.deletedFailed || ReportedFailed(s.importing, ImportOp, s.failed))
  {
    assert s.observed + {vm.disk} + {vm.disk} == s.observed + {vm.disk};
  }

  /**
    From a Ready target to the deletion of the source.  The deletion is justified if and only if
    that target, or one observed before, attaches the disk landed last; and it builds on a
    finished import if and only if the import is finished by now.
   */
  lemma {:induction false} GoFinish(c: Config, w: World, evs: seq<Event>, n: World, vm: Vm)
    returns (evs': seq<Event>, t: seq<Effect>)
    requires Easy(c) && c.deleteAfter && Leads(c, w, evs, n) && n.status.phase == Creating && HasReadyTarget(c, n, vm)
    requires !n.status.cleanedUp && n.status.snapshotID == ""
    ensures Complete(evs) ==> Complete(evs')
    ensures FreshRun(c, w, evs') && t == Run(c, w, evs').trace
    ensures var s := SummaryOf(c, n.trace);
            SummaryOf(c, t)
            == s.(observed := s.observed + {vm.disk},
                  deletionSound := s.deletionSound && s.landed.Some? && (s.landed in s.observed || vm.disk == s.landed),
                  importsFinished := s.importsFinished && s.importing.Succeeded?,
                  deletedFailed := s.deletedFailed || ReportedFailed(s.importing, ImportOp, s.failed))
  {
    var evs1, n1 := GoSee(c, w, evs, n, vm);
    var evs2, n2 := GoReady(c, w, evs1, n1, vm);
    evs', t := GoCleanup(c, w, evs2, n2);
    FinishSummary(c, SummaryOf(c, n.trace), vm);
  }

  // ---------------------------------------------------------------------------------------
  // What the summary means

  lemma SoundnessSnoc(c: Config, t: seq<Effect>, e: Effect)
    ensures Staging.StagingSound(t + [e])
            <==> Staging.StagingSound(t) && (e.ImportDisk? ==> Staging.ReadsLastExport(t, e))
    ensures Deletion.DeletionSound(c, t + [e])
            <==> Deletion.DeletionSound(c, t) && (e.DeleteSource? ==> Deletion.DeletionJustified(c, t))
  {
    var u := t + [e];
    assert u[..|t|] == t && u[|t|] == e;
    assert forall i :: 0 <= i < |t| ==> u[..i] == t[..i] && u[i] == t[i];
  }

  lemma UsesSnocIff(t: seq<Effect>, e: Effect, op: LongOp)
    ensures Tasks.UsesFinished(t + [e], op)
            <==> Tasks.UsesFinished(t, op) && (Tasks.Uses(e, op) ==> Tasks.Finished(t, op))
  {
    var u := t + [e];
    assert u[..|t|] == t && u[|t|] == e;
    assert forall i :: 0 <= i < |t| ==> u[..i] == t[..i] && u[i] == t[i];
  }

  lemma ObservedSnocIff(t: seq<Effect>, e: Effect, disk: Option<ImportedDisk>)
    ensures Deletion.ObservedReady(t + [e], disk)
            <==> Deletion.ObservedReady(t, disk) || (e.ReadTargetReady? && e.vm.ready && e.vm.disk == disk)
  {
    var u := t + [e];
    assert u[|t|] == e;
    if Deletion.ObservedReady(t, disk) {
      var i :| 0 <= i < |t| && t[i].ReadTargetReady? && t[i].vm.ready && t[i].vm.disk == disk;
      assert u[i] == t[i];
    }
  }

  lemma {:induction false} ObservedMeans(c: Config, t: seq<Effect>, disk: Option<ImportedDisk>)
    ensures disk in SummaryOf(c, t).observed <==> Deletion.ObservedReady(t, disk)
  {
    if t != [] {
      var before, e := t[..|t| - 1], t[|t| - 1];
      assert t == before + [e];
      ObservedMeans(c, before, disk);
      ObservedSnocIff(before, e, disk);
    }
  }

  lemma {:induction false} FailedMeans(c: Config, t: seq<Effect>, op: LongOp, task: string)
    ensures PollTask(op, task, TaskFailed) in SummaryOf(c, t).failed <==> PollTask(op, task, TaskFailed) in t
  {
    if t != [] {
      FailedMeans(c, t[..|t| - 1], op, task);
    }
  }

  lemma OnFailedSnoc(t: seq<Effect>, e: Effect, op: LongOp)
    ensures (exists i :: Tasks.OnFailed(t + [e], op, i))
            <==> || (exists i :: Tasks.OnFailed(t, op, i))
                 || (var s := Tasks.StateOf(t, op);
                     Tasks.Stakes(e, op) && s.Open? && PollTask(op, s.task, TaskFailed) in t)
  {
    var u := t + [e];
    assert u[..|t|] == t && u[|t|] == e;
    assert forall i: nat :: i < |t| ==> u[..i] == t[..i] && u[i] == t[i];
    assert forall i: nat :: i < |t| ==> (Tasks.OnFailed(u, op, i) <==> Tasks.OnFailed(t, op, i));
    assert Tasks.OnFailed(u, op, |t|)
      <==> Tasks.Stakes(e, op) && Tasks.StateOf(t, op).Open?
           && PollTask(op, Tasks.StateOf(t, op).task, TaskFailed) in t;
  }

  lemma {:induction false} FailureMeans(c: Config, t: seq<Effect>)
    ensures var s := SummaryOf(c, t);
            && (s.importedFailed <==> exists i :: Tasks.OnFailed(t, ExportOp, i))
            && (s.deletedFailed <==> exists i :: Tasks.OnFailed(t, ImportOp, i))
  {
    if t != [] {
      var before, e := t[..|t| - 1], t[|t| - 1];
      assert t == before + [e];
      FailureMeans(c, before);
      CallsMean(c, before);
      OnFailedSnoc(before, e, ExportOp);
      OnFailedSnoc(before, e, ImportOp);
      forall op, task {
        FailedMeans(c, before, op, task);
      }
    }
  }

  lemma {:induction false} CallsMean(c: Config, t: seq<Effect>)
    ensures var s := SummaryOf(c, t);
            && s.exporting == Tasks.StateOf(t, ExportOp) && s.importing == Tasks.StateOf(t, ImportOp)
            && s.lastExport == Staging.LastExport(t) && s.landed == Deletion.LastLanded(c, t)
  {
    if t != [] {
      CallsMean(c, t[..|t| - 1]);
    }
  }

  /** The summary's verdicts are the properties of the run theorems. */
  lemma {:induction false} SummaryMeans(c: Config, t: seq<Effect>)
    ensures var s := SummaryOf(c, t);
            && s.stagingSound == Staging.StagingSound(t) && s.deletionSound == Deletion.DeletionSound(c, t)
            && s.exportsFinished == Tasks.UsesFinished(t, ExportOp)
            && s.importsFinished == Tasks.UsesFinished(t, ImportOp)
  {
    if t != [] {
      var before, e := t[..|t| - 1], t[|t| - 1];
      assert t == before + [e];
      SummaryMeans(c, before);
      CallsMean(c, before);
      ObservedMeans(c, before, Deletion.LastLanded(c, before));
      SoundnessSnoc(c, before, e);
      UsesSnocIff(before, e, ExportOp);
      UsesSnocIff(before, e, ImportOp);
    }
  }
}
