/**
  Where the guarantees stop.  For each hypothesis of the staging and source-deletion theorems
  this module builds runs in which it fails and the property with it, for every specification the
  driver handles; the demo below is one.  When exactly the property fails is a matter of every
  continuation, and is stated here for lost writes, and for retries, stale reads and claimed names
  in the modules on retries and continuations.
 */
module MigrationLimits {
  import opened Common
  import opened MigrationDrive
  import opened MigrationPlan
  import opened MigrationShape
  import opened MigrationWorld
  import Composition = MigrationPower
  import Continuations = MigrationContinuations
  import Deletion = MigrationSourceDeletion
  import Staging = MigrationStaging
  import Tasks = MigrationTasks

  const DEMO :=
    Config("ns", "mig", "src", "dst", "", false, None, false, true, Some(Nfs(Some("nfs://server/export"))), "",
           Some(RetryPolicy(Some(1), None, None)), false, Libvirt, Libvirt)

  const START :=
    World(INITIAL_STATUS, false, false, false, {},
          map[Key("ns", "src") := Vm("vm-1", true, WantOn, None, false, false)],
          PowerOn, Idle, 0, [INITIAL_STATUS], [])

  /** A new migration that may be retried and deletes its source in the end. */
  predicate Typical(c: Config, w: World) {
    Easy(c) && Fresh(c, w) && c.deleteAfter && c.retryPolicy.Some? && c.MaxRetries() > 0
  }

  lemma DemoIsTypical()
    ensures Typical(DEMO, START) && DEMO.TargetKey() !in START.vms
  {
  }

  /** A run whose reconciles all complete loses no write. */
  lemma {:induction false} CompleteIsRecorded(c: Config, w: World, evs: seq<Event>, op: LongOp)
    requires FreshRun(c, w, evs) && Complete(evs)
    ensures Tasks.RecordedRun(c, w, evs, op)
    decreases |evs|
  {
    if evs != [] {
      CompleteIsRecorded(c, w, evs[..|evs| - 1], op);
    }
  }

  lemma ExportableFacts(c: Config)
    requires Easy(c)
    ensures var st := Exportable(c);
            && st.phase == Exporting && st.taskRef == "" && st.retryCount == 0 && st.lastRetry.None?
            && !ExportAlreadyDone(st, {}) && !ImportAlreadyDone(st, {}) && ExpectedChecksum(st) == ""
            && st.snapshotID == "" && !st.cleanedUp
  {
  }

  /** What recording an export, and going past it, leaves on record. */
  lemma ExportFacts(c: Config, st: Status, answer: ExportResult, guard: set<LongOp>)
    requires st.phase == Exporting && answer.Exported? && ImportOp !in guard
    ensures var s := RecordExport(c, st, answer.exportID, answer.checksum, answer.task);
            && ExpectedChecksum(s) == answer.checksum
            && s.phase == (if answer.task == "" then Importing else Exporting) && s.taskRef == answer.task
            && s.exportID == answer.exportID && s.retryCount == st.retryCount && s.lastRetry == st.lastRetry
            && (ImportAlreadyDone(s, guard) <==> ImportAlreadyDone(st, {}))
    ensures var s := AfterExport(st);
            ExpectedChecksum(s) == ExpectedChecksum(st) && (ImportAlreadyDone(s, guard) <==> ImportAlreadyDone(st, {}))
  {
  }

  // ---------------------------------------------------------------------------------------
  // A retry over a task that is open or has failed

  const ASYNC_EXPORT := Exported("export", "sum", "task")
  const EXPORT := Exported("export", "sum", "")
  const ASYNC_IMPORT := Imported("disk", "path", "sum", "task")
  const IMPORT := Imported("disk", "path", "sum", "")

  /**
    After a retry the operation is issued again if and only if it was not issued before, as far
    as status and guard know: whatever became of its task, an issued one is taken as done.
   */
  lemma ReissuedIff(c: Config, n: World, now: int)
    requires Easy(c) && Drivable(c, n)
    ensures var st, retried := n.status, Validated(c, RetryStatus(n.status, now));
            && (ExportAlreadyDone(retried, n.guard) <==> ExportAlreadyDone(st, n.guard))
            && (ImportAlreadyDone(retried, n.guard) <==> ImportAlreadyDone(st, n.guard))
            && retried.phase == Exporting && retried.taskRef == ""
  {
  }

  lemma ExportsAgainIff(c: Config, n: World, now: int, answer: ExportResult)
    requires Easy(c) && Drivable(c, n)
    ensures var again := n.(status := Validated(c, RetryStatus(n.status, now)),
                            history := n.history + [Validated(c, RetryStatus(n.status, now))]);
            var p := PlanOf(c, again, FreshReconcile(again, FAIR.(exported := answer)));
            (exists e :: e in p.calls && e.ExportDisk?) <==> !ExportAlreadyDone(n.status, n.guard)
  {
    var s := Validated(c, RetryStatus(n.status, now));
    var again := n.(status := s, history := n.history + [s]);
    ReissuedIff(c, n, now);
    if ExportAlreadyDone(n.status, n.guard) {
      assert PlanOf(c, again, FreshReconcile(again, FAIR.(exported := answer))) == Write(AfterExport(s));
    } else {
      ExportPlan(c, again, answer);
      assert ExportCalls(c, s, Url(c), answer).calls[1].ExportDisk?;
    }
  }

  lemma ImportsAgainIff(c: Config, n: World, now: int, answer: ImportResult)
    requires Easy(c) && Drivable(c, n)
    ensures var s := AfterExport(Validated(c, RetryStatus(n.status, now)));
            var again := n.(status := s, history := n.history + [s]);
            var p := PlanOf(c, again, FreshReconcile(again, FAIR.(imported := answer)));
            (exists e :: e in p.calls && e.ImportDisk?) <==> !ImportAlreadyDone(n.status, n.guard)
  {
    var s := AfterExport(Validated(c, RetryStatus(n.status, now)));
    var again := n.(status := s, history := n.history + [s]);
    ReissuedIff(c, n, now);
    if ImportAlreadyDone(n.status, n.guard) {
      assert PlanOf(c, again, FreshReconcile(again, FAIR.(imported := answer))) == Write(AfterImport(s));
    } else {
      ImportPlan(c, again, answer);
      assert ImportCalls(c, s, Url(c), answer).calls[1].ImportDisk?;
    }
  }

  /** An export is accepted and answers with a task. */
  lemma {:induction false} GoOpenExport(c: Config, w: World) returns (evs: seq<Event>, n: World)
    requires Typical(c, w)
    ensures Complete(evs) && Leads(c, w, evs, n) && n.status.phase == Exporting && n.status.taskRef == "task"
    ensures ExportAlreadyDone(n.status, n.guard) && !ImportAlreadyDone(n.status, n.guard)
    ensures n.status.retryCount == 0 && n.status.lastRetry.None?
    ensures SummaryOf(c, n.trace).exporting == Tasks.Open("task")
  {
    evs, n := SetOut(c, w);
    ExportableFacts(c);
    ExportFacts(c, n.status, ASYNC_EXPORT, {ExportOp});
    evs, n := GoExport(c, w, evs, n, ASYNC_EXPORT);
  }

  /** An export is accepted, and its task reported failed. */
  lemma {:induction false} GoFailExport(c: Config, w: World) returns (evs: seq<Event>, n: World)
    requires Typical(c, w)
    ensures Complete(evs) && Leads(c, w, evs, n) && RetryDue(c, n.status, 0)
    ensures ExportAlreadyDone(n.status, n.guard) && !ImportAlreadyDone(n.status, n.guard)
    ensures var s := SummaryOf(c, n.trace); ReportedFailed(s.exporting, ExportOp, s.failed)
  {
    evs, n := GoOpenExport(c, w);
    FailureFacts(c, n.status, n.guard);
    evs, n := GoFailedPoll(c, w, evs, n, ExportOp);
  }

  lemma FailureFacts(c: Config, st: Status, guard: set<LongOp>)
    ensures var s := FailedStatus(st);
            && (ExportAlreadyDone(s, guard) <==> ExportAlreadyDone(st, guard))
            && (ImportAlreadyDone(s, guard) <==> ImportAlreadyDone(st, guard))
            && (Exhausted(c, s) <==> Exhausted(c, st)) && s.phase == Failed && s.lastRetry == st.lastRetry
  {
  }

  /**
    Every typical migration has a run, losing no write, that imports at i an export whose task was
    reported failed before.
   */
  lemma {:induction false} FailedExportIsImported(c: Config, w: World) returns (evs: seq<Event>, i: nat)
    requires Typical(c, w)
    ensures Tasks.RecordedRun(c, w, evs, ExportOp) && Tasks.OnFailed(Run(c, w, evs).trace, ExportOp, i)
    ensures !Tasks.UsesFinished(Run(c, w, evs).trace, ExportOp)
  {
    var n;
    evs, n := GoFailExport(c, w);
    ReissuedIff(c, n, 0);
    evs, n := GoRetry(c, w, evs, n, 0);
    evs, n := GoPastExport(c, w, evs, n);
    evs, n := GoImport(c, w, evs, n, IMPORT);
    CompleteIsRecorded(c, w, evs, ExportOp);
    i := FailedAt(c, Run(c, w, evs).trace, ExportOp);
  }

  /** Where data is staked on a failed call. */
  lemma {:induction false} FailedAt(c: Config, t: seq<Effect>, op: LongOp) returns (i: nat)
    requires var s := SummaryOf(c, t); if op == ExportOp then s.importedFailed else s.deletedFailed
    ensures Tasks.OnFailed(t, op, i) && !Tasks.UsesFinished(t, op)
  {
    FailureMeans(c, t);
    i :| Tasks.OnFailed(t, op, i);
  }

  /** The migration is about to import, and may go on to delete its source. */
  predicate Finishing(c: Config, n: World) {
    && c.deleteAfter && c.TargetKey() !in n.vms && n.status.diskInfo.Some?
    && !n.status.cleanedUp && n.status.snapshotID == ""
  }

  /** From Creating, with no target yet, to the deletion of the source. */
  lemma {:induction false} GoCreateAndFinish(c: Config, w: World, evs: seq<Event>, n: World)
    returns (evs': seq<Event>)
    requires Easy(c) && Leads(c, w, evs, n) && n.status.phase == Creating && Finishing(c, n)
    ensures Complete(evs) ==> Complete(evs')
    ensures FreshRun(c, w, evs')
    ensures var s, t := SummaryOf(c, n.trace), SummaryOf(c, Run(c, w, evs').trace);
            && (t.deletedFailed <==> s.deletedFailed || ReportedFailed(s.importing, ImportOp, s.failed))
            && (t.deletionSound <==>
                  s.deletionSound && s.landed.Some? && (s.landed in s.observed || Attached(n.status) == s.landed))
  {
    var n1, t;
    evs', n1 := GoCreate(c, w, evs, n);
    evs', n1 := GoObserve(c, w, evs', n1);
    evs', t := GoFinish(c, w, evs', n1, n1.vms[c.TargetKey()]);
  }

  /** From nothing to Importing, by an export that answers at once. */
  lemma {:induction false} GoStage(c: Config, w: World, answer: ExportResult) returns (evs: seq<Event>, n: World)
    requires Easy(c) && Fresh(c, w) && answer.Exported? && answer.task == ""
    ensures Complete(evs) && Leads(c, w, evs, n) && n.vms == w.vms && n.guard == {ExportOp}
    ensures n.status == RecordExport(c, Exportable(c), answer.exportID, answer.checksum, "")
    ensures SummaryOf(c, n.trace)
            == NOTHING_DONE.(exporting := Tasks.Succeeded, lastExport := Some(ExportDisk(Url(c), "", answer)))
  {
    evs, n := SetOut(c, w);
    evs, n := GoExport(c, w, evs, n, answer);
  }

  /** What recording an import with a task leaves on record. */
  lemma ImportFacts(c: Config, st: Status, answer: ImportResult, guard: set<LongOp>)
    requires answer.Imported? && answer.task != "" && ImportOp in guard
    ensures var s := RecordImport(c, st, answer.diskID, answer.path, answer.checksum, answer.task);
            && s.phase == st.phase && s.taskRef == answer.task && s.diskInfo.Some?
            && s.retryCount == st.retryCount && s.lastRetry == st.lastRetry
            && s.cleanedUp == st.cleanedUp && s.snapshotID == st.snapshotID
            && (ExportAlreadyDone(s, guard) <==> ExportAlreadyDone(st, guard)) && ImportAlreadyDone(s, guard)
  {
  }

  /** An import is accepted and answers with a task. */
  lemma {:induction false} GoOpenImport(c: Config, w: World) returns (evs: seq<Event>, n: World)
    requires Typical(c, w) && c.TargetKey() !in w.vms
    ensures Complete(evs) && Leads(c, w, evs, n) && n.status.phase == Importing && n.status.taskRef == "task"
    ensures ExportAlreadyDone(n.status, n.guard) && ImportAlreadyDone(n.status, n.guard)
    ensures n.status.retryCount == 0 && n.status.lastRetry.None? && Finishing(c, n)
    ensures SummaryOf(c, n.trace).importing == Tasks.Open("task")
  {
    evs, n := GoStage(c, w, EXPORT);
    ImportFacts(c, n.status, ASYNC_IMPORT, {ExportOp, ImportOp});
    evs, n := GoImport(c, w, evs, n, ASYNC_IMPORT);
  }

  /** An import is accepted, and its task reported failed. */
  lemma {:induction false} GoFailImport(c: Config, w: World) returns (evs: seq<Event>, n: World)
    requires Typical(c, w) && c.TargetKey() !in w.vms
    ensures Complete(evs) && Leads(c, w, evs, n) && RetryDue(c, n.status, 0) && Finishing(c, n)
    ensures ExportAlreadyDone(n.status, n.guard) && ImportAlreadyDone(n.status, n.guard)
    ensures var s := SummaryOf(c, n.trace); ReportedFailed(s.importing, ImportOp, s.failed)
  {
    evs, n := GoOpenImport(c, w);
    FailureFacts(c, n.status, n.guard);
    evs, n := GoFailedPoll(c, w, evs, n, ImportOp);
  }

  /**
    Every typical migration to an unclaimed name has a run, losing no write, that deletes the
    source at i although the task of the import its target is attached to was reported failed.
   */
  lemma {:induction false} FailedImportDeletesSource(c: Config, w: World) returns (evs: seq<Event>, i: nat)
    requires Typical(c, w) && c.TargetKey() !in w.vms
    ensures Tasks.RecordedRun(c, w, evs, ImportOp) && Tasks.OnFailed(Run(c, w, evs).trace, ImportOp, i)
    ensures !Tasks.UsesFinished(Run(c, w, evs).trace, ImportOp)
  {
    var n;
    evs, n := GoFailImport(c, w);
    ReissuedIff(c, n, 0);
    evs, n := GoRetry(c, w, evs, n, 0);
    evs, n := GoPastExport(c, w, evs, n);
    evs, n := GoPastImport(c, w, evs, n);
    evs := GoCreateAndFinish(c, w, evs, n);
    CompleteIsRecorded(c, w, evs, ImportOp);
    i := FailedAt(c, Run(c, w, evs).trace, ImportOp);
  }

  // ---------------------------------------------------------------------------------------
  // A lost record while the process lives

  function Losing(n: World, env: Env): Event {
    Reconcile(Object(n.status, n.finalizer, n.deleting), n.vms, n.power, env, WriteLost(2))
  }

  /** One more reconcile, losing its closing write after two requests. */
  lemma {:induction false} GoLose(c: Config, w: World, evs: seq<Event>, n: World, env: Env, p: Plan)
    returns (evs': seq<Event>, n': World)
    requires Leads(c, w, evs, n) && env.createFails && PlanOf(c, n, FreshReconcile(n, env)) == p
    requires p.named.None? && |p.calls| == 2 && p.write.Some?
    ensures FreshRun(c, w, evs') && n' == Run(c, w, evs') && n' == Apply(c, Apply(c, n, p.calls[0]), p.calls[1])
  {
    assert Effects(p)[..2] == [p.calls[0], p.calls[1]];
    ApplyTwo(c, n, p.calls[0], p.calls[1], (_, _, _) => true);
    FreshSnoc(c, w, evs, Losing(n, env));
    evs' := evs + [Losing(n, env)];
    n' := Run(c, w, evs');
  }

  lemma {:induction false} LoseExportRuns(c: Config, w: World, evs: seq<Event>, n: World, answer: ExportResult)
    returns (evs': seq<Event>, n': World)
    requires Easy(c) && Leads(c, w, evs, n) && n.status.phase == Exporting
    requires !ExportAlreadyDone(n.status, n.guard) && answer.Exported?
    ensures FreshRun(c, w, evs') && n' == Run(c, w, evs')
    ensures n' == Apply(c, Apply(c, n, ClaimGuard(ExportOp)), ExportDisk(Url(c), n.status.snapshotID, answer))
  {
    ExportPlan(c, n, answer);
    evs', n' := GoLose(c, w, evs, n, FAIR.(exported := answer), ExportCalls(c, n.status, Url(c), answer));
  }

  /** The provider accepts an export, and nothing but the guard remembers it. */
  lemma {:induction false} GoLoseExport(c: Config, w: World, evs: seq<Event>, n: World, answer: ExportResult)
    returns (evs': seq<Event>, n': World)
    requires Easy(c) && Leads(c, w, evs, n) && n.status.phase == Exporting
    requires !ExportAlreadyDone(n.status, n.guard) && answer.Exported?
    ensures Leads(c, w, evs', n') && n'.status == n.status && n'.guard == n.guard + {ExportOp}
    ensures SummaryOf(c, n'.trace)
            == Summarized(c, SummaryOf(c, n.trace), ExportDisk(Url(c), n.status.snapshotID, answer))
  {
    evs', n' := LoseExportRuns(c, w, evs, n, answer);
    SilentSnoc(c, n.trace, ClaimGuard(ExportOp));
    SummarySnoc(c, n.trace + [ClaimGuard(ExportOp)], ExportDisk(Url(c), n.status.snapshotID, answer));
  }

  lemma {:induction false} LoseImportRuns(c: Config, w: World, evs: seq<Event>, n: World, answer: ImportResult)
    returns (evs': seq<Event>, n': World)
    requires Easy(c) && Leads(c, w, evs, n) && n.status.phase == Importing
    requires !ImportAlreadyDone(n.status, n.guard) && answer.Imported?
    ensures FreshRun(c, w, evs') && n' == Run(c, w, evs')
    ensures n' == Apply(c, Apply(c, n, ClaimGuard(ImportOp)),
                        ImportDisk(Url(c), ExpectedChecksum(n.status), ImportFormat(c), answer))
  {
    ImportPlan(c, n, answer);
    evs', n' := GoLose(c, w, evs, n, FAIR.(imported := answer), ImportCalls(c, n.status, Url(c), answer));
  }

  /** The provider accepts an import, and nothing but the guard remembers it. */
  lemma {:induction false} GoLoseImport(c: Config, w: World, evs: seq<Event>, n: World, answer: ImportResult)
    returns (evs': seq<Event>, n': World)
    requires Easy(c) && Leads(c, w, evs, n) && n.status.phase == Importing
    requires !ImportAlreadyDone(n.status, n.guard) && answer.Imported?
    ensures Leads(c, w, evs', n') && n'.status == n.status && n'.guard == n.guard + {ImportOp} && n'.vms == n.vms
    ensures SummaryOf(c, n'.trace)
            == Summarized(c, SummaryOf(c, n.trace),
                          ImportDisk(Url(c), ExpectedChecksum(n.status), ImportFormat(c), answer))
  {
    var request := ImportDisk(Url(c), ExpectedChecksum(n.status), ImportFormat(c), answer);
    evs', n' := LoseImportRuns(c, w, evs, n, answer);
    SilentSnoc(c, n.trace, ClaimGuard(ImportOp));
    SummarySnoc(c, n.trace + [ClaimGuard(ImportOp)], request);
  }

  lemma ReadBackIff(c: Config, s: Summary, written: Effect, read: Effect)
    requires s.lastExport.Some? ==> s.lastExport.value.ExportDisk?
    requires written.ExportDisk? && written.exported.Exported? && read.ImportDisk? && read.url == written.url
    ensures Summarized(c, Summarized(c, s, written), read).stagingSound
            <==> s.stagingSound && read.expectedChecksum == written.exported.checksum
  {
  }

  /** A typical migration imports without the checksum its only export returned. */
  lemma {:induction false} LostExportRecordBreaksStaging(c: Config, w: World) returns (evs: seq<Event>)
    requires Typical(c, w)
    ensures FreshRun(c, w, evs) && !Staging.StagingSound(Run(c, w, evs).trace)
  {
    var n;
    evs, n := SetOut(c, w);
    ExportableFacts(c);
    ExportFacts(c, n.status, EXPORT, {ExportOp});
    var was := n;
    evs, n := GoLoseExport(c, w, evs, n, EXPORT);
    evs, n := GoPastExport(c, w, evs, n);
    var request := ImportDisk(Url(c), ExpectedChecksum(n.status), ImportFormat(c), IMPORT);
    evs, n := GoImport(c, w, evs, n, IMPORT);
    ReadBackIff(c, SummaryOf(c, was.trace), ExportDisk(Url(c), was.status.snapshotID, EXPORT), request);
    SummaryMeans(c, Run(c, w, evs).trace);
  }

  /** The world after a pass over an operation taken as done. */
  lemma AdvanceSummary(c: Config, op: LongOp, w: World, next: Status, p: Plan)
    requires Advances(op, w.status, next, p)
    ensures var s, t := SummaryOf(c, w.trace), SummaryOf(c, AfterPlan(c, w, p).trace);
            && t.lastExport == s.lastExport && t.landed == s.landed
            && AfterPlan(c, w, p).status == next
            && AfterPlan(c, w, p).finalizer == w.finalizer && AfterPlan(c, w, p).deleting == w.deleting
  {
    if w.status.taskRef == "" {
      SilentSnoc(c, w.trace, WriteStatus(next));
    } else {
      ApplyOne(c, w, p.calls[0], (_, _, _) => true);
      CallSummary(c, w.trace, p.calls[0], WriteStatus(next));
    }
  }

  /** The requests of an accepted call, performed, and its closing write lost. */
  lemma LostSummary(c: Config, op: LongOp, w: World, p: Plan)
    requires p.named.None? && |p.calls| == 2 && p.calls[0] == ClaimGuard(op)
    ensures AfterCalls(c, w, p) == Apply(c, Apply(c, w, p.calls[0]), p.calls[1])
    ensures SummaryOf(c, AfterCalls(c, w, p).trace) == Summarized(c, SummaryOf(c, w.trace), p.calls[1])
  {
    assert p.calls == [p.calls[0], p.calls[1]];
    ApplyTwo(c, w, p.calls[0], p.calls[1], (_, _, _) => true);
    SilentSnoc(c, w.trace, p.calls[0]);
    SummarySnoc(c, w.trace + [p.calls[0]], p.calls[1]);
  }

  lemma LostExportWorld(c: Config, w: World, env: Env, lost: World) returns (written: Effect)
    requires w.finalizer && !w.deleting && w.status.phase == Exporting
    requires var p := PlanOf(c, w, FreshReconcile(w, env)); Tasks.Accepts(p, ExportOp) && lost == AfterCalls(c, w, p)
    ensures lost.status == w.status
    ensures written.ExportDisk? && written.exported == env.exported && env.exported.Exported?
    ensures StorageUrl(c, w.status.pvcName) == Some(written.url)
    ensures SummaryOf(c, lost.trace).lastExport == Some(written)
  {
    var p := PlanOf(c, w, FreshReconcile(w, env));
    written := p.calls[1];
    ExportingHasShape(c, w.status, w.guard, w.vms, env);
    LostSummary(c, ExportOp, w, p);
  }

  /** A pass that goes on past an operation the guard takes as done. */
  predicate GoesOn(c: Config, op: LongOp, w: World, env: Env, on: World) {
    var p := PlanOf(c, w, FreshReconcile(w, env));
    && w.finalizer && !w.deleting && op in w.guard
    && w.status.phase == (if op == ExportOp then Exporting else Importing)
    && p.write.Some? && p.write.value.phase != Failed && on == AfterPlan(c, w, p)
  }

  lemma GoesOnByAdvancing(c: Config, op: LongOp, w: World, env: Env, on: World)
    requires GoesOn(c, op, w, env, on)
    ensures Advances(op, w.status, Tasks.Next(op, w.status), PlanOf(c, w, FreshReconcile(w, env)))
  {
    if op == ExportOp {
      ExportingHasShape(c, w.status, w.guard, w.vms, env);
    } else {
      ImportingHasShape(c, w.status, w.guard, env);
    }
  }

  lemma GoingOnKeeps(c: Config, op: LongOp, w: World, env: Env, on: World)
    requires GoesOn(c, op, w, env, on)
    ensures on.status == Tasks.Next(op, w.status) && on.finalizer && !on.deleting
    ensures var s, t := SummaryOf(c, w.trace), SummaryOf(c, on.trace);
            t.lastExport == s.lastExport && t.landed == s.landed
  {
    GoesOnByAdvancing(c, op, w, env, on);
    AdvanceSummary(c, op, w, Tasks.Next(op, w.status), PlanOf(c, w, FreshReconcile(w, env)));
  }

  /** The process lives on after losing the record of an accepted export, and the next pass goes on. */
  predicate LosesExport(c: Config, w: World, env: Env, lost: World, advancing: Env, on: World) {
    var p := PlanOf(c, w, FreshReconcile(w, env));
    && w.finalizer && !w.deleting && w.status.phase == Exporting && Tasks.Accepts(p, ExportOp)
    && lost == AfterCalls(c, w, p) && GoesOn(c, ExportOp, lost, advancing, on)
  }

  lemma LostExportIsLast(c: Config, w: World, env: Env, lost: World, advancing: Env, on: World)
    returns (written: Effect)
    requires LosesExport(c, w, env, lost, advancing, on)
    ensures written.ExportDisk? && written.exported == env.exported && env.exported.Exported?
    ensures StorageUrl(c, w.status.pvcName) == Some(written.url)
    ensures on.status == AfterExport(w.status) && Staging.LastExport(on.trace) == Some(written)
    ensures on.finalizer && !on.deleting
  {
    written := LostExportWorld(c, w, env, lost);
    GoingOnKeeps(c, ExportOp, lost, advancing, on);
    CallsMean(c, on.trace);
  }

  /**
    A lost export decides.  For every specification and every world: once the record of an accepted
    export is lost while the process lives and the next pass goes on, in every continuation with
    fresh reads every import reads the last export as it should if and only if the checksum on
    record is the one the lost answer brought.
   */
  lemma {:induction false} LostExportDecides(
      c: Config, w: World, env: Env, lost: World, advancing: Env, on: World, evs: seq<Event>, i: nat)
    requires LosesExport(c, w, env, lost, advancing, on) && FreshRun(c, on, evs)
    requires |on.trace| <= i < |Run(c, on, evs).trace| && Run(c, on, evs).trace[i].ImportDisk?
    ensures var t := Run(c, on, evs).trace;
            && env.exported.Exported?
            && (Staging.ReadsLastExport(t[..i], t[i]) <==> ExpectedChecksum(w.status) == env.exported.checksum)
  {
    var written := LostExportIsLast(c, w, env, lost, advancing, on);
    Continuations.RecordDecides(c, written.url, on, evs, i);
  }

  /** The same for an accepted import. */
  predicate LosesImport(c: Config, w: World, env: Env, lost: World, advancing: Env, on: World) {
    var p := PlanOf(c, w, FreshReconcile(w, env));
    && w.finalizer && !w.deleting && w.status.phase == Importing && Tasks.Accepts(p, ImportOp)
    && env.imported.Imported? && lost == AfterCalls(c, w, p) && GoesOn(c, ImportOp, lost, advancing, on)
  }

  lemma LostImportWorld(c: Config, w: World, env: Env)
    requires w.finalizer && !w.deleting && w.status.phase == Importing
    requires Tasks.Accepts(PlanOf(c, w, FreshReconcile(w, env)), ImportOp)
    ensures var p := PlanOf(c, w, FreshReconcile(w, env));
            var n := AfterCalls(c, w, p);
            && n.status == w.status && ImportOp in n.guard && n.finalizer && !n.deleting
            && p.calls[1].imported.Imported? && p.calls[1].imported == env.imported
            && SummaryOf(c, n.trace) == Summarized(c, SummaryOf(c, w.trace), p.calls[1])
  {
    var p := PlanOf(c, w, FreshReconcile(w, env));
    ImportingHasShape(c, w.status, w.guard, env);
    LostSummary(c, ImportOp, w, p);
  }

  lemma LostImportIsLast(c: Config, w: World, env: Env, lost: World, advancing: Env, on: World)
    requires LosesImport(c, w, env, lost, advancing, on)
    ensures Deletion.LastLanded(c, on.trace) == Some(DiskOf(c, env.imported))
    ensures on.status == AfterImport(w.status) && on.finalizer && !on.deleting
  {
    LostImportWorld(c, w, env);
    GoingOnKeeps(c, ImportOp, lost, advancing, on);
    CallsMean(c, on.trace);
  }

  /**
    A lost import decides.  For every specification and every world: once the record of an accepted
    import is lost while the process lives and the next pass goes on, in every continuation with
    fresh reads every target created is attached to the disk landed last, and every deletion of the
    source is justified, if and only if the disk on record is the one the lost answer announced.
   */
  lemma {:induction false} LostImportDecides(
      c: Config, w: World, env: Env, lost: World, advancing: Env, on: World, evs: seq<Event>, i: nat)
    requires LosesImport(c, w, env, lost, advancing, on) && w.status.diskInfo.Some?
    requires c.TargetKey() in on.vms ==> on.vms[c.TargetKey()].disk == Attached(w.status)
    requires !Deletion.ObservedReady(on.trace, Some(DiskOf(c, env.imported)))
    requires FreshRun(c, on, evs) && |on.trace| <= i < |Run(c, on, evs).trace|
    ensures var t, agrees := Run(c, on, evs).trace, Attached(w.status) == Some(DiskOf(c, env.imported));
            && (t[i].CreateTarget? ==> (Some(t[i].disk) == Deletion.LastLanded(c, t[..i]) <==> agrees))
            && (t[i].DeleteSource? ==> (Deletion.DeletionJustified(c, t[..i]) <==> agrees))
  {
    LostImportIsLast(c, w, env, lost, advancing, on);
    Continuations.ImportRecordDecides(c, on, evs, i);
  }

  /** A typical migration deletes its source with a target that is attached to no imported disk. */
  lemma {:induction false} LostImportRecordDeletesSource(c: Config, w: World) returns (evs: seq<Event>)
    requires Typical(c, w) && c.TargetKey() !in w.vms
    ensures FreshRun(c, w, evs) && !Deletion.DeletionSound(c, Run(c, w, evs).trace)
  {
    var n;
    evs, n := GoStage(c, w, EXPORT);
    evs, n := GoLoseImport(c, w, evs, n, IMPORT);
    evs, n := GoPastImport(c, w, evs, n);
    evs := GoCreateAndFinish(c, w, evs, n);
    SummaryMeans(c, Run(c, w, evs).trace);
  }

  // ---------------------------------------------------------------------------------------
  // A target name that is already taken

  /**
    A VM that already bears the target's name and is Ready is taken for the target: every such
    migration that deletes its source has a run, losing no write, that does so unjustifiedly.
   */
  lemma {:induction false} ClaimedNameDeletesSource(c: Config, w: World) returns (evs: seq<Event>)
    requires Easy(c) && c.deleteAfter && Fresh(c, w) && c.TargetKey() in w.vms
    requires w.vms[c.TargetKey()].id != "" && w.vms[c.TargetKey()].ready
    ensures Tasks.RecordedRun(c, w, evs, ImportOp) && !Deletion.DeletionSound(c, Run(c, w, evs).trace)
  {
    var n, t;
    var vm := w.vms[c.TargetKey()];
    var answer := if vm.disk == Some(DiskOf(c, IMPORT)) then IMPORT.(diskID := "other") else IMPORT;
    evs, n := GoStage(c, w, EXPORT);
    evs, n := GoImport(c, w, evs, n, answer);
    evs, t := GoFinish(c, w, evs, n, vm);
    CompleteIsRecorded(c, w, evs, ImportOp);
    SummaryMeans(c, t);
  }

  // ---------------------------------------------------------------------------------------
  // A stale read

  /** A reconcile after a restart that reads an object from before the export, and dies on the way. */
  function StaleExport(n: World, was: Status, answer: ExportResult): Event {
    Reconcile(Object(was, true, false), n.vms, n.power, FAIR.(exported := answer), Crashed(2))
  }

  lemma StaleExportSteps(c: Config, n: World, was: Status, answer: ExportResult)
    requires Easy(c) && Drivable(c, n) && was in n.history && was.phase == Exporting
    requires n.guard == {} && !ExportAlreadyDone(was, {})
    ensures Enabled(c, n, StaleExport(n, was, answer))
    ensures Step(c, n, StaleExport(n, was, answer))
            == Apply(c, Apply(c, n, ClaimGuard(ExportOp)), ExportDisk(Url(c), was.snapshotID, answer)).(guard := {})
  {
    var p := ExportCalls(c, was, Url(c), answer);
    var view := n.(status := was);
    ExportPlan(c, view, answer);
    assert PlanOf(c, n, StaleExport(n, was, answer)) == p;
    assert Effects(p)[..2] == [p.calls[0], p.calls[1]];
    ApplyTwo(c, n, p.calls[0], p.calls[1], (_, _, _) => true);
  }

  /** The process restarts, and a reconcile of an object from before the export exports again. */
  lemma {:induction false} GoStale(c: Config, w: World, evs: seq<Event>, n: World, was: Status, answer: ExportResult)
    returns (evs': seq<Event>, n': World)
    requires Easy(c) && Leads(c, w, evs, n) && was in n.history && was.phase == Exporting && !ExportAlreadyDone(was, {})
    ensures ValidRun(c, w, evs') && n' == Run(c, w, evs') && Drivable(c, n') && n'.status == n.status && n'.guard == {}
    ensures SummaryOf(c, n'.trace)
            == Summarized(c, SummaryOf(c, n.trace), ExportDisk(Url(c), was.snapshotID, answer))
  {
    var n1, ev := n.(guard := {}), StaleExport(n, was, answer);
    FreshIsValid(c, w, evs);
    RunSnoc(c, w, evs, Restart);
    StaleExportSteps(c, n1, was, answer);
    RunSnoc(c, w, evs + [Restart], ev);
    evs' := evs + [Restart] + [ev];
    n' := Step(c, n1, ev);
    SilentSnoc(c, n.trace, ClaimGuard(ExportOp));
    SummarySnoc(c, n.trace + [ClaimGuard(ExportOp)], ExportDisk(Url(c), was.snapshotID, answer));
  }

  /** The fresh reconcile after it imports. */
  lemma {:induction false} StaleImport(c: Config, w: World, evs: seq<Event>, n: World) returns (evs': seq<Event>)
    requires Easy(c) && ValidRun(c, w, evs) && n == Run(c, w, evs) && Drivable(c, n)
    requires n.status.phase == Importing && !ImportAlreadyDone(n.status, n.guard)
    ensures ValidRun(c, w, evs')
    ensures SummaryOf(c, Run(c, w, evs').trace)
            == Summarized(c, SummaryOf(c, n.trace),
                          ImportDisk(Url(c), ExpectedChecksum(n.status), ImportFormat(c), IMPORT))
  {
    var env, p := FAIR.(imported := IMPORT), ImportCalls(c, n.status, Url(c), IMPORT);
    ImportPlan(c, n, IMPORT);
    FreshStep(c, n, env);
    ApplyTwo(c, n, p.calls[0], p.calls[1], (_, _, _) => true);
    RunSnoc(c, w, evs, FreshReconcile(n, env));
    evs' := evs + [FreshReconcile(n, env)];
    GuardedSummary(c, n.trace, p.calls[0], p.calls[1], WriteStatus(p.write.value));
  }

  /**
    Without fresh reads an export already recorded is issued again by a process that read an old
    object: every migration the driver handles has a run that imports with the checksum of an
    export that another one has since replaced.
   */
  lemma {:induction false} StaleReadBreaksStaging(c: Config, w: World) returns (evs: seq<Event>)
    requires Easy(c) && Fresh(c, w)
    ensures ValidRun(c, w, evs) && !Staging.StagingSound(Run(c, w, evs).trace)
  {
    var n, n1;
    evs, n := SetOut(c, w);
    ExportableFacts(c);
    ExportFacts(c, n.status, EXPORT, {});
    evs, n1 := GoExport(c, w, evs, n, EXPORT);
    evs, n1 := GoStale(c, w, evs, n1, n.status, EXPORT.(checksum := "other"));
    evs := StaleImport(c, w, evs, n1);
    SummaryMeans(c, Run(c, w, evs).trace);
  }

  // ---------------------------------------------------------------------------------------
  // A pass that read the old desired power state

  /** A running source that is to be powered off first, and staged over NFS without a snapshot. */
  predicate ToPowerOff(c: Config, w: World) {
    && c.powerOffBefore && !c.createSnapshot && c.TargetKey() != c.SourceKey()
    && c.storage.Some? && c.storage.value.Nfs? && c.storage.value.url.Some?
    && Fresh(c, w) && w.power == PowerOn && w.vms[c.SourceKey()].desired == WantOn
  }

  /** Validating, with the source not yet off, or off at last. */
  predicate Powering(c: Config, n: World, desired: DesiredPower, power: Power) {
    && c.powerOffBefore && c.storage.Some? && c.storage.value.Nfs? && Drivable(c, n) && n.status.phase == Validating
    && n.vms[c.SourceKey()].desired == desired && n.power == power
  }

  lemma PoweringPlan(c: Config, n: World)
    requires Powering(c, n, WantOn, PowerOn)
    ensures PlanOf(c, n, FreshReconcile(n, FAIR)) == Then([PatchSourceOff, PowerOffSource], n.status)
  {
  }

  lemma PoweredPlan(c: Config, n: World)
    requires Powering(c, n, WantOff, PowerOff)
    ensures PlanOf(c, n, FreshReconcile(n, FAIR)) == Write(LeaveValidating(c, n.status))
  {
  }

  /** The VirtualMachine controller reads the desired state while it is still On. */
  lemma {:induction false} GoReadDesire(c: Config, w: World) returns (evs: seq<Event>, n: World)
    requires ToPowerOff(c, w)
    ensures Leads(c, w, evs, n) && Powering(c, n, WantOn, PowerOn) && n.pass == HasRead(WantOn)
    ensures n.guard == {} && n.hotExports == 0
    ensures n.status == INITIAL_STATUS.(phase := Validating).SetCondition(CondValidating, true)
  {
    evs, n := GoPending(c, w);
    evs, n := PendingRuns(c, w, evs, n);
    FreshSnoc(c, w, evs, PassReads);
    evs, n := evs + [PassReads], Step(c, n, PassReads);
  }

  lemma {:induction false} PoweringRuns(c: Config, w: World, evs: seq<Event>, n: World)
    returns (evs': seq<Event>, n': World)
    requires Leads(c, w, evs, n) && Powering(c, n, WantOn, PowerOn)
    ensures FreshRun(c, w, evs') && n' == Run(c, w, evs')
    ensures n' == Apply(c, Apply(c, Apply(c, n, PatchSourceOff), PowerOffSource), WriteStatus(n.status))
  {
    PoweringPlan(c, n);
    evs', n' := GoTwo(c, w, evs, n, FAIR, PatchSourceOff, PowerOffSource, n.status);
  }

  lemma {:induction false} PoweredRuns(c: Config, w: World, evs: seq<Event>, n: World)
    returns (evs': seq<Event>, n': World)
    requires Leads(c, w, evs, n) && Powering(c, n, WantOff, PowerOff)
    ensures Leads(c, w, evs', n') && n' == Apply(c, n, WriteStatus(LeaveValidating(c, n.status)))
  {
    PoweredPlan(c, n);
    evs', n' := GoWrite(c, w, evs, n, FAIR, LeaveValidating(c, n.status));
  }

  lemma LeftFacts(c: Config)
    requires !c.createSnapshot
    ensures var st := LeaveValidating(c, INITIAL_STATUS.(phase := Validating).SetCondition(CondValidating, true));
            st.phase == Exporting && !ExportAlreadyDone(st, {}) && st.pvcName == ""
  {
  }

  /** The migration powers the source off and leaves Validating under that pass. */
  lemma {:induction false} GoLeaveUnderPass(c: Config, w: World) returns (evs: seq<Event>, n: World)
    requires ToPowerOff(c, w)
    ensures Leads(c, w, evs, n) && n.hotExports == 0
    ensures Composition.Captures(c, n) && Composition.SourceOff(c, n) && !Composition.PassSettled(n)
  {
    LeftFacts(c);
    evs, n := GoReadDesire(c, w);
    evs, n := PoweringRuns(c, w, evs, n);
    evs, n := PoweredRuns(c, w, evs, n);
  }

  /**
    With powerOffBeforeMigration set and fresh reads throughout, every such migration has a run in
    which a VirtualMachine pass that read the desired state before the migration changed it powers
    the source on again, and the disk is exported from a running VM.
   */
  lemma {:induction false} StalePassExportsHot(c: Config, w: World) returns (evs: seq<Event>)
    requires ToPowerOff(c, w)
    ensures FreshRun(c, w, evs) && Run(c, w, evs).hotExports > 0
  {
    var n;
    evs, n := GoLeaveUnderPass(c, w);
    var more := Composition.HotRun(c, n);
    FreshConcat(c, w, evs, more);
    evs := evs + more;
  }

  lemma DemoToPowerOff()
    ensures ToPowerOff(DEMO.(powerOffBefore := true), START)
  {
  }
}
