/**
  Source deletion is safe: the source VM is deleted only on request, only after the target
  was observed Ready, and that target attaches exactly the disk the last ImportDisk
  landed, in the native format of the target provider; that import has succeeded.
 */
module MigrationSourceDeletion {
  import opened Common
  import opened MigrationPlan
  import opened MigrationShape
  import opened MigrationWorld
  import Tasks = MigrationTasks

  // ---------------------------------------------------------------------------------------
  // The property

  /** The disk announced by the most recent accepted ImportDisk. */
  function LastLanded(c: Config, t: seq<Effect>): Option<ImportedDisk> {
    if t == [] then None
    else
      var e := t[|t| - 1];
      if e.ImportDisk? && e.imported.Imported?
      then Some(ImportedDisk(e.imported.diskID, e.imported.path, NativeDiskFormat(c.targetType)))
      else LastLanded(c, t[..|t| - 1])
  }

  /** The trace holds an observation of a Ready target attached to this disk. */
  predicate ObservedReady(t: seq<Effect>, disk: Option<ImportedDisk>) {
    exists i :: 0 <= i < |t| && t[i].ReadTargetReady? && t[i].vm.ready && t[i].vm.disk == disk
  }

  predicate DeletionJustified(c: Config, before: seq<Effect>) {
    c.deleteAfter && LastLanded(c, before).Some? && ObservedReady(before, LastLanded(c, before))
  }

  predicate DeletionSound(c: Config, t: seq<Effect>) {
    forall i :: 0 <= i < |t| && t[i].DeleteSource? ==> DeletionJustified(c, t[..i])
  }

  // ---------------------------------------------------------------------------------------
  // The invariant

  predicate PastImport(p: Phase) {
    p in {Creating, ValidatingTarget, Ready}
  }

  predicate ImportPersisted(st: Status) {
    st.importID != "" || st.IsTrue(CondImporting)
  }

  /** The status describes the disk landed last. */
  predicate ImportOnRecord(c: Config, t: seq<Effect>, st: Status) {
    && st.diskInfo.Some?
    && LastLanded(c, t) == Some(ImportedDisk(st.importID, st.diskInfo.value.targetPath, st.diskInfo.value.targetFormat))
  }

  predicate ImportRecorded(c: Config, w: World) {
    && (PastImport(w.status.phase) ==> w.status.IsTrue(CondImporting))
    && (ImportPersisted(w.status) ==> ImportOnRecord(c, w.trace, w.status))
    && (c.TargetKey() in w.vms ==>
          w.status.IsTrue(CondImporting) && w.vms[c.TargetKey()].disk == LastLanded(c, w.trace))
    && (w.status.phase in {ValidatingTarget, Ready} ==> ObservedReady(w.trace, LastLanded(c, w.trace)))
    && DeletionSound(c, w.trace)
  }

  predicate ImportGuardBacked(c: Config, w: World) {
    ImportOp in w.guard ==> ImportOnRecord(c, w.trace, w.status)
  }

  predicate DeletionInv(c: Config, w: World) {
    ImportRecorded(c, w) && ImportGuardBacked(c, w)
  }

  // ---------------------------------------------------------------------------------------
  // One effect

  predicate WriteAdmissible(c: Config, w: World, s: Status) {
    && (PastImport(s.phase) ==> s.IsTrue(CondImporting))
    && (ImportPersisted(s) ==> ImportOnRecord(c, w.trace, s))
    && (w.status.IsTrue(CondImporting) ==> s.IsTrue(CondImporting))
    && (s.phase in {ValidatingTarget, Ready} ==> ObservedReady(w.trace, LastLanded(c, w.trace)))
  }

  predicate Admissible(c: Config, w: World, e: Effect) {
    match e
    case WriteStatus(s) => WriteAdmissible(c, w, s)
    case ImportDisk(_, _, _, _) => !ImportPersisted(w.status)
    case CreateTarget(disk) => w.status.IsTrue(CondImporting) && LastLanded(c, w.trace) == Some(disk)
    case DeleteSource => DeletionJustified(c, w.trace)
    case _ => true
  }

  lemma LandedSnoc(c: Config, t: seq<Effect>, e: Effect)
    requires !e.ImportDisk? || e.imported.ImportFailed?
    ensures LastLanded(c, t + [e]) == LastLanded(c, t)
  {
    assert (t + [e])[..|t|] == t;
  }

  lemma ObservedSnoc(t: seq<Effect>, e: Effect, disk: Option<ImportedDisk>)
    ensures ObservedReady(t, disk) ==> ObservedReady(t + [e], disk)
    ensures e.ReadTargetReady? && e.vm.ready && e.vm.disk == disk ==> ObservedReady(t + [e], disk)
  {
    if ObservedReady(t, disk) {
      var i :| 0 <= i < |t| && t[i].ReadTargetReady? && t[i].vm.ready && t[i].vm.disk == disk;
      assert (t + [e])[i] == t[i];
    }
    assert (t + [e])[|t|] == e;
  }

  lemma SoundSnoc(c: Config, t: seq<Effect>, e: Effect)
    requires DeletionSound(c, t) && (e.DeleteSource? ==> DeletionJustified(c, t))
    ensures DeletionSound(c, t + [e])
  {
    forall i | 0 <= i < |t + [e]| && (t + [e])[i].DeleteSource?
      ensures DeletionJustified(c, (t + [e])[..i])
    {
      assert (t + [e])[..i] == t[..i];
      assert t[..|t|] == t;
    }
  }

  lemma AdmissibleKeeps(c: Config, w: World, e: Effect)
    requires ImportRecorded(c, w) && Admissible(c, w, e)
    ensures ImportRecorded(c, Apply(c, w, e))
  {
    SoundSnoc(c, w.trace, e);
    if !e.ImportDisk? {
      LandedSnoc(c, w.trace, e);
      ObservedSnoc(w.trace, e, LastLanded(c, w.trace));
    } else {
      assert c.TargetKey() !in w.vms && Apply(c, w, e).vms == w.vms;
    }
  }

  lemma {:induction false} AdmissiblePrefix(c: Config, w: World, es: seq<Effect>, k: nat)
    requires ImportRecorded(c, w) && Lawful(c, w, es, Admissible) && k <= |es|
    ensures ImportRecorded(c, ApplyAll(c, w, es[..k]))
  {
    forall u: World, e: Effect | ImportRecorded(c, u) && Admissible(c, u, e)
      ensures ImportRecorded(c, Apply(c, u, e))
    {
      AdmissibleKeeps(c, u, e);
    }
    LawfulPrefix(c, w, es, k, ImportRecorded, Admissible);
  }

  // ---------------------------------------------------------------------------------------
  // Plans that leave the import alone

  /** The write leaves the record of the import as it was. */
  predicate CarriesImport(st: Status, s: Status) {
    && s.importID == st.importID
    && s.IsTrue(CondImporting) == st.IsTrue(CondImporting)
    && (st.diskInfo.Some? ==>
          && s.diskInfo.Some?
          && s.diskInfo.value.targetPath == st.diskInfo.value.targetPath
          && s.diskInfo.value.targetFormat == st.diskInfo.value.targetFormat)
    && (PastImport(s.phase) ==> PastImport(st.phase))
  }

  predicate NotImport(e: Effect) {
    !e.WriteStatus? && !e.ImportDisk? && e != ClaimGuard(ImportOp) && e != ReleaseGuard(ImportOp)
  }

  predicate Plain(e: Effect) {
    NotImport(e) && !e.CreateTarget? && !e.DeleteSource?
  }

  lemma CarryingWrite(c: Config, w: World, s: Status)
    requires DeletionInv(c, w) && CarriesImport(w.status, s)
    requires s.phase in {ValidatingTarget, Ready} ==> ObservedReady(w.trace, LastLanded(c, w.trace))
    ensures Admissible(c, w, WriteStatus(s)) && DeletionInv(c, Apply(c, w, WriteStatus(s)))
  {
    AdmissibleKeeps(c, w, WriteStatus(s));
    LandedSnoc(c, w.trace, WriteStatus(s));
  }

  lemma NotImportKeeps(c: Config, w: World, e: Effect)
    requires DeletionInv(c, w) && NotImport(e) && Admissible(c, w, e)
    ensures DeletionInv(c, Apply(c, w, e)) && LastLanded(c, Apply(c, w, e).trace) == LastLanded(c, w.trace)
  {
    AdmissibleKeeps(c, w, e);
    LandedSnoc(c, w.trace, e);
  }

  lemma {:induction false} PlainCalls(c: Config, w: World, es: seq<Effect>)
    requires DeletionInv(c, w) && forall e :: e in es ==> Plain(e)
    ensures Lawful(c, w, es, Admissible) && DeletionInv(c, ApplyAll(c, w, es))
    ensures ApplyAll(c, w, es).status == w.status
    decreases |es|
  {
    if es != [] {
      assert Plain(es[0]);
      NotImportKeeps(c, w, es[0]);
      PlainCalls(c, Apply(c, w, es[0]), es[1..]);
    }
  }

  predicate PlainPlan(st: Status, p: Plan) {
    && CarriesImport(st, BaseOf(st, p))
    && (forall e :: e in p.calls ==> Plain(e))
    && (p.named.Some? ==> p.named.value.phase == st.phase)
    && (p.write.Some? ==>
          && CarriesImport(BaseOf(st, p), p.write.value)
          && p.write.value.phase !in {ValidatingTarget, Ready})
  }

  /** Every prefix of the plan is sound and the completed plan restores the whole invariant. */
  predicate PlanSafe(c: Config, w: World, p: Plan) {
    Lawful(c, w, Effects(p), Admissible) && DeletionInv(c, AfterPlan(c, w, p))
  }

  lemma PlainSafe(c: Config, w: World, p: Plan)
    requires DeletionInv(c, w) && PlainPlan(w.status, p)
    ensures PlanSafe(c, w, p) && DeletionInv(c, AfterCalls(c, w, p))
  {
    if p.named.Some? {
      CarryingWrite(c, w, p.named.value);
    }
    PlainCalls(c, AfterNamed(c, w, p), p.calls);
    if p.write.Some? {
      CarryingWrite(c, AfterCalls(c, w, p), p.write.value);
    }
    PlanLawful(c, w, p, Admissible);
  }

  lemma FailingPlain(st: Status, p: Plan)
    requires FailsOrWaits(st, p)
    ensures PlainPlan(st, p)
  {
  }

  lemma ValidatingPlain(c: Config, st: Status, vms: map<Key, Vm>, power: Power, p: Plan)
    requires st.phase == Validating && ValidatingShape(c, st, vms, power, p)
    ensures PlainPlan(st, p)
  {
    assert SameRecord(BaseOf(st, p), p.write.value);
  }

  lemma SnapshottingPlain(c: Config, st: Status, p: Plan)
    requires st.phase == Snapshotting && SnapshottingShape(c, st, p)
    ensures PlainPlan(st, p)
  {
    assert SameRecord(st, p.write.value.(snapshotID := st.snapshotID, taskRef := st.taskRef));
  }

  lemma ExportingPlain(c: Config, st: Status, guard: set<LongOp>, p: Plan)
    requires st.phase == Exporting && ExportingShape(c, st, guard, p)
    ensures PlainPlan(st, p)
  {
    if FailsOrWaits(st, p) || ExportAlreadyDone(st, guard) {
      assert |p.calls| <= 1;
    } else {
      ExportCallPlain(c, st, p.calls[1], p.write.value);
    }
  }

  lemma ExportCallPlain(c: Config, st: Status, e: Effect, s: Status)
    requires st.phase == Exporting && e.ExportDisk?
    requires if e.exported.ExportFailed? then s == FailedStatus(st)
             else s == RecordExport(c, st, e.exported.exportID, e.exported.checksum, e.exported.task)
    ensures CarriesImport(st, s) && s.phase !in {ValidatingTarget, Ready} && Plain(e)
  {
  }

  lemma StepPlain(st: Status, p: Plan, next: Phase)
    requires StepsTo(st, p, next) && next in {Pending, Validating, Importing}
    requires next == Importing ==> st.phase in {Transferring, Converting}
    requires st.phase in {Unset, Pending, Transferring, Converting}
    ensures PlainPlan(st, p)
  {
  }

  lemma RetryPlain(c: Config, st: Status, env: Env, p: Plan)
    requires st.phase == Failed && FailedShape(c, st, env, p)
    ensures PlainPlan(st, p)
  {
    if p.write.Some? {
      assert p.write.value == RetryStatus(st, env.now);
    }
  }

  lemma SteppingPlain(c: Config, st: Status, guard: set<LongOp>, vms: map<Key, Vm>, power: Power, env: Env, p: Plan)
    requires st.phase in {Unset, Pending, Transferring, Converting, Failed}
    requires PhaseShape(c, st, guard, vms, power, env, p)
    ensures PlainPlan(st, p)
  {
    match st.phase
    case Unset => StepPlain(st, p, Pending);
    case Pending => StepPlain(st, p, Validating);
    case Transferring => StepPlain(st, p, Importing);
    case Converting => StepPlain(st, p, Importing);
    case Failed => RetryPlain(c, st, env, p);
  }

  lemma DeletionPlain(c: Config, o: Object, guard: set<LongOp>, vms: map<Key, Vm>, power: Power, env: Env, p: Plan)
    requires ReconcileShape(c, o, guard, vms, power, env, p) && (o.deleting || !o.finalizer)
    ensures PlainPlan(o.status, p)
  {
  }

  // ---------------------------------------------------------------------------------------
  // Importing

  lemma AdvanceWrite(c: Config, w: World)
    requires DeletionInv(c, w) && ImportOnRecord(c, w.trace, w.status)
    ensures Admissible(c, w, WriteStatus(AfterImport(w.status)))
    ensures DeletionInv(c, Apply(c, w, WriteStatus(AfterImport(w.status))))
  {
    var e := WriteStatus(AfterImport(w.status));
    AdmissibleKeeps(c, w, e);
    LandedSnoc(c, w.trace, e);
  }

  lemma AdvanceAfterImport(c: Config, w: World, p: Plan)
    requires DeletionInv(c, w) && w.status.phase == Importing && ImportAlreadyDone(w.status, w.guard)
    requires Advances(ImportOp, w.status, AfterImport(w.status), p)
    ensures PlanSafe(c, w, p) && DeletionInv(c, AfterCalls(c, w, p))
  {
    assert ImportOnRecord(c, w.trace, w.status);
    PlainCalls(c, w, p.calls);
    if w.status.taskRef != "" {
      ApplyOne(c, w, p.calls[0], Admissible);
      LandedSnoc(c, w.trace, p.calls[0]);
    }
    AdvanceWrite(c, AfterCalls(c, w, p));
    PlanLawful(c, w, p, Admissible);
  }

  lemma ImportLands(c: Config, w: World, e: Effect)
    requires e.ImportDisk? && e.imported.Imported?
    ensures LastLanded(c, (w.trace + [ClaimGuard(ImportOp)]) + [e])
            == Some(ImportedDisk(e.imported.diskID, e.imported.path, NativeDiskFormat(c.targetType)))
  {
  }

  lemma ImportSucceeds(c: Config, w: World, p: Plan)
    requires DeletionInv(c, w) && w.status.phase == Importing && ImportingShape(c, w.status, w.guard, p)
    requires Tasks.Accepts(p, ImportOp)
    ensures PlanSafe(c, w, p)
  {
    var e, s := p.calls[1], p.write.value;
    var w1 := Apply(c, w, ClaimGuard(ImportOp));
    var w2 := Apply(c, w1, e);
    AdmissibleKeeps(c, w, ClaimGuard(ImportOp));
    AdmissibleKeeps(c, w1, e);
    ImportLands(c, w, e);
    ApplyTwo(c, w, ClaimGuard(ImportOp), e, Admissible);
    assert ImportOnRecord(c, w2.trace, s);
    AdmissibleKeeps(c, w2, WriteStatus(s));
    LandedSnoc(c, w2.trace, WriteStatus(s));
    PlanLawful(c, w, p, Admissible);
  }

  lemma ImportFails(c: Config, w: World, p: Plan)
    requires DeletionInv(c, w) && w.status.phase == Importing && ImportingShape(c, w.status, w.guard, p)
    requires |p.calls| == 3
    ensures PlanSafe(c, w, p) && DeletionInv(c, AfterCalls(c, w, p))
  {
    var e := p.calls[1];
    var w1 := Apply(c, w, ClaimGuard(ImportOp));
    var w2 := Apply(c, w1, e);
    var w3 := Apply(c, w2, ReleaseGuard(ImportOp));
    AdmissibleKeeps(c, w, ClaimGuard(ImportOp));
    AdmissibleKeeps(c, w1, e);
    AdmissibleKeeps(c, w2, ReleaseGuard(ImportOp));
    ApplyThree(c, w, ClaimGuard(ImportOp), e, ReleaseGuard(ImportOp), Admissible);
    CarryingWrite(c, w3, FailedStatus(w.status));
    PlanLawful(c, w, p, Admissible);
  }

  lemma ImportingSafe(c: Config, w: World, p: Plan)
    requires DeletionInv(c, w) && w.status.phase == Importing && ImportingShape(c, w.status, w.guard, p)
    ensures PlanSafe(c, w, p) && (Tasks.Accepts(p, ImportOp) || DeletionInv(c, AfterCalls(c, w, p)))
  {
    if FailsOrWaits(w.status, p) {
      FailingPlain(w.status, p);
      PlainSafe(c, w, p);
    } else if ImportAlreadyDone(w.status, w.guard) {
      AdvanceAfterImport(c, w, p);
    } else if p.calls[1].imported.Imported? {
      ImportSucceeds(c, w, p);
    } else {
      ImportFails(c, w, p);
    }
  }

  // ---------------------------------------------------------------------------------------
  // Creating, validating and deleting

  lemma ReadSafe(c: Config, w: World, vm: Vm)
    requires DeletionInv(c, w) && c.TargetKey() in w.vms && vm == w.vms[c.TargetKey()] && vm.ready
    ensures DeletionInv(c, Apply(c, w, ReadTargetReady(vm)))
    ensures ObservedReady(Apply(c, w, ReadTargetReady(vm)).trace, LastLanded(c, Apply(c, w, ReadTargetReady(vm)).trace))
  {
    NotImportKeeps(c, w, ReadTargetReady(vm));
    ObservedSnoc(w.trace, ReadTargetReady(vm), LastLanded(c, w.trace));
  }

  /** A plan of one request and one write. */
  lemma OneCallSafe(c: Config, w: World, e: Effect, s: Status)
    requires !e.WriteStatus? && Admissible(c, w, e) && DeletionInv(c, Apply(c, w, e))
    requires CarriesImport(Apply(c, w, e).status, s)
    requires s.phase in {ValidatingTarget, Ready} ==>
               ObservedReady(Apply(c, w, e).trace, LastLanded(c, Apply(c, w, e).trace))
    ensures PlanSafe(c, w, Then([e], s)) && DeletionInv(c, AfterCalls(c, w, Then([e], s)))
  {
    ApplyOne(c, w, e, Admissible);
    CarryingWrite(c, Apply(c, w, e), s);
    PlanLawful(c, w, Then([e], s), Admissible);
  }

  lemma ReadingTargetSafe(c: Config, w: World, s: Status)
    requires DeletionInv(c, w) && c.TargetKey() in w.vms && w.vms[c.TargetKey()].ready
    requires CarriesImport(w.status, s)
    ensures var p := Then([ReadTargetReady(w.vms[c.TargetKey()])], s);
            PlanSafe(c, w, p) && DeletionInv(c, AfterCalls(c, w, p))
  {
    ReadSafe(c, w, w.vms[c.TargetKey()]);
    OneCallSafe(c, w, ReadTargetReady(w.vms[c.TargetKey()]), s);
  }

  lemma CreatingTargetSafe(c: Config, w: World)
    requires DeletionInv(c, w) && w.status.phase == Creating && w.status.diskInfo.Some?
    ensures var info := w.status.diskInfo.value;
            var disk := ImportedDisk(w.status.importID, info.targetPath, info.targetFormat);
            var p := Then([CreateTarget(disk)], w.status);
            PlanSafe(c, w, p) && DeletionInv(c, AfterCalls(c, w, p))
  {
    var info := w.status.diskInfo.value;
    var e := CreateTarget(ImportedDisk(w.status.importID, info.targetPath, info.targetFormat));
    assert ImportOnRecord(c, w.trace, w.status);
    NotImportKeeps(c, w, e);
    OneCallSafe(c, w, e, w.status);
  }

  lemma CreatingSafe(c: Config, w: World, env: Env, p: Plan)
    requires DeletionInv(c, w) && w.status.phase == Creating && CreatingShape(c, w.status, w.vms, env, p)
    ensures PlanSafe(c, w, p) && DeletionInv(c, AfterCalls(c, w, p))
  {
    if FailsOrWaits(w.status, p) {
      FailingPlain(w.status, p);
      PlainSafe(c, w, p);
    } else if c.TargetKey() in w.vms {
      var s := w.status.(targetVMID := w.vms[c.TargetKey()].id, phase := ValidatingTarget);
      ReadingTargetSafe(c, w, s);
      assert p == Then([ReadTargetReady(w.vms[c.TargetKey()])], s);
    } else {
      CreatingTargetSafe(c, w);
      assert p == Then([CreateTarget(ImportedDisk(w.status.importID, w.status.diskInfo.value.targetPath,
                                                  w.status.diskInfo.value.targetFormat))], w.status);
    }
  }

  lemma MarkSafe(c: Config, w: World)
    requires DeletionInv(c, w) && ObservedReady(w.trace, LastLanded(c, w.trace))
    ensures DeletionInv(c, Apply(c, w, MarkTargetCompleted))
    ensures ObservedReady(Apply(c, w, MarkTargetCompleted).trace, LastLanded(c, Apply(c, w, MarkTargetCompleted).trace))
  {
    NotImportKeeps(c, w, MarkTargetCompleted);
    ObservedSnoc(w.trace, MarkTargetCompleted, LastLanded(c, w.trace));
  }

  lemma ReadAndMarkSafe(c: Config, w: World, calls: seq<Effect>)
    requires DeletionInv(c, w) && c.TargetKey() in w.vms && w.vms[c.TargetKey()].ready
    requires var read := ReadTargetReady(w.vms[c.TargetKey()]); calls == [read] || calls == [read, MarkTargetCompleted]
    ensures Lawful(c, w, calls, Admissible) && ApplyAll(c, w, calls).status == w.status
    ensures DeletionInv(c, ApplyAll(c, w, calls))
    ensures ObservedReady(ApplyAll(c, w, calls).trace, LastLanded(c, ApplyAll(c, w, calls).trace))
  {
    var vm := w.vms[c.TargetKey()];
    ReadSafe(c, w, vm);
    if |calls| == 1 {
      ApplyOne(c, w, ReadTargetReady(vm), Admissible);
    } else {
      MarkSafe(c, Apply(c, w, ReadTargetReady(vm)));
      ApplyTwo(c, w, ReadTargetReady(vm), MarkTargetCompleted, Admissible);
    }
  }

  lemma ValidatingTargetSafe(c: Config, w: World, p: Plan)
    requires DeletionInv(c, w) && w.status.phase == ValidatingTarget && ValidatingTargetShape(c, w.status, w.vms, p)
    ensures PlanSafe(c, w, p) && DeletionInv(c, AfterCalls(c, w, p))
  {
    if FailsOrWaits(w.status, p) {
      FailingPlain(w.status, p);
      PlainSafe(c, w, p);
    } else if p == Write(w.status) {
      CarryingWrite(c, w, w.status);
      PlanLawful(c, w, p, Admissible);
    } else {
      ReadAndMarkSafe(c, w, p.calls);
      CarryingWrite(c, AfterCalls(c, w, p), p.write.value);
      PlanLawful(c, w, p, Admissible);
    }
  }

  /** Requests of the Ready phase: the observation that justified Ready still justifies deletion. */
  lemma {:induction false} ReadyCalls(c: Config, w: World, es: seq<Effect>)
    requires DeletionInv(c, w) && w.status.phase == Ready
    requires forall e :: e in es ==> e == DeleteStaged || e.SnapshotDelete? || (e == DeleteSource && c.deleteAfter)
    ensures Lawful(c, w, es, Admissible) && DeletionInv(c, ApplyAll(c, w, es))
    ensures ApplyAll(c, w, es).status == w.status
    decreases |es|
  {
    if es != [] {
      assert es[0] in es;
      NotImportKeeps(c, w, es[0]);
      ReadyCalls(c, Apply(c, w, es[0]), es[1..]);
    }
  }

  lemma ReadySafe(c: Config, w: World, p: Plan)
    requires DeletionInv(c, w) && w.status.phase == Ready && ReadyShape(c, w.status, p)
    ensures PlanSafe(c, w, p) && DeletionInv(c, AfterCalls(c, w, p))
  {
    ReadyCalls(c, w, p.calls);
    if p.write.Some? {
      CarryingWrite(c, AfterCalls(c, w, p), p.write.value);
    }
    PlanLawful(c, w, p, Admissible);
  }

  // ---------------------------------------------------------------------------------------
  // Reconciles and runs

  lemma EarlySafe(c: Config, w: World, ev: Event)
    requires DeletionInv(c, w) && ev.Reconcile? && ReadsFresh(w, ev)
    requires w.deleting || !w.finalizer || w.status.phase !in {Importing, Creating, ValidatingTarget, Ready}
    ensures var p := PlanOf(c, w, ev); PlanSafe(c, w, p) && DeletionInv(c, AfterCalls(c, w, p))
  {
    var p, st := PlanOf(c, w, ev), w.status;
    PlanHasShape(c, ev.read, w.guard, ev.view, ev.viewPower, ev.env);
    if w.deleting || !w.finalizer {
      DeletionPlain(c, ev.read, w.guard, ev.view, ev.viewPower, ev.env, p);
    } else if st.phase == Validating {
      ValidatingPlain(c, st, ev.view, ev.viewPower, p);
    } else if st.phase == Snapshotting {
      SnapshottingPlain(c, st, p);
    } else if st.phase == Exporting {
      ExportingPlain(c, st, w.guard, p);
    } else {
      SteppingPlain(c, st, w.guard, ev.view, ev.viewPower, ev.env, p);
    }
    PlainSafe(c, w, p);
  }

  lemma LateSafe(c: Config, w: World, ev: Event)
    requires DeletionInv(c, w) && ev.Reconcile? && ReadsFresh(w, ev)
    requires !w.deleting && w.finalizer && w.status.phase in {Importing, Creating, ValidatingTarget, Ready}
    ensures var p := PlanOf(c, w, ev);
            PlanSafe(c, w, p) && (Tasks.Accepts(p, ImportOp) || DeletionInv(c, AfterCalls(c, w, p)))
  {
    var p := PlanOf(c, w, ev);
    PlanHasShape(c, ev.read, w.guard, ev.view, ev.viewPower, ev.env);
    match w.status.phase {
      case Importing => ImportingSafe(c, w, p);
      case Creating => CreatingSafe(c, w, ev.env, p);
      case ValidatingTarget => ValidatingTargetSafe(c, w, p);
      case Ready => ReadySafe(c, w, p);
    }
  }

  lemma ReconcileSafe(c: Config, w: World, ev: Event)
    requires DeletionInv(c, w) && ev.Reconcile? && ReadsFresh(w, ev)
    ensures var p := PlanOf(c, w, ev);
            && PlanSafe(c, w, p) && NoWrites(p.calls)
            && (Tasks.Accepts(p, ImportOp) || DeletionInv(c, AfterCalls(c, w, p)))
  {
    var p := PlanOf(c, w, ev);
    PlanHasShape(c, ev.read, w.guard, ev.view, ev.viewPower, ev.env);
    ShapeHasNoWriteCalls(c, ev.read, w.guard, ev.view, ev.viewPower, ev.env, p);
    if w.deleting || !w.finalizer || w.status.phase !in {Importing, Creating, ValidatingTarget, Ready} {
      EarlySafe(c, w, ev);
    } else {
      LateSafe(c, w, ev);
    }
  }

  lemma StepSafe(c: Config, w: World, ev: Event)
    requires DeletionInv(c, w) && Enabled(c, w, ev) && ReadsFresh(w, ev) && Tasks.KeepsRecord(c, w, ev, ImportOp)
    ensures DeletionInv(c, Step(c, w, ev))
  {
    if ev.Reconcile? {
      var p := PlanOf(c, w, ev);
      ReconcileSafe(c, w, ev);
      match ev.ending {
        case Completed => EffectsEnd(c, w, p);
        case Crashed(after) => AdmissiblePrefix(c, w, Effects(p), after);
        case WriteLost(at) => LostWrite(c, w, p, at);
      }
    }
  }

  lemma {:induction false} DeletionInvariant(c: Config, w: World, evs: seq<Event>)
    requires Initial(w) && c.TargetKey() !in w.vms && Tasks.RecordedRun(c, w, evs, ImportOp)
    ensures DeletionInv(c, Run(c, w, evs))
    decreases |evs|
  {
    if evs != [] {
      var before := evs[..|evs| - 1];
      DeletionInvariant(c, w, before);
      StepSafe(c, Run(c, w, before), evs[|evs| - 1]);
    }
  }

  /**
    In every run from an unclaimed target name with fresh reads, with crashes, restarts, retries
    and lost writes (other than the one recording an accepted import), every DeleteSource was
    requested by the specification and follows an observation of a Ready target attached to the
    disk of the last accepted ImportDisk.
   */
  lemma {:induction false} DeletionsFollowReadyTarget(c: Config, w: World, evs: seq<Event>)
    requires Initial(w) && c.TargetKey() !in w.vms && Tasks.RecordedRun(c, w, evs, ImportOp)
    ensures DeletionSound(c, Run(c, w, evs).trace)
  {
    DeletionInvariant(c, w, evs);
  }

  /**
    Source deletion is safe.  If moreover no retry is taken over an import whose success is not
    on record, that import has succeeded by then, and so it had when its disk was attached.
   */
  lemma {:induction false} SourceDeletionSafe(c: Config, w: World, evs: seq<Event>)
    requires Initial(w) && c.TargetKey() !in w.vms && Tasks.SettledRun(c, w, evs, ImportOp)
    ensures DeletionSound(c, Run(c, w, evs).trace) && Tasks.UsesFinished(Run(c, w, evs).trace, ImportOp)
  {
    Tasks.SettledIsRecorded(c, w, evs, ImportOp);
    DeletionsFollowReadyTarget(c, w, evs);
    Tasks.BuildsOnSuccess(c, w, evs, ImportOp);
  }
}
