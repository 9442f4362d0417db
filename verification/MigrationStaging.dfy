/**
  Staging integrity: every ImportDisk of every run reads the object the last ExportDisk
  wrote and expects the checksum that export returned, and that export has succeeded.
 */
module MigrationStaging {
  import opened Common
  import opened MigrationPlan
  import opened MigrationShape
  import opened MigrationWorld
  import Tasks = MigrationTasks

  // ---------------------------------------------------------------------------------------
  // The property

  /** The most recent ExportDisk request of a trace, successful or not. */
  function LastExport(t: seq<Effect>): (r: Option<Effect>)
    ensures r.Some? ==> r.value.ExportDisk?
  {
    if t == [] then None
    else if t[|t| - 1].ExportDisk? then Some(t[|t| - 1])
    else LastExport(t[..|t| - 1])
  }

  /** The import reads what the last export wrote, which was accepted, and expects what it returned. */
  predicate ReadsLastExport(before: seq<Effect>, e: Effect)
    requires e.ImportDisk?
  {
    var last := LastExport(before);
    && last.Some? && last.value.exported.Exported?
    && e.url == last.value.url
    && e.expectedChecksum == last.value.exported.checksum
  }

  predicate StagingSound(t: seq<Effect>) {
    forall i :: 0 <= i < |t| && t[i].ImportDisk? ==> ReadsLastExport(t[..i], t[i])
  }

  // ---------------------------------------------------------------------------------------
  // The invariant

  predicate PastExport(p: Phase) {
    p in {Transferring, Converting, Importing, Creating, ValidatingTarget, Ready}
  }

  /** The status alone says that an export was issued and recorded. */
  predicate ExportPersisted(st: Status) {
    st.exportID != "" || st.IsTrue(CondExporting) || PastExport(st.phase)
  }

  /** The status carries the address and checksum of the last export, which was accepted. */
  predicate ExportOnRecord(c: Config, t: seq<Effect>, st: Status) {
    var last := LastExport(t);
    && last.Some? && last.value.exported.Exported?
    && StorageUrl(c, st.pvcName) == Some(last.value.url)
    && st.diskInfo.Some? && st.diskInfo.value.sourceChecksum == last.value.exported.checksum
  }

  predicate Recorded(c: Config, w: World) {
    && (ExportPersisted(w.status) ==> ExportOnRecord(c, w.trace, w.status))
    && StagingSound(w.trace)
  }

  predicate GuardBacked(c: Config, w: World) {
    ExportOp in w.guard ==> ExportOnRecord(c, w.trace, w.status)
  }

  predicate StagingInv(c: Config, w: World) {
    Recorded(c, w) && GuardBacked(c, w)
  }

  // ---------------------------------------------------------------------------------------
  // One effect

  predicate Allowed(c: Config, w: World, e: Effect) {
    match e
    case WriteStatus(s) => ExportPersisted(s) ==> ExportOnRecord(c, w.trace, s)
    case ExportDisk(_, _, _) => !ExportPersisted(w.status)
    case ImportDisk(_, _, _, _) => ReadsLastExport(w.trace, e)
    case _ => true
  }

  lemma LastExportSnoc(t: seq<Effect>, e: Effect)
    ensures LastExport(t + [e]) == if e.ExportDisk? then Some(e) else LastExport(t)
  {
    assert (t + [e])[..|t|] == t;
  }

  lemma SoundSnoc(t: seq<Effect>, e: Effect)
    requires StagingSound(t) && (e.ImportDisk? ==> ReadsLastExport(t, e))
    ensures StagingSound(t + [e])
  {
    forall i | 0 <= i < |t + [e]| && (t + [e])[i].ImportDisk?
      ensures ReadsLastExport((t + [e])[..i], (t + [e])[i])
    {
      assert (t + [e])[..i] == t[..i];
      assert t[..|t|] == t;
    }
  }

  lemma AllowedKeeps(c: Config, w: World, e: Effect)
    requires Recorded(c, w) && Allowed(c, w, e)
    ensures Recorded(c, Apply(c, w, e))
  {
    LastExportSnoc(w.trace, e);
    SoundSnoc(w.trace, e);
  }

  lemma {:induction false} AllowedKeepsPrefix(c: Config, w: World, es: seq<Effect>, k: nat)
    requires Recorded(c, w) && Lawful(c, w, es, Allowed) && k <= |es|
    ensures Recorded(c, ApplyAll(c, w, es[..k]))
  {
    forall u: World, e: Effect | Recorded(c, u) && Allowed(c, u, e)
      ensures Recorded(c, Apply(c, u, e))
    {
      AllowedKeeps(c, u, e);
    }
    LawfulPrefix(c, w, es, k, Recorded, Allowed);
  }

  // ---------------------------------------------------------------------------------------
  // Plans that leave the export alone

  /** The write leaves the record of the export as it was. */
  predicate Carries(st: Status, s: Status) {
    && s.exportID == st.exportID
    && s.IsTrue(CondExporting) == st.IsTrue(CondExporting)
    && (st.pvcName != "" ==> s.pvcName == st.pvcName)
    && (st.diskInfo.Some? ==> s.diskInfo.Some? && s.diskInfo.value.sourceChecksum == st.diskInfo.value.sourceChecksum)
    && (PastExport(s.phase) ==> PastExport(st.phase))
  }

  predicate Unrelated(e: Effect) {
    !e.WriteStatus? && !e.ExportDisk? && !e.ImportDisk? && e != ClaimGuard(ExportOp) && e != ReleaseGuard(ExportOp)
  }

  predicate Bland(st: Status, p: Plan) {
    && Carries(st, BaseOf(st, p))
    && (forall e :: e in p.calls ==> Unrelated(e))
    && (p.write.Some? ==> Carries(BaseOf(st, p), p.write.value))
  }

  lemma CarriesRecord(c: Config, t: seq<Effect>, st: Status, s: Status)
    requires ExportOnRecord(c, t, st) && Carries(st, s)
    ensures ExportOnRecord(c, t, s)
  {
  }

  lemma CarryingWrite(c: Config, w: World, s: Status)
    requires StagingInv(c, w) && Carries(w.status, s)
    ensures Allowed(c, w, WriteStatus(s)) && StagingInv(c, Apply(c, w, WriteStatus(s)))
  {
    if ExportOnRecord(c, w.trace, w.status) {
      CarriesRecord(c, w.trace, w.status, s);
    }
    AllowedKeeps(c, w, WriteStatus(s));
    LastExportSnoc(w.trace, WriteStatus(s));
  }

  lemma {:induction false} UnrelatedCalls(c: Config, w: World, es: seq<Effect>)
    requires StagingInv(c, w) && forall e :: e in es ==> Unrelated(e)
    ensures Lawful(c, w, es, Allowed) && StagingInv(c, ApplyAll(c, w, es))
    ensures ApplyAll(c, w, es).status == w.status
    decreases |es|
  {
    if es != [] {
      assert Unrelated(es[0]);
      AllowedKeeps(c, w, es[0]);
      LastExportSnoc(w.trace, es[0]);
      UnrelatedCalls(c, Apply(c, w, es[0]), es[1..]);
    }
  }

  /** Every prefix of the plan is sound and the completed plan restores the whole invariant. */
  predicate PlanKeeps(c: Config, w: World, p: Plan) {
    Lawful(c, w, Effects(p), Allowed) && StagingInv(c, AfterPlan(c, w, p))
  }

  lemma BlandKeeps(c: Config, w: World, p: Plan)
    requires StagingInv(c, w) && Bland(w.status, p)
    ensures PlanKeeps(c, w, p) && StagingInv(c, AfterCalls(c, w, p))
  {
    var named := AfterNamed(c, w, p);
    if p.named.Some? {
      CarryingWrite(c, w, p.named.value);
    }
    UnrelatedCalls(c, named, p.calls);
    if p.write.Some? {
      CarryingWrite(c, AfterCalls(c, w, p), p.write.value);
    }
    PlanLawful(c, w, p, Allowed);
  }

  lemma SameRecordCarries(st: Status, s: Status)
    requires SameRecord(st, s) && (PastExport(s.phase) ==> PastExport(st.phase))
    ensures Carries(st, s)
  {
  }

  lemma ValidatingIsBland(c: Config, st: Status, vms: map<Key, Vm>, power: Power, p: Plan)
    requires st.phase == Validating && ValidatingShape(c, st, vms, power, p)
    ensures Bland(st, p)
  {
    SameRecordCarries(BaseOf(st, p), p.write.value);
  }

  lemma SnapshottingIsBland(c: Config, st: Status, p: Plan)
    requires st.phase == Snapshotting && SnapshottingShape(c, st, p)
    ensures Bland(st, p)
  {
    SameRecordCarries(st, p.write.value.(snapshotID := st.snapshotID, taskRef := st.taskRef));
  }

  lemma CreatingIsBland(c: Config, st: Status, vms: map<Key, Vm>, env: Env, p: Plan)
    requires st.phase == Creating && CreatingShape(c, st, vms, env, p)
    ensures Bland(st, p)
  {
  }

  lemma ValidatingTargetIsBland(c: Config, st: Status, vms: map<Key, Vm>, p: Plan)
    requires st.phase == ValidatingTarget && ValidatingTargetShape(c, st, vms, p)
    ensures Bland(st, p)
  {
    if p.write.Some? && p.write.value.phase == Ready {
      SameRecordCarries(st, p.write.value.(targetVMID := st.targetVMID));
    }
  }

  lemma ReadyIsBland(c: Config, st: Status, p: Plan)
    requires st.phase == Ready && ReadyShape(c, st, p)
    ensures Bland(st, p)
  {
    if p.write.Some? {
      assert p.write.value == st.(cleanedUp := p.write.value.cleanedUp, snapshotID := p.write.value.snapshotID);
    }
  }

  lemma FailedIsBland(c: Config, st: Status, env: Env, p: Plan)
    requires st.phase == Failed && FailedShape(c, st, env, p)
    ensures Bland(st, p)
  {
    if p.write.Some? {
      assert p.write.value == RetryStatus(st, env.now);
    }
  }

  lemma OtherPhasesBland(c: Config, o: Object, guard: set<LongOp>, vms: map<Key, Vm>, power: Power, env: Env, p: Plan)
    requires ReconcileShape(c, o, guard, vms, power, env, p)
    requires o.deleting || !o.finalizer || (o.status.phase != Exporting && o.status.phase != Importing)
    ensures Bland(o.status, p)
  {
    var st := o.status;
    if !o.deleting && o.finalizer {
      match st.phase {
        case Validating => ValidatingIsBland(c, st, vms, power, p);
        case Snapshotting => SnapshottingIsBland(c, st, p);
        case Creating => CreatingIsBland(c, st, vms, env, p);
        case ValidatingTarget => ValidatingTargetIsBland(c, st, vms, p);
        case Ready => ReadyIsBland(c, st, p);
        case Failed => FailedIsBland(c, st, env, p);
        case _ =>
      }
    }
  }

  // ---------------------------------------------------------------------------------------
  // The two long operations

  lemma AdvanceWrite(c: Config, w: World)
    requires StagingInv(c, w) && ExportOnRecord(c, w.trace, w.status)
    ensures Allowed(c, w, WriteStatus(AfterExport(w.status)))
    ensures StagingInv(c, Apply(c, w, WriteStatus(AfterExport(w.status))))
  {
    var e := WriteStatus(AfterExport(w.status));
    AllowedKeeps(c, w, e);
    LastExportSnoc(w.trace, e);
  }

  lemma AdvanceAfterExport(c: Config, w: World, p: Plan)
    requires StagingInv(c, w) && ExportAlreadyDone(w.status, w.guard)
    requires Advances(ExportOp, w.status, AfterExport(w.status), p)
    ensures PlanKeeps(c, w, p) && StagingInv(c, AfterCalls(c, w, p))
  {
    assert ExportOnRecord(c, w.trace, w.status);
    UnrelatedCalls(c, w, p.calls);
    if w.status.taskRef != "" {
      ApplyOne(c, w, p.calls[0], Allowed);
      LastExportSnoc(w.trace, p.calls[0]);
    }
    AdvanceWrite(c, AfterCalls(c, w, p));
    PlanLawful(c, w, p, Allowed);
  }

  lemma ExportSucceeds(c: Config, w: World, e: Effect, s: Status)
    requires StagingInv(c, w) && !ExportAlreadyDone(w.status, w.guard) && !PastExport(w.status.phase)
    requires e.ExportDisk? && e.exported.Exported? && StorageUrl(c, w.status.pvcName) == Some(e.url)
    requires s == RecordExport(c, w.status, e.exported.exportID, e.exported.checksum, e.exported.task)
    ensures var p := Then([ClaimGuard(ExportOp), e], s);
            PlanKeeps(c, w, p)
  {
    var p := Then([ClaimGuard(ExportOp), e], s);
    var w1 := Apply(c, w, ClaimGuard(ExportOp));
    var w2 := Apply(c, w1, e);
    AllowedKeeps(c, w, ClaimGuard(ExportOp));
    AllowedKeeps(c, w1, e);
    LastExportSnoc(w1.trace, e);
    ApplyTwo(c, w, ClaimGuard(ExportOp), e, Allowed);
    assert ExportOnRecord(c, w2.trace, s);
    AllowedKeeps(c, w2, WriteStatus(s));
    LastExportSnoc(w2.trace, WriteStatus(s));
    PlanLawful(c, w, p, Allowed);
  }

  lemma ExportFails(c: Config, w: World, e: Effect)
    requires StagingInv(c, w) && !ExportAlreadyDone(w.status, w.guard) && !PastExport(w.status.phase)
    requires e.ExportDisk? && e.exported.ExportFailed?
    ensures var p := Then([ClaimGuard(ExportOp), e, ReleaseGuard(ExportOp)], FailedStatus(w.status));
            PlanKeeps(c, w, p) && StagingInv(c, AfterCalls(c, w, p))
  {
    var p := Then([ClaimGuard(ExportOp), e, ReleaseGuard(ExportOp)], FailedStatus(w.status));
    var w1 := Apply(c, w, ClaimGuard(ExportOp));
    var w2 := Apply(c, w1, e);
    AllowedKeeps(c, w, ClaimGuard(ExportOp));
    AllowedKeeps(c, w1, e);
    AllowedKeeps(c, w2, ReleaseGuard(ExportOp));
    ApplyThree(c, w, ClaimGuard(ExportOp), e, ReleaseGuard(ExportOp), Allowed);
    CarryingWrite(c, Apply(c, w2, ReleaseGuard(ExportOp)), FailedStatus(w.status));
    PlanLawful(c, w, p, Allowed);
  }

  lemma ExportingKeeps(c: Config, w: World, p: Plan)
    requires StagingInv(c, w) && w.status.phase == Exporting && ExportingShape(c, w.status, w.guard, p)
    ensures PlanKeeps(c, w, p) && (Tasks.Accepts(p, ExportOp) || StagingInv(c, AfterCalls(c, w, p)))
  {
    if FailsOrWaits(w.status, p) {
      BlandKeeps(c, w, p);
    } else if ExportAlreadyDone(w.status, w.guard) {
      AdvanceAfterExport(c, w, p);
    } else if p.calls[1].exported.Exported? {
      ExportSucceeds(c, w, p.calls[1], p.write.value);
    } else {
      ExportFails(c, w, p.calls[1]);
    }
  }

  /** Claiming the guard and importing: ImportDisk reads the recorded export. */
  lemma ImportRequest(c: Config, w: World, e: Effect)
    requires StagingInv(c, w) && w.status.phase == Importing
    requires e.ImportDisk? && StorageUrl(c, w.status.pvcName) == Some(e.url)
    requires e.expectedChecksum == ExpectedChecksum(w.status)
    ensures Lawful(c, w, [ClaimGuard(ImportOp), e], Allowed)
    ensures StagingInv(c, ApplyAll(c, w, [ClaimGuard(ImportOp), e]))
    ensures ApplyAll(c, w, [ClaimGuard(ImportOp), e]).status == w.status
  {
    var w1 := Apply(c, w, ClaimGuard(ImportOp));
    AllowedKeeps(c, w, ClaimGuard(ImportOp));
    LastExportSnoc(w.trace, ClaimGuard(ImportOp));
    AllowedKeeps(c, w1, e);
    LastExportSnoc(w1.trace, e);
    ApplyTwo(c, w, ClaimGuard(ImportOp), e, Allowed);
  }

  lemma ImportCarries(c: Config, st: Status, id: string, path: string, checksum: string, task: string)
    requires st.phase == Importing
    ensures Carries(st, RecordImport(c, st, id, path, checksum, task))
    ensures Carries(st, FailedStatus(st)) && Carries(st, AfterImport(st))
  {
  }

  lemma ImportSucceeds(c: Config, w: World, p: Plan)
    requires StagingInv(c, w) && w.status.phase == Importing && ImportingShape(c, w.status, w.guard, p)
    requires |p.calls| == 2
    ensures PlanKeeps(c, w, p) && StagingInv(c, AfterCalls(c, w, p))
  {
    var e := p.calls[1];
    ImportRequest(c, w, e);
    ImportCarries(c, w.status, e.imported.diskID, e.imported.path, e.imported.checksum, e.imported.task);
    CarryingWrite(c, AfterCalls(c, w, p), p.write.value);
    PlanLawful(c, w, p, Allowed);
  }

  lemma ImportFails(c: Config, w: World, p: Plan)
    requires StagingInv(c, w) && w.status.phase == Importing && ImportingShape(c, w.status, w.guard, p)
    requires |p.calls| == 3
    ensures PlanKeeps(c, w, p) && StagingInv(c, AfterCalls(c, w, p))
  {
    var request, release := [ClaimGuard(ImportOp), p.calls[1]], ReleaseGuard(ImportOp);
    ImportRequest(c, w, p.calls[1]);
    var w2 := ApplyAll(c, w, request);
    UnrelatedCalls(c, w2, [release]);
    assert p.calls == request + [release];
    ApplyAllConcat(c, w, request, [release]);
    LawfulConcat(c, w, request, [release], Allowed);
    ImportCarries(c, w.status, "", "", "", "");
    CarryingWrite(c, AfterCalls(c, w, p), p.write.value);
    PlanLawful(c, w, p, Allowed);
  }

  lemma ImportingKeeps(c: Config, w: World, p: Plan)
    requires StagingInv(c, w) && w.status.phase == Importing && ImportingShape(c, w.status, w.guard, p)
    ensures PlanKeeps(c, w, p) && StagingInv(c, AfterCalls(c, w, p))
  {
    if FailsOrWaits(w.status, p) || ImportAlreadyDone(w.status, w.guard) {
      ImportCarries(c, w.status, "", "", "", "");
      BlandKeeps(c, w, p);
    } else if |p.calls| == 2 {
      ImportSucceeds(c, w, p);
    } else {
      ImportFails(c, w, p);
    }
  }

  // ---------------------------------------------------------------------------------------
  // Reconciles and runs

  lemma ReconcileKeeps(c: Config, w: World, ev: Event)
    requires StagingInv(c, w) && ev.Reconcile? && ReadsFresh(w, ev)
    ensures var p := PlanOf(c, w, ev);
            && PlanKeeps(c, w, p) && NoWrites(p.calls)
            && (Tasks.Accepts(p, ExportOp) || StagingInv(c, AfterCalls(c, w, p)))
  {
    var p := PlanOf(c, w, ev);
    PlanHasShape(c, ev.read, w.guard, ev.view, ev.viewPower, ev.env);
    if !w.deleting && w.finalizer && w.status.phase == Exporting {
      ExportingKeeps(c, w, p);
    } else if !w.deleting && w.finalizer && w.status.phase == Importing {
      ImportingKeeps(c, w, p);
    } else {
      OtherPhasesBland(c, ev.read, w.guard, ev.view, ev.viewPower, ev.env, p);
      BlandKeeps(c, w, p);
    }
  }

  lemma StepKeeps(c: Config, w: World, ev: Event)
    requires StagingInv(c, w) && Enabled(c, w, ev) && ReadsFresh(w, ev) && Tasks.KeepsRecord(c, w, ev, ExportOp)
    ensures StagingInv(c, Step(c, w, ev))
  {
    if ev.Reconcile? {
      var p := PlanOf(c, w, ev);
      ReconcileKeeps(c, w, ev);
      match ev.ending {
        case Completed => EffectsEnd(c, w, p);
        case Crashed(after) => AllowedKeepsPrefix(c, w, Effects(p), after);
        case WriteLost(at) => LostWrite(c, w, p, at);
      }
    }
  }

  lemma {:induction false} StagingInvariant(c: Config, w: World, evs: seq<Event>)
    requires Initial(w) && Tasks.RecordedRun(c, w, evs, ExportOp)
    ensures StagingInv(c, Run(c, w, evs))
    decreases |evs|
  {
    if evs != [] {
      var before := evs[..|evs| - 1];
      StagingInvariant(c, w, before);
      StepKeeps(c, Run(c, w, before), evs[|evs| - 1]);
    }
  }

  /**
    In every run with fresh reads, with crashes, restarts, retries, lost writes (other than the
    one recording an accepted export) and deletion at any point, each ImportDisk reads the
    address the last ExportDisk wrote, the provider had accepted that export, and the checksum
    it returned is the one expected.
   */
  lemma {:induction false} ImportsReadLastExport(c: Config, w: World, evs: seq<Event>)
    requires Initial(w) && Tasks.RecordedRun(c, w, evs, ExportOp)
    ensures StagingSound(Run(c, w, evs).trace)
  {
    StagingInvariant(c, w, evs);
  }

  /**
    Staging integrity.  If moreover no retry is taken over an export whose success is not on
    record, that export has succeeded: it returned no task, or the success of its task was
    reported before the import.
   */
  lemma {:induction false} StagingIntegrity(c: Config, w: World, evs: seq<Event>)
    requires Initial(w) && Tasks.SettledRun(c, w, evs, ExportOp)
    ensures StagingSound(Run(c, w, evs).trace) && Tasks.UsesFinished(Run(c, w, evs).trace, ExportOp)
  {
    Tasks.SettledIsRecorded(c, w, evs, ExportOp);
    ImportsReadLastExport(c, w, evs);
    Tasks.BuildsOnSuccess(c, w, evs, ExportOp);
  }
}
