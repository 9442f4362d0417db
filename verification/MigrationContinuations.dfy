/**
  What a world decides about every continuation.  Two hypotheses of the run theorems may fail: a
  reconcile may act on an object it read too long ago, and the name of the target may belong to
  another VM.  From such a world on, this module says for every run with fresh reads whether the
  imports and deletions still to come are right, in terms of that world alone.
 */
module MigrationContinuations {
  import opened Common
  import opened MigrationPlan
  import opened MigrationRetry
  import opened MigrationShape
  import opened MigrationTasks
  import opened MigrationWorld
  import Deletion = MigrationSourceDeletion
  import Staging = MigrationStaging

  lemma StepGrows(c: Config, w: World, ev: Event)
    requires Enabled(c, w, ev)
    ensures w.trace <= Step(c, w, ev).trace
  {
    if ev.Reconcile? {
      var k := StepIsPrefix(c, w, ev);
      TraceGrows(c, w, Effects(PlanOf(c, w, ev))[..k]);
    }
  }

  /** A run only adds to the trace. */
  lemma {:induction false} RunGrows(c: Config, w: World, evs: seq<Event>)
    requires FreshRun(c, w, evs)
    ensures w.trace <= Run(c, w, evs).trace
    decreases |evs|
  {
    if evs != [] {
      RunGrows(c, w, evs[..|evs| - 1]);
      StepGrows(c, Run(c, w, evs[..|evs| - 1]), evs[|evs| - 1]);
    }
  }

  // ---------------------------------------------------------------------------------------
  // The record of the export

  /** What an import planned from this status asks for. */
  predicate Asks(c: Config, url: string, sum: string, st: Status) {
    StorageUrl(c, st.pvcName) == Some(url) && ExpectedChecksum(st) == sum
  }

  predicate AskingPlan(c: Config, url: string, sum: string, p: Plan) {
    && (p.named.Some? ==> Asks(c, url, sum, p.named.value))
    && (forall e :: e in p.calls ==> !e.WriteStatus? && (e.ImportDisk? ==> e.url == url && e.expectedChecksum == sum))
    && (p.write.Some? ==> Asks(c, url, sum, p.write.value))
  }

  lemma TransferAsks(c: Config, url: string, sum: string, st: Status, guard: set<LongOp>, p: Plan)
    requires Asks(c, url, sum, st) && Known(st, ExportOp)
    requires if st.phase == Exporting then ExportingShape(c, st, guard, p)
             else st.phase == Importing && ImportingShape(c, st, guard, p)
    ensures AskingPlan(c, url, sum, p)
  {
  }

  lemma ValidatingAsks(c: Config, url: string, sum: string, st: Status, vms: map<Key, Vm>, power: Power, p: Plan)
    requires Asks(c, url, sum, st) && st.phase == Validating && ValidatingShape(c, st, vms, power, p)
    ensures AskingPlan(c, url, sum, p)
  {
    assert p.named.None?;
    assert SameRecord(st, p.write.value);
  }

  lemma SteppingAsks(c: Config, url: string, sum: string, st: Status, env: Env, p: Plan)
    requires Asks(c, url, sum, st)
    requires match st.phase
             case Snapshotting => SnapshottingShape(c, st, p)
             case Failed => FailedShape(c, st, env, p)
             case Ready => ReadyShape(c, st, p)
             case _ => exists next :: StepsTo(st, p, next)
    ensures AskingPlan(c, url, sum, p)
  {
    if st.phase == Ready && p.write.Some? {
      assert p.write.value == st.(cleanedUp := p.write.value.cleanedUp, snapshotID := p.write.value.snapshotID);
    }
  }

  lemma TargetAsks(c: Config, url: string, sum: string, st: Status, vms: map<Key, Vm>, env: Env, p: Plan)
    requires Asks(c, url, sum, st)
    requires if st.phase == Creating then CreatingShape(c, st, vms, env, p)
             else st.phase == ValidatingTarget && ValidatingTargetShape(c, st, vms, p)
    ensures AskingPlan(c, url, sum, p)
  {
  }

  lemma ReconcileAsks(c: Config, url: string, sum: string, w: World, ev: Event)
    requires Asks(c, url, sum, w.status) && Known(w.status, ExportOp) && ev.Reconcile? && ReadsFresh(w, ev)
    ensures AskingPlan(c, url, sum, PlanOf(c, w, ev))
  {
    var st, p := w.status, PlanOf(c, w, ev);
    PlanHasShape(c, ev.read, w.guard, ev.view, ev.viewPower, ev.env);
    if !w.deleting && w.finalizer {
      match st.phase {
        case Exporting => TransferAsks(c, url, sum, st, w.guard, p);
        case Importing => TransferAsks(c, url, sum, st, w.guard, p);
        case Validating => ValidatingAsks(c, url, sum, st, w.vms, w.power, p);
        case Creating => TargetAsks(c, url, sum, st, w.vms, ev.env, p);
        case ValidatingTarget => TargetAsks(c, url, sum, st, w.vms, ev.env, p);
        case _ => SteppingAsks(c, url, sum, st, ev.env, p);
      }
    }
  }

  /** From m on every import asks for the same. */
  predicate AllAsk(url: string, sum: string, m: nat, t: seq<Effect>) {
    forall i :: m <= i < |t| && t[i].ImportDisk? ==> t[i].url == url && t[i].expectedChecksum == sum
  }

  lemma {:induction false} AskingPrefix(c: Config, url: string, sum: string, m: nat, w: World, es: seq<Effect>)
    requires Asks(c, url, sum, w.status) && AllAsk(url, sum, m, w.trace)
    requires forall e :: e in es ==>
               && (e.WriteStatus? ==> Asks(c, url, sum, e.status))
               && (e.ImportDisk? ==> e.url == url && e.expectedChecksum == sum)
    ensures Asks(c, url, sum, ApplyAll(c, w, es).status) && AllAsk(url, sum, m, ApplyAll(c, w, es).trace)
    decreases |es|
  {
    if es != [] {
      assert es[0] in es;
      AskingPrefix(c, url, sum, m, Apply(c, w, es[0]), es[1..]);
    }
  }

  lemma StepAsks(c: Config, url: string, sum: string, m: nat, w: World, ev: Event)
    requires Asks(c, url, sum, w.status) && AllAsk(url, sum, m, w.trace) && Known(w.status, ExportOp)
    requires Enabled(c, w, ev) && ReadsFresh(w, ev)
    ensures Asks(c, url, sum, Step(c, w, ev).status) && AllAsk(url, sum, m, Step(c, w, ev).trace)
  {
    if ev.Reconcile? {
      ReconcileAsks(c, url, sum, w, ev);
      var k := StepIsPrefix(c, w, ev);
      AskingPrefix(c, url, sum, m, w, Effects(PlanOf(c, w, ev))[..k]);
    }
  }

  lemma {:induction false} RunAsks(c: Config, url: string, sum: string, n: World, evs: seq<Event>)
    requires Asks(c, url, sum, n.status) && Known(n.status, ExportOp) && FreshRun(c, n, evs)
    ensures var w := Run(c, n, evs); Asks(c, url, sum, w.status) && AllAsk(url, sum, |n.trace|, w.trace)
    decreases |evs|
  {
    if evs != [] {
      RunAsks(c, url, sum, n, evs[..|evs| - 1]);
      NeverReissued(c, ExportOp, n, evs[..|evs| - 1]);
      StepAsks(c, url, sum, |n.trace|, Run(c, n, evs[..|evs| - 1]), evs[|evs| - 1]);
    }
  }

  lemma {:induction false} LastExportStays(t: seq<Effect>, m: nat, i: nat)
    requires m <= i <= |t| && !CalledIn(t, m, i, ExportOp)
    ensures Staging.LastExport(t[..i]) == Staging.LastExport(t[..m])
    decreases i
  {
    if m < i {
      assert t[..i][..i - 1] == t[..i - 1];
      LastExportStays(t, m, i - 1);
    }
  }

  /**
    An export on record decides.  In every continuation with fresh reads of any state whose status
    knows of an export, every import reads the last export as it should if and only if that status
    carries the address and the checksum of the last export, and that export was accepted.
   */
  lemma {:induction false} RecordDecides(c: Config, url: string, n: World, evs: seq<Event>, i: nat)
    requires Known(n.status, ExportOp) && StorageUrl(c, n.status.pvcName) == Some(url) && FreshRun(c, n, evs)
    requires |n.trace| <= i < |Run(c, n, evs).trace| && Run(c, n, evs).trace[i].ImportDisk?
    ensures var t, last := Run(c, n, evs).trace, Staging.LastExport(n.trace);
            Staging.ReadsLastExport(t[..i], t[i])
            <==> && last.Some? && last.value.exported.Exported?
                 && last.value.url == url && last.value.exported.checksum == ExpectedChecksum(n.status)
  {
    var t := Run(c, n, evs).trace;
    RunAsks(c, url, ExpectedChecksum(n.status), n, evs);
    NeverReissued(c, ExportOp, n, evs);
    RunGrows(c, n, evs);
    assert t[..|n.trace|] == n.trace;
    assert !CalledIn(t, |n.trace|, i, ExportOp);
    LastExportStays(t, |n.trace|, i);
  }

  // ---------------------------------------------------------------------------------------
  // A stale read

  /** A reconcile of an object from before the export, whose export is accepted and whose write does not land. */
  predicate ExportsAgain(c: Config, n: World, ev: Event) {
    && Enabled(c, n, ev) && ev.Reconcile? && ev.read.finalizer && !ev.read.deleting
    && ev.read.status.phase == Exporting && ev.read.status.pvcName == n.status.pvcName
    && Accepts(PlanOf(c, n, ev), ExportOp) && (ev.ending == Crashed(2) || ev.ending == WriteLost(2))
  }

  lemma StaleExportIsLast(c: Config, n: World, ev: Event)
    requires ExportsAgain(c, n, ev)
    ensures ev.env.exported.Exported?
    ensures var on, last := Step(c, n, ev), Staging.LastExport(Step(c, n, ev).trace);
            && on.status == n.status && last.Some? && last.value.exported == ev.env.exported
            && StorageUrl(c, n.status.pvcName) == Some(last.value.url)
  {
    var p := PlanOf(c, n, ev);
    ExportingHasShape(c, ev.read.status, n.guard, ev.view, ev.env);
    assert p == ExportingPlan(c, ev.read.status, n.guard, ev.view, ev.env);
    assert Effects(p)[..2] == [p.calls[0], p.calls[1]];
    ApplyTwo(c, n, p.calls[0], p.calls[1], (_, _, _) => true);
    Staging.LastExportSnoc(n.trace + [p.calls[0]], p.calls[1]);
  }

  /**
    A stale read decides.  If an export on record is issued once more by a reconcile that read an
    older object, then in every continuation with fresh reads every import reads the last export as
    it should if and only if the second export returned the checksum on record.
   */
  lemma {:induction false} StaleReadDecides(c: Config, n: World, ev: Event, evs: seq<Event>, i: nat)
    requires Known(n.status, ExportOp) && ExportsAgain(c, n, ev) && FreshRun(c, Step(c, n, ev), evs)
    requires var t := Run(c, Step(c, n, ev), evs).trace;
             |Step(c, n, ev).trace| <= i < |t| && t[i].ImportDisk?
    ensures ev.env.exported.Exported?
    ensures var t := Run(c, Step(c, n, ev), evs).trace;
            Staging.ReadsLastExport(t[..i], t[i]) <==> ev.env.exported.checksum == ExpectedChecksum(n.status)
  {
    StaleExportIsLast(c, n, ev);
    var url := StorageUrl(c, n.status.pvcName).value;
    RecordDecides(c, url, Step(c, n, ev), evs, i);
  }

  // ---------------------------------------------------------------------------------------
  // The target and its disk

  /** The status records this disk. */
  predicate OnRecord(st: Status, disk: Option<ImportedDisk>) {
    disk.Some? && Attached(st) == disk
  }

  /** The target is attached to this disk, or will be when it is created. */
  predicate HasTarget(c: Config, w: World, disk: Option<ImportedDisk>) {
    if c.TargetKey() in w.vms then w.vms[c.TargetKey()].disk == disk
    else OnRecord(w.status, disk)
  }

  /** After t0 only this disk is attached or observed, and it has been by the time the source is deleted. */
  predicate SeesOnly(c: Config, disk: Option<ImportedDisk>, t0: seq<Effect>, t: seq<Effect>) {
    && (forall i :: |t0| <= i < |t| && t[i].CreateTarget? ==> Some(t[i].disk) == disk)
    && (forall i :: |t0| <= i < |t| && t[i].ReadTargetReady? && t[i].vm.ready ==> t[i].vm.disk == disk)
    && (forall i :: |t0| <= i < |t| && t[i].DeleteSource? ==> c.deleteAfter && Deletion.ObservedReady(t[..i], disk))
  }

  /** The target stays attached to this disk until the migration is Ready or deleted. */
  predicate TargetInv(c: Config, disk: Option<ImportedDisk>, t0: seq<Effect>, w: World) {
    && |t0| <= |w.trace| && SeesOnly(c, disk, t0, w.trace)
    && (w.deleting || w.status.phase == Ready || HasTarget(c, w, disk))
    && (w.status.phase in {ValidatingTarget, Ready} ==> Deletion.ObservedReady(w.trace, disk))
  }

  predicate TargetRule(c: Config, disk: Option<ImportedDisk>, w: World, e: Effect) {
    match e
    case WriteStatus(s) =>
      && (s.phase in {ValidatingTarget, Ready} ==> Deletion.ObservedReady(w.trace, disk))
      && (w.status.phase == Ready ==> s.phase == Ready)
      && (w.deleting || s.phase == Ready || HasTarget(c, w.(status := s), disk))
    case ReadTargetReady(vm) => vm.ready ==> vm.disk == disk
    case CreateTarget(d) => Some(d) == disk
    case DeleteSource => c.deleteAfter && w.status.phase == Ready
    case DeleteTarget => w.deleting
    case _ => true
  }

  function TargetRuleOf(disk: Option<ImportedDisk>): Rule {
    (c, w, e) => TargetRule(c, disk, w, e)
  }

  lemma SeesSnoc(c: Config, disk: Option<ImportedDisk>, t0: seq<Effect>, t: seq<Effect>, e: Effect)
    requires |t0| <= |t| && SeesOnly(c, disk, t0, t)
    requires e.ReadTargetReady? && e.vm.ready ==> e.vm.disk == disk
    requires e.CreateTarget? ==> Some(e.disk) == disk
    requires e.DeleteSource? ==> c.deleteAfter && Deletion.ObservedReady(t, disk)
    ensures SeesOnly(c, disk, t0, t + [e])
  {
    var u := t + [e];
    assert u[..|t|] == t && forall i :: 0 <= i < |t| ==> u[i] == t[i] && u[..i] == t[..i];
  }

  lemma TargetKeeps(c: Config, disk: Option<ImportedDisk>, t0: seq<Effect>, w: World, e: Effect)
    requires TargetInv(c, disk, t0, w) && TargetRule(c, disk, w, e)
    ensures TargetInv(c, disk, t0, Apply(c, w, e))
  {
    SeesSnoc(c, disk, t0, w.trace, e);
    Deletion.ObservedSnoc(w.trace, e, disk);
  }

  lemma {:induction false} TargetPrefix(
      c: Config, disk: Option<ImportedDisk>, t0: seq<Effect>, w: World, es: seq<Effect>, k: nat)
    requires TargetInv(c, disk, t0, w) && Lawful(c, w, es, TargetRuleOf(disk)) && k <= |es|
    ensures TargetInv(c, disk, t0, ApplyAll(c, w, es[..k]))
  {
    var inv: (Config, World) -> bool := (c, u) => TargetInv(c, disk, t0, u);
    forall u: World, e: Effect | inv(c, u) && TargetRuleOf(disk)(c, u, e)
      ensures inv(c, Apply(c, u, e))
    {
      TargetKeeps(c, disk, t0, u, e);
    }
    LawfulPrefix(c, w, es, k, inv, TargetRuleOf(disk));
  }

  /** Requests that neither observe nor create the target. */
  predicate Quiet(c: Config, ready: bool, deleting: bool, e: Effect) {
    && !e.WriteStatus? && !e.ReadTargetReady? && !e.CreateTarget?
    && (e.DeleteSource? ==> c.deleteAfter && ready) && (e.DeleteTarget? ==> deleting)
  }

  lemma {:induction false} QuietCalls(
      c: Config, disk: Option<ImportedDisk>, ready: bool, deleting: bool, w: World, es: seq<Effect>)
    requires ready == (w.status.phase == Ready) && deleting == w.deleting
    requires forall e :: e in es ==> Quiet(c, ready, deleting, e)
    ensures var n := ApplyAll(c, w, es);
            && Lawful(c, w, es, TargetRuleOf(disk)) && n.status == w.status && n.deleting == w.deleting
            && (deleting || ready || !HasTarget(c, w, disk) || HasTarget(c, n, disk))
            && (Deletion.ObservedReady(w.trace, disk) ==> Deletion.ObservedReady(n.trace, disk))
    decreases |es|
  {
    if es != [] {
      assert es[0] in es;
      Deletion.ObservedSnoc(w.trace, es[0], disk);
      QuietCalls(c, disk, ready, deleting, Apply(c, w, es[0]), es[1..]);
    }
  }

  /** A plan of quiet requests that moves neither into nor out of the late phases, nor changes the record. */
  predicate QuietPlan(c: Config, w: World, p: Plan) {
    && (forall e :: e in p.calls ==> Quiet(c, w.status.phase == Ready, w.deleting, e))
    && (p.named.Some? ==> p.named.value.phase == w.status.phase && Attached(p.named.value) == Attached(w.status))
    && (p.write.Some? ==>
          && (Attached(w.status).Some? ==> Attached(p.write.value) == Attached(w.status))
          && if w.status.phase == Ready then p.write.value.phase == Ready
             else p.write.value.phase in {ValidatingTarget, Ready} ==> p.write.value.phase == w.status.phase)
  }

  lemma QuietLawful(c: Config, disk: Option<ImportedDisk>, t0: seq<Effect>, w: World, p: Plan)
    requires TargetInv(c, disk, t0, w) && QuietPlan(c, w, p)
    ensures Lawful(c, w, Effects(p), TargetRuleOf(disk))
  {
    var named := AfterNamed(c, w, p);
    if p.named.Some? {
      Deletion.ObservedSnoc(w.trace, WriteStatus(p.named.value), disk);
    }
    QuietCalls(c, disk, w.status.phase == Ready, w.deleting, named, p.calls);
    PlanLawful(c, w, p, TargetRuleOf(disk));
  }

  lemma ValidatingQuiet(c: Config, w: World, p: Plan)
    requires w.status.phase == Validating && ValidatingShape(c, w.status, w.vms, w.power, p)
    ensures QuietPlan(c, w, p)
  {
    assert SameRecord(BaseOf(w.status, p), p.write.value);
  }

  lemma TransferQuiet(c: Config, w: World, p: Plan)
    requires Known(w.status, ImportOp)
    requires if w.status.phase == Exporting then ExportingShape(c, w.status, w.guard, p)
             else w.status.phase == Importing && ImportingShape(c, w.status, w.guard, p)
    ensures QuietPlan(c, w, p)
  {
  }

  lemma ReadyQuiet(c: Config, w: World, p: Plan)
    requires w.status.phase == Ready && ReadyShape(c, w.status, p)
    ensures QuietPlan(c, w, p)
  {
    if p.write.Some? {
      var s := p.write.value;
      assert s == w.status.(cleanedUp := s.cleanedUp, snapshotID := s.snapshotID);
    }
  }

  lemma EarlyQuiet(c: Config, w: World, env: Env, p: Plan)
    requires Known(w.status, ImportOp) && w.status.phase !in {Creating, ValidatingTarget}
    requires PhaseShape(c, w.status, w.guard, w.vms, w.power, env, p)
    ensures QuietPlan(c, w, p)
  {
    match w.status.phase {
      case Validating => ValidatingQuiet(c, w, p);
      case Exporting => TransferQuiet(c, w, p);
      case Importing => TransferQuiet(c, w, p);
      case Ready => ReadyQuiet(c, w, p);
      case _ =>
    }
  }

  lemma SeeingLawful(c: Config, disk: Option<ImportedDisk>, w: World, p: Plan)
    requires HasTarget(c, w, disk) && c.TargetKey() in w.vms && w.vms[c.TargetKey()].ready && p.named.None?
    requires var read := ReadTargetReady(w.vms[c.TargetKey()]);
             p.calls == [read] || p.calls == [read, MarkTargetCompleted]
    requires w.status.phase != Ready
    ensures Lawful(c, w, Effects(p), TargetRuleOf(disk))
  {
    var read := ReadTargetReady(w.vms[c.TargetKey()]);
    Deletion.ObservedSnoc(w.trace, read, disk);
    assert forall e :: e in p.calls[1..] ==> Quiet(c, false, w.deleting, e);
    QuietCalls(c, disk, false, w.deleting, Apply(c, w, read), p.calls[1..]);
    assert c.TargetKey() in AfterCalls(c, w, p).vms;
    PlanLawful(c, w, p, TargetRuleOf(disk));
  }

  lemma CreatingLawful(c: Config, disk: Option<ImportedDisk>, w: World, d: ImportedDisk)
    requires w.status.phase != Ready && w.status.phase != ValidatingTarget && Some(d) == disk
    ensures Lawful(c, w, Effects(Then([CreateTarget(d)], w.status)), TargetRuleOf(disk))
  {
    ApplyOne(c, w, CreateTarget(d), TargetRuleOf(disk));
    PlanLawful(c, w, Then([CreateTarget(d)], w.status), TargetRuleOf(disk));
  }

  lemma TargetLawful(c: Config, disk: Option<ImportedDisk>, t0: seq<Effect>, w: World, env: Env, p: Plan)
    requires TargetInv(c, disk, t0, w) && HasTarget(c, w, disk)
    requires if w.status.phase == Creating then CreatingShape(c, w.status, w.vms, env, p)
             else w.status.phase == ValidatingTarget && ValidatingTargetShape(c, w.status, w.vms, p)
    ensures Lawful(c, w, Effects(p), TargetRuleOf(disk))
  {
    if FailsOrWaits(w.status, p) || p == Write(w.status) {
      QuietLawful(c, disk, t0, w, p);
    } else if c.TargetKey() in w.vms {
      SeeingLawful(c, disk, w, p);
    } else {
      CreatingLawful(c, disk, w, Attached(w.status).value);
    }
  }

  lemma ReconcileTarget(c: Config, disk: Option<ImportedDisk>, t0: seq<Effect>, w: World, ev: Event)
    requires TargetInv(c, disk, t0, w) && Known(w.status, ImportOp) && ev.Reconcile? && ReadsFresh(w, ev)
    ensures Lawful(c, w, Effects(PlanOf(c, w, ev)), TargetRuleOf(disk))
  {
    var p := PlanOf(c, w, ev);
    PlanHasShape(c, ev.read, w.guard, ev.view, ev.viewPower, ev.env);
    if w.deleting || !w.finalizer {
      QuietLawful(c, disk, t0, w, p);
    } else if w.status.phase in {Creating, ValidatingTarget} {
      TargetLawful(c, disk, t0, w, ev.env, p);
    } else {
      EarlyQuiet(c, w, ev.env, p);
      QuietLawful(c, disk, t0, w, p);
    }
  }

  lemma StepTarget(c: Config, disk: Option<ImportedDisk>, t0: seq<Effect>, w: World, ev: Event)
    requires TargetInv(c, disk, t0, w) && Known(w.status, ImportOp) && Enabled(c, w, ev) && ReadsFresh(w, ev)
    requires ev == TargetRemoved ==> OnRecord(w.status, disk)
    ensures TargetInv(c, disk, t0, Step(c, w, ev))
  {
    if ev.Reconcile? {
      ReconcileTarget(c, disk, t0, w, ev);
      var k := StepIsPrefix(c, w, ev);
      TargetPrefix(c, disk, t0, w, Effects(PlanOf(c, w, ev)), k);
    }
  }

  // ---------------------------------------------------------------------------------------
  // The record of the import

  lemma ReconcileAttaches(c: Config, disk: Option<ImportedDisk>, w: World, ev: Event)
    requires OnRecord(w.status, disk) && Known(w.status, ImportOp) && ev.Reconcile? && ReadsFresh(w, ev)
    ensures forall e :: e in Effects(PlanOf(c, w, ev)) && e.WriteStatus? ==> Attached(e.status) == disk
  {
    var p := PlanOf(c, w, ev);
    PlanHasShape(c, ev.read, w.guard, ev.view, ev.viewPower, ev.env);
    ShapeHasNoWriteCalls(c, ev.read, w.guard, ev.view, ev.viewPower, ev.env, p);
    if !w.deleting && w.finalizer && w.status.phase !in {Creating, ValidatingTarget} {
      EarlyQuiet(c, w, ev.env, p);
    }
  }

  lemma {:induction false} AttachedPrefix(c: Config, disk: Option<ImportedDisk>, w: World, es: seq<Effect>)
    requires Attached(w.status) == disk && forall e :: e in es && e.WriteStatus? ==> Attached(e.status) == disk
    ensures Attached(ApplyAll(c, w, es).status) == disk
    decreases |es|
  {
    if es != [] {
      assert es[0] in es;
      AttachedPrefix(c, disk, Apply(c, w, es[0]), es[1..]);
    }
  }

  lemma StepAttaches(c: Config, disk: Option<ImportedDisk>, w: World, ev: Event)
    requires OnRecord(w.status, disk) && Known(w.status, ImportOp)
    requires Enabled(c, w, ev) && ReadsFresh(w, ev)
    ensures OnRecord(Step(c, w, ev).status, disk)
  {
    if ev.Reconcile? {
      ReconcileAttaches(c, disk, w, ev);
      var k := StepIsPrefix(c, w, ev);
      AttachedPrefix(c, disk, w, Effects(PlanOf(c, w, ev))[..k]);
    }
  }

  lemma {:induction false} RunTarget(c: Config, disk: Option<ImportedDisk>, n: World, evs: seq<Event>)
    requires HasTarget(c, n, disk) && n.status.phase !in {ValidatingTarget, Ready} && Known(n.status, ImportOp)
    requires FreshRun(c, n, evs) && (TargetRemoved !in evs || OnRecord(n.status, disk))
    ensures TargetInv(c, disk, n.trace, Run(c, n, evs))
    ensures OnRecord(n.status, disk) ==> OnRecord(Run(c, n, evs).status, disk)
    decreases |evs|
  {
    if evs != [] {
      var before := evs[..|evs| - 1];
      RunTarget(c, disk, n, before);
      NeverReissued(c, ImportOp, n, before);
      StepTarget(c, disk, n.trace, Run(c, n, before), evs[|evs| - 1]);
      if OnRecord(n.status, disk) {
        StepAttaches(c, disk, Run(c, n, before), evs[|evs| - 1]);
      }
    }
  }

  lemma {:induction false} LandedStays(c: Config, t: seq<Effect>, m: nat, i: nat)
    requires m <= i <= |t| && !CalledIn(t, m, i, ImportOp)
    ensures Deletion.LastLanded(c, t[..i]) == Deletion.LastLanded(c, t[..m])
    decreases i
  {
    if m < i {
      assert t[..i][..i - 1] == t[..i - 1];
      LandedStays(c, t, m, i - 1);
    }
  }

  lemma SeenBefore(c: Config, disk: Option<ImportedDisk>, other: Option<ImportedDisk>, t0: seq<Effect>, t: seq<Effect>,
                   i: nat)
    requires t0 <= t && |t0| <= i <= |t| && SeesOnly(c, disk, t0, t) && Deletion.ObservedReady(t[..i], other)
    ensures disk == other || Deletion.ObservedReady(t0, other)
  {
    var k :| 0 <= k < i && t[..i][k].ReadTargetReady? && t[..i][k].vm.ready && t[..i][k].vm.disk == other;
    if k < |t0| {
      assert t0[k] == t[k];
    } else {
      assert t[k].ReadTargetReady?;
    }
  }

  lemma {:induction false} TargetDecides(c: Config, disk: Option<ImportedDisk>, n: World, evs: seq<Event>, i: nat)
    requires HasTarget(c, n, disk) && n.status.phase !in {ValidatingTarget, Ready} && Known(n.status, ImportOp)
    requires FreshRun(c, n, evs) && (TargetRemoved !in evs || OnRecord(n.status, disk))
    requires |n.trace| <= i < |Run(c, n, evs).trace|
    ensures var t, landed := Run(c, n, evs).trace, Deletion.LastLanded(c, n.trace);
            && (t[i].CreateTarget? ==> Some(t[i].disk) == disk) && Deletion.LastLanded(c, t[..i]) == landed
            && (t[i].DeleteSource? && landed.Some? && !Deletion.ObservedReady(n.trace, landed) ==>
                  (Deletion.DeletionJustified(c, t[..i]) <==> disk == landed))
  {
    var t, landed := Run(c, n, evs).trace, Deletion.LastLanded(c, n.trace);
    RunGrows(c, n, evs);
    RunTarget(c, disk, n, evs);
    NeverReissued(c, ImportOp, n, evs);
    assert t[..|n.trace|] == n.trace;
    assert !CalledIn(t, |n.trace|, i, ImportOp);
    LandedStays(c, t, |n.trace|, i);
    if Deletion.ObservedReady(t[..i], landed) {
      SeenBefore(c, disk, landed, n.trace, t, i);
    }
  }

  /**
    An import on record decides.  In every continuation with fresh reads of a state whose status
    knows of an import and whose target, if there is one, is attached to the disk on record: every
    target created is attached to the disk landed last, and every deletion of the source is
    justified, if and only if the disk on record is the disk landed last.
   */
  lemma {:induction false} ImportRecordDecides(c: Config, n: World, evs: seq<Event>, i: nat)
    requires Known(n.status, ImportOp) && n.status.phase !in {ValidatingTarget, Ready} && n.status.diskInfo.Some?
    requires c.TargetKey() in n.vms ==> n.vms[c.TargetKey()].disk == Attached(n.status)
    requires var landed := Deletion.LastLanded(c, n.trace); landed.Some? && !Deletion.ObservedReady(n.trace, landed)
    requires FreshRun(c, n, evs) && |n.trace| <= i < |Run(c, n, evs).trace|
    ensures var t, agrees := Run(c, n, evs).trace, Attached(n.status) == Deletion.LastLanded(c, n.trace);
            && (t[i].CreateTarget? ==> (Some(t[i].disk) == Deletion.LastLanded(c, t[..i]) <==> agrees))
            && (t[i].DeleteSource? ==> (Deletion.DeletionJustified(c, t[..i]) <==> agrees))
  {
    TargetDecides(c, Attached(n.status), n, evs, i);
  }

  /**
    A claimed name decides.  Let the target's name belong to a VM while the import on record has not
    been observed on any Ready target.  In every continuation with fresh reads in which that VM is
    not removed by someone else, every deletion of the source is justified if and only if the VM is
    attached to the disk landed last.
   */
  lemma {:induction false} ClaimedNameDecides(c: Config, n: World, evs: seq<Event>, i: nat)
    requires c.TargetKey() in n.vms && n.status.phase !in {ValidatingTarget, Ready} && Known(n.status, ImportOp)
    requires var landed := Deletion.LastLanded(c, n.trace); landed.Some? && !Deletion.ObservedReady(n.trace, landed)
    requires FreshRun(c, n, evs) && TargetRemoved !in evs
    requires |n.trace| <= i < |Run(c, n, evs).trace| && Run(c, n, evs).trace[i].DeleteSource?
    ensures Deletion.DeletionJustified(c, Run(c, n, evs).trace[..i])
            <==> n.vms[c.TargetKey()].disk == Deletion.LastLanded(c, n.trace)
  {
    TargetDecides(c, n.vms[c.TargetKey()].disk, n, evs, i);
  }
}
