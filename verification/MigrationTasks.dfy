/**
  Long operations that finish later.  A provider may accept ExportDisk or ImportDisk and answer
  with a task; the operation has succeeded only when no task was returned or its success has
  been reported since.  This module shows which runs build only on operations that succeeded.
 */
module MigrationTasks {
  import opened Common
  import opened MigrationPlan
  import opened MigrationShape
  import opened MigrationWorld

  // ---------------------------------------------------------------------------------------
  // The state of an operation, read off the trace

  /** The last call: none accepted, accepted with this task still open, or succeeded. */
  datatype CallState = NotCalled | Open(task: string) | Succeeded

  function Answered(task: string): CallState {
    if task == "" then Succeeded else Open(task)
  }

  function Advance(s: CallState, op: LongOp, e: Effect): CallState {
    match e
    case ExportDisk(_, _, answer) =>
      if op != ExportOp then s else if answer.ExportFailed? then NotCalled else Answered(answer.task)
    case ImportDisk(_, _, _, answer) =>
      if op != ImportOp then s else if answer.ImportFailed? then NotCalled else Answered(answer.task)
    case PollTask(polled, task, answer) =>
      if polled == op && answer == TaskSucceeded && s == Open(task) then Succeeded else s
    case _ => s
  }

  function StateOf(t: seq<Effect>, op: LongOp): CallState {
    if t == [] then NotCalled else Advance(StateOf(t[..|t| - 1], op), op, t[|t| - 1])
  }

  /** The last call of the operation was accepted and has succeeded. */
  predicate Finished(t: seq<Effect>, op: LongOp) {
    StateOf(t, op) == Succeeded
  }

  lemma StateSnoc(t: seq<Effect>, e: Effect, op: LongOp)
    ensures StateOf(t + [e], op) == Advance(StateOf(t, op), op, e)
  {
    assert (t + [e])[..|t|] == t;
  }

  predicate IsCall(e: Effect, op: LongOp) {
    match op
    case ExportOp => e.ExportDisk?
    case ImportOp => e.ImportDisk?
  }

  /** Effects that build on the operation: importing the export, attaching the import, giving up the source. */
  predicate Uses(e: Effect, op: LongOp) {
    match op
    case ExportOp => e.ImportDisk?
    case ImportOp => e.CreateTarget? || e.DeleteSource?
  }

  predicate UsesFinished(t: seq<Effect>, op: LongOp) {
    forall i :: 0 <= i < |t| && Uses(t[i], op) ==> Finished(t[..i], op)
  }

  /** Effects that stake data on the operation: reading the export, giving up the source for the import. */
  predicate Stakes(e: Effect, op: LongOp) {
    match op
    case ExportOp => e.ImportDisk?
    case ImportOp => e.DeleteSource?
  }

  /** At i data is staked on a call that is still open and whose task was reported failed before. */
  predicate OnFailed(t: seq<Effect>, op: LongOp, i: nat) {
    && i < |t| && Stakes(t[i], op) && StateOf(t[..i], op).Open?
    && PollTask(op, StateOf(t[..i], op).task, TaskFailed) in t[..i]
  }

  // ---------------------------------------------------------------------------------------
  // What the status claims

  predicate Claimed(st: Status, op: LongOp) {
    match op
    case ExportOp => st.exportID != ""
    case ImportOp => st.importID != ""
  }

  predicate Confirmed(st: Status, op: LongOp) {
    match op
    case ExportOp => st.IsTrue(CondExporting)
    case ImportOp => st.IsTrue(CondImporting)
  }

  predicate Past(p: Phase, op: LongOp) {
    match op
    case ExportOp => p in {Transferring, Converting, Importing, Creating, ValidatingTarget, Ready}
    case ImportOp => p in {Creating, ValidatingTarget, Ready}
  }

  /** The phases in which an unconfirmed operation may stand. */
  predicate Under(p: Phase, op: LongOp) {
    p == Failed || p == if op == ExportOp then Exporting else Importing
  }

  /** The operation has succeeded, or the status polls its task. */
  predicate Followed(t: seq<Effect>, op: LongOp, st: Status) {
    Under(st.phase, op) && (Finished(t, op) || (st.taskRef != "" && StateOf(t, op) == Open(st.taskRef)))
  }

  predicate StatusTrue(t: seq<Effect>, op: LongOp, st: Status) {
    && (Past(st.phase, op) ==> Confirmed(st, op))
    && (Confirmed(st, op) ==> Finished(t, op))
    && (Claimed(st, op) ==> Confirmed(st, op) || Followed(t, op, st))
  }

  predicate TaskRecorded(op: LongOp, w: World) {
    StatusTrue(w.trace, op, w.status) && UsesFinished(w.trace, op)
  }

  predicate GuardTrue(op: LongOp, w: World) {
    op in w.guard ==> Confirmed(w.status, op) || Followed(w.trace, op, w.status)
  }

  predicate TaskInv(op: LongOp, w: World) {
    TaskRecorded(op, w) && GuardTrue(op, w)
  }

  // ---------------------------------------------------------------------------------------
  // One effect

  predicate TaskRule(op: LongOp, w: World, e: Effect) {
    && (e.WriteStatus? ==> StatusTrue(w.trace, op, e.status))
    && (IsCall(e, op) ==> !Claimed(w.status, op) && !Confirmed(w.status, op))
    && (Uses(e, op) ==> Finished(w.trace, op))
  }

  /** The rule in the form the run framework takes. */
  function RuleOf(op: LongOp): Rule {
    (_, w, e) => TaskRule(op, w, e)
  }

  lemma UsesSnoc(t: seq<Effect>, e: Effect, op: LongOp)
    requires UsesFinished(t, op) && (Uses(e, op) ==> Finished(t, op))
    ensures UsesFinished(t + [e], op)
  {
    forall i | 0 <= i < |t + [e]| && Uses((t + [e])[i], op)
      ensures Finished((t + [e])[..i], op)
    {
      assert (t + [e])[..i] == t[..i];
      assert t[..|t|] == t;
    }
  }

  lemma RuleKeeps(c: Config, op: LongOp, w: World, e: Effect)
    requires TaskRecorded(op, w) && TaskRule(op, w, e)
    ensures TaskRecorded(op, Apply(c, w, e))
  {
    StateSnoc(w.trace, e, op);
    UsesSnoc(w.trace, e, op);
  }

  lemma {:induction false} RulePrefix(c: Config, op: LongOp, w: World, es: seq<Effect>, k: nat)
    requires TaskRecorded(op, w) && Lawful(c, w, es, RuleOf(op)) && k <= |es|
    ensures TaskRecorded(op, ApplyAll(c, w, es[..k]))
  {
    var inv: (Config, World) -> bool := (_, u) => TaskRecorded(op, u);
    forall u: World, e: Effect | inv(c, u) && RuleOf(op)(c, u, e)
      ensures inv(c, Apply(c, u, e))
    {
      RuleKeeps(c, op, u, e);
    }
    LawfulPrefix(c, w, es, k, inv, RuleOf(op));
  }

  // ---------------------------------------------------------------------------------------
  // Plans that leave the operation alone

  /** Nothing of the operation has been issued, as far as status and guard know. */
  predicate Unissued(op: LongOp, st: Status, held: bool) {
    !Claimed(st, op) && !held
  }

  /** The write neither confirms nor forgets the operation, nor the task that is polled for it. */
  predicate Keeps(op: LongOp, st: Status, held: bool, s: Status) {
    && Claimed(s, op) == Claimed(st, op)
    && Confirmed(s, op) == Confirmed(st, op)
    && (Past(s.phase, op) ==> Past(st.phase, op))
    && (|| Confirmed(st, op) || !Under(st.phase, op) || Unissued(op, st, held)
        || (Under(s.phase, op) && s.taskRef == st.taskRef))
  }

  predicate Aside(e: Effect, op: LongOp) {
    !e.WriteStatus? && !IsCall(e, op) && e != ClaimGuard(op) && e != ReleaseGuard(op)
  }

  predicate LeavesAlone(op: LongOp, st: Status, held: bool, p: Plan) {
    && Keeps(op, st, held, BaseOf(st, p))
    && (forall e :: e in p.calls ==> Aside(e, op) && (Uses(e, op) ==> Past(st.phase, op)))
    && (p.write.Some? ==> Keeps(op, BaseOf(st, p), held, p.write.value))
    && (p.named.Some? ==> p.named.value.phase == st.phase)
  }

  lemma KeepingWrite(c: Config, op: LongOp, w: World, s: Status)
    requires TaskInv(op, w) && Keeps(op, w.status, op in w.guard, s)
    ensures TaskRule(op, w, WriteStatus(s)) && TaskInv(op, Apply(c, w, WriteStatus(s)))
    ensures Apply(c, w, WriteStatus(s)).guard == w.guard
  {
    RuleKeeps(c, op, w, WriteStatus(s));
    StateSnoc(w.trace, WriteStatus(s), op);
  }

  lemma AsideKeeps(c: Config, op: LongOp, w: World, e: Effect)
    requires TaskInv(op, w) && Aside(e, op) && (Uses(e, op) ==> Past(w.status.phase, op))
    ensures TaskRule(op, w, e) && TaskInv(op, Apply(c, w, e)) && Apply(c, w, e).status == w.status
    ensures op in Apply(c, w, e).guard <==> op in w.guard
  {
    RuleKeeps(c, op, w, e);
    StateSnoc(w.trace, e, op);
  }

  lemma {:induction false} AsideCalls(c: Config, op: LongOp, w: World, es: seq<Effect>)
    requires TaskInv(op, w)
    requires forall e :: e in es ==> Aside(e, op) && (Uses(e, op) ==> Past(w.status.phase, op))
    ensures Lawful(c, w, es, RuleOf(op)) && TaskInv(op, ApplyAll(c, w, es))
    ensures ApplyAll(c, w, es).status == w.status && (op in ApplyAll(c, w, es).guard <==> op in w.guard)
    decreases |es|
  {
    if es != [] {
      assert es[0] in es;
      AsideKeeps(c, op, w, es[0]);
      AsideCalls(c, op, Apply(c, w, es[0]), es[1..]);
    }
  }

  /** Every prefix of the plan is sound and the completed plan restores the whole invariant. */
  predicate PlanTrue(c: Config, op: LongOp, w: World, p: Plan) {
    Lawful(c, w, Effects(p), RuleOf(op)) && TaskInv(op, AfterPlan(c, w, p))
  }

  lemma LeavingAloneKeeps(c: Config, op: LongOp, w: World, p: Plan)
    requires TaskInv(op, w) && LeavesAlone(op, w.status, op in w.guard, p)
    ensures PlanTrue(c, op, w, p) && TaskInv(op, AfterCalls(c, w, p))
  {
    if p.named.Some? {
      KeepingWrite(c, op, w, p.named.value);
    }
    AsideCalls(c, op, AfterNamed(c, w, p), p.calls);
    if p.write.Some? {
      KeepingWrite(c, op, AfterCalls(c, w, p), p.write.value);
    }
    PlanLawful(c, w, p, RuleOf(op));
  }

  lemma SameRecordKeeps(op: LongOp, st: Status, held: bool, s: Status)
    requires SameRecord(st, s) && (Past(s.phase, op) ==> Past(st.phase, op))
    requires Under(st.phase, op) ==> Under(s.phase, op)
    ensures Keeps(op, st, held, s)
  {
  }

  lemma FailingKeeps(op: LongOp, st: Status, held: bool, p: Plan)
    requires FailsOrWaits(st, p)
    ensures LeavesAlone(op, st, held, p)
  {
    SameRecordKeeps(op, st, held, FailedStatus(st));
  }

  lemma ValidatingAlone(c: Config, op: LongOp, st: Status, held: bool, vms: map<Key, Vm>, power: Power, p: Plan)
    requires st.phase == Validating && ValidatingShape(c, st, vms, power, p)
    ensures LeavesAlone(op, st, held, p)
  {
    var base := BaseOf(st, p);
    assert ValidatingEnd(c, base, vms, power, p.calls, p.write);
    SameRecordKeeps(op, base, held, p.write.value);
    assert base == st.(pvcName := base.pvcName);
  }

  lemma SnapshottingAlone(c: Config, op: LongOp, st: Status, held: bool, p: Plan)
    requires st.phase == Snapshotting && SnapshottingShape(c, st, p)
    ensures LeavesAlone(op, st, held, p)
  {
    SameRecordKeeps(op, st, held, p.write.value.(snapshotID := st.snapshotID, taskRef := st.taskRef));
  }

  lemma StepAlone(op: LongOp, st: Status, held: bool, p: Plan, next: Phase)
    requires StepsTo(st, p, next) && (next == Importing ==> st.phase in {Transferring, Converting})
    requires st.phase in {Unset, Pending, Transferring, Converting} && next in {Pending, Validating, Importing}
    ensures LeavesAlone(op, st, held, p)
  {
    SameRecordKeeps(op, st, held, p.write.value);
  }

  lemma CreatingAlone(c: Config, op: LongOp, st: Status, held: bool, vms: map<Key, Vm>, env: Env, p: Plan)
    requires st.phase == Creating && CreatingShape(c, st, vms, env, p)
    ensures LeavesAlone(op, st, held, p)
  {
    if FailsOrWaits(st, p) {
      FailingKeeps(op, st, held, p);
    }
  }

  lemma ValidatingTargetAlone(c: Config, op: LongOp, st: Status, held: bool, vms: map<Key, Vm>, p: Plan)
    requires st.phase == ValidatingTarget && ValidatingTargetShape(c, st, vms, p)
    ensures LeavesAlone(op, st, held, p)
  {
    if FailsOrWaits(st, p) {
      FailingKeeps(op, st, held, p);
    } else if p != Write(st) {
      SameRecordKeeps(op, st, held, p.write.value.(targetVMID := st.targetVMID));
    }
  }

  lemma ReadyAlone(c: Config, op: LongOp, st: Status, held: bool, p: Plan)
    requires st.phase == Ready && ReadyShape(c, st, p)
    ensures LeavesAlone(op, st, held, p)
  {
    if p.write.Some? {
      assert p.write.value == st.(cleanedUp := p.write.value.cleanedUp, snapshotID := p.write.value.snapshotID);
    }
  }

  /** A retry forgets the polled task, so it must not come while the operation is unconfirmed. */
  lemma RetryAlone(c: Config, op: LongOp, st: Status, held: bool, env: Env, p: Plan)
    requires st.phase == Failed && FailedShape(c, st, env, p)
    requires p.write.Some? ==> Confirmed(st, op) || Unissued(op, st, held)
    ensures LeavesAlone(op, st, held, p)
  {
    if p.write.Some? {
      assert p.write.value == RetryStatus(st, env.now);
    }
  }

  lemma ExportingLeavesImport(c: Config, st: Status, guard: set<LongOp>, held: bool, p: Plan)
    requires st.phase == Exporting && ExportingShape(c, st, guard, p)
    ensures LeavesAlone(ImportOp, st, held, p)
  {
    if FailsOrWaits(st, p) {
      FailingKeeps(ImportOp, st, held, p);
    } else if !ExportAlreadyDone(st, guard) {
      ExportCallKeepsImport(c, st, held, p.calls[1], p.write.value);
    }
  }

  lemma ExportCallKeepsImport(c: Config, st: Status, held: bool, e: Effect, s: Status)
    requires st.phase == Exporting && e.ExportDisk?
    requires if e.exported.ExportFailed? then s == FailedStatus(st)
             else s == RecordExport(c, st, e.exported.exportID, e.exported.checksum, e.exported.task)
    ensures Keeps(ImportOp, st, held, s) && Aside(e, ImportOp)
  {
  }

  lemma ImportingLeavesExport(c: Config, st: Status, guard: set<LongOp>, held: bool, p: Plan)
    requires st.phase == Importing && ImportingShape(c, st, guard, p)
    ensures LeavesAlone(ExportOp, st, held, p)
  {
    if FailsOrWaits(st, p) {
      FailingKeeps(ExportOp, st, held, p);
    } else if !ImportAlreadyDone(st, guard) {
      ImportCallKeepsExport(c, st, held, p.calls[1], p.write.value);
    }
  }

  lemma ImportCallKeepsExport(c: Config, st: Status, held: bool, e: Effect, s: Status)
    requires st.phase == Importing && e.ImportDisk?
    requires if e.imported.ImportFailed? then s == FailedStatus(st)
             else s == RecordImport(c, st, e.imported.diskID, e.imported.path, e.imported.checksum, e.imported.task)
    ensures Keeps(ExportOp, st, held, s) && Aside(e, ExportOp)
  {
  }

  // ---------------------------------------------------------------------------------------
  // The operation itself

  function Next(op: LongOp, st: Status): Status {
    match op
    case ExportOp => AfterExport(st)
    case ImportOp => AfterImport(st)
  }

  predicate AlreadyDone(op: LongOp, st: Status, guard: set<LongOp>) {
    match op
    case ExportOp => ExportAlreadyDone(st, guard)
    case ImportOp => ImportAlreadyDone(st, guard)
  }

  /** The call was accepted, with this task. */
  predicate Accepted(e: Effect, op: LongOp, task: string) {
    match op
    case ExportOp => e.ExportDisk? && e.exported.Exported? && e.exported.task == task
    case ImportOp => e.ImportDisk? && e.imported.Imported? && e.imported.task == task
  }

  predicate Rejected(e: Effect, op: LongOp) {
    match op
    case ExportOp => e.ExportDisk? && e.exported.ExportFailed?
    case ImportOp => e.ImportDisk? && e.imported.ImportFailed?
  }

  /** The status records the accepted call: confirmed at once, or with the task to poll. */
  predicate Recording(op: LongOp, task: string, s: Status) {
    if task == "" then Confirmed(s, op) else Under(s.phase, op) && s.phase != Failed && s.taskRef == task
  }

  lemma ConfirmingWrite(c: Config, op: LongOp, w: World)
    requires TaskInv(op, w) && Finished(w.trace, op) && Under(w.status.phase, op) && w.status.phase != Failed
    ensures TaskRule(op, w, WriteStatus(Next(op, w.status)))
    ensures TaskInv(op, Apply(c, w, WriteStatus(Next(op, w.status))))
  {
    RuleKeeps(c, op, w, WriteStatus(Next(op, w.status)));
    StateSnoc(w.trace, WriteStatus(Next(op, w.status)), op);
  }

  lemma PolledFinishes(c: Config, op: LongOp, w: World, calls: seq<Effect>)
    requires TaskInv(op, w) && AlreadyDone(op, w.status, w.guard)
    requires calls == if w.status.taskRef == "" then [] else [PollTask(op, w.status.taskRef, TaskSucceeded)]
    ensures Finished(ApplyAll(c, w, calls).trace, op)
  {
    if w.status.taskRef != "" {
      ApplyOne(c, w, calls[0], RuleOf(op));
      StateSnoc(w.trace, calls[0], op);
    }
  }

  /** Going on after the poll: the polled task is the operation's own, and it has succeeded. */
  lemma AdvancingTrue(c: Config, op: LongOp, w: World, p: Plan)
    requires TaskInv(op, w) && AlreadyDone(op, w.status, w.guard)
    requires Under(w.status.phase, op) && w.status.phase != Failed
    requires Advances(op, w.status, Next(op, w.status), p)
    ensures PlanTrue(c, op, w, p) && TaskInv(op, AfterCalls(c, w, p))
  {
    AsideCalls(c, op, w, p.calls);
    PolledFinishes(c, op, w, p.calls);
    ConfirmingWrite(c, op, AfterCalls(c, w, p));
    PlanLawful(c, w, p, RuleOf(op));
  }

  lemma AcceptedCalls(c: Config, op: LongOp, w: World, e: Effect, task: string)
    requires TaskInv(op, w) && !AlreadyDone(op, w.status, w.guard)
    requires Accepted(e, op, task) && !Uses(e, op)
    ensures Lawful(c, w, [ClaimGuard(op), e], RuleOf(op))
    ensures var n := ApplyAll(c, w, [ClaimGuard(op), e]);
            TaskRecorded(op, n) && StateOf(n.trace, op) == Answered(task)
  {
    var w1 := Apply(c, w, ClaimGuard(op));
    RuleKeeps(c, op, w, ClaimGuard(op));
    RuleKeeps(c, op, w1, e);
    StateSnoc(w1.trace, e, op);
    ApplyTwo(c, w, ClaimGuard(op), e, RuleOf(op));
  }

  lemma RecordingWrite(c: Config, op: LongOp, w: World, task: string, s: Status)
    requires TaskRecorded(op, w) && StateOf(w.trace, op) == Answered(task) && Recording(op, task, s)
    requires Past(s.phase, op) ==> Confirmed(s, op)
    requires Confirmed(s, op) ==> task == ""
    ensures TaskRule(op, w, WriteStatus(s)) && TaskInv(op, Apply(c, w, WriteStatus(s)))
  {
    RuleKeeps(c, op, w, WriteStatus(s));
    StateSnoc(w.trace, WriteStatus(s), op);
  }

  lemma AcceptedTrue(c: Config, op: LongOp, w: World, e: Effect, task: string, s: Status)
    requires TaskInv(op, w) && !AlreadyDone(op, w.status, w.guard)
    requires Accepted(e, op, task) && !Uses(e, op) && Recording(op, task, s)
    requires Past(s.phase, op) ==> Confirmed(s, op)
    requires Confirmed(s, op) ==> task == ""
    ensures PlanTrue(c, op, w, Then([ClaimGuard(op), e], s))
  {
    AcceptedCalls(c, op, w, e, task);
    RecordingWrite(c, op, ApplyAll(c, w, [ClaimGuard(op), e]), task, s);
    PlanLawful(c, w, Then([ClaimGuard(op), e], s), RuleOf(op));
  }

  lemma RejectedTrue(c: Config, op: LongOp, w: World, e: Effect)
    requires TaskInv(op, w) && !AlreadyDone(op, w.status, w.guard) && !Past(w.status.phase, op)
    requires Rejected(e, op) && !Uses(e, op)
    ensures var p := Then([ClaimGuard(op), e, ReleaseGuard(op)], FailedStatus(w.status));
            PlanTrue(c, op, w, p) && TaskInv(op, AfterCalls(c, w, p))
  {
    var p := Then([ClaimGuard(op), e, ReleaseGuard(op)], FailedStatus(w.status));
    var w1 := Apply(c, w, ClaimGuard(op));
    var w2 := Apply(c, w1, e);
    var w3 := Apply(c, w2, ReleaseGuard(op));
    RuleKeeps(c, op, w, ClaimGuard(op));
    RuleKeeps(c, op, w1, e);
    RuleKeeps(c, op, w2, ReleaseGuard(op));
    ApplyThree(c, w, ClaimGuard(op), e, ReleaseGuard(op), RuleOf(op));
    KeepingWrite(c, op, w3, FailedStatus(w.status));
    PlanLawful(c, w, p, RuleOf(op));
  }

  /** The plan issues the operation and the provider accepts it. */
  predicate Accepts(p: Plan, op: LongOp) {
    |p.calls| == 2 && IsCall(p.calls[1], op) && !Rejected(p.calls[1], op)
  }

  lemma ExportingTrue(c: Config, w: World, p: Plan)
    requires TaskInv(ExportOp, w) && w.status.phase == Exporting && ExportingShape(c, w.status, w.guard, p)
    ensures PlanTrue(c, ExportOp, w, p) && (Accepts(p, ExportOp) || TaskInv(ExportOp, AfterCalls(c, w, p)))
  {
    if FailsOrWaits(w.status, p) {
      FailingKeeps(ExportOp, w.status, ExportOp in w.guard, p);
      LeavingAloneKeeps(c, ExportOp, w, p);
    } else if ExportAlreadyDone(w.status, w.guard) {
      AdvancingTrue(c, ExportOp, w, p);
    } else if p.calls[1].exported.Exported? {
      AcceptedTrue(c, ExportOp, w, p.calls[1], p.calls[1].exported.task, p.write.value);
    } else {
      RejectedTrue(c, ExportOp, w, p.calls[1]);
    }
  }

  lemma ImportingTrue(c: Config, w: World, p: Plan)
    requires TaskInv(ImportOp, w) && w.status.phase == Importing && ImportingShape(c, w.status, w.guard, p)
    ensures PlanTrue(c, ImportOp, w, p) && (Accepts(p, ImportOp) || TaskInv(ImportOp, AfterCalls(c, w, p)))
  {
    if FailsOrWaits(w.status, p) {
      FailingKeeps(ImportOp, w.status, ImportOp in w.guard, p);
      LeavingAloneKeeps(c, ImportOp, w, p);
    } else if ImportAlreadyDone(w.status, w.guard) {
      AdvancingTrue(c, ImportOp, w, p);
    } else if p.calls[1].imported.Imported? {
      AcceptedTrue(c, ImportOp, w, p.calls[1], p.calls[1].imported.task, p.write.value);
    } else {
      RejectedTrue(c, ImportOp, w, p.calls[1]);
    }
  }

  // ---------------------------------------------------------------------------------------
  // Reconciles and runs

  /** The one write that must not be lost while the process lives: the one recording an accepted call. */
  predicate KeepsRecord(c: Config, w: World, ev: Event, op: LongOp) {
    ev.Reconcile? && ev.ending.WriteLost? ==> !Accepts(PlanOf(c, w, ev), op)
  }

  /** The operation was issued and its success is not on record. */
  predicate Unconfirmed(st: Status, guard: set<LongOp>, op: LongOp) {
    !Confirmed(st, op) && !Unissued(op, st, op in guard)
  }

  /** The reconcile takes a failed migration back to Pending. */
  predicate Retries(c: Config, w: World, ev: Event) {
    ev.Reconcile? && !w.deleting && w.finalizer && w.status.phase == Failed && PlanOf(c, w, ev).write.Some?
  }

  /** No retry is taken over an operation whose success is not on record. */
  predicate RetriesSettled(c: Config, w: World, ev: Event, op: LongOp) {
    Retries(c, w, ev) ==> !Unconfirmed(w.status, w.guard, op)
  }

  lemma LatePhaseTrue(c: Config, op: LongOp, w: World, ev: Event)
    requires TaskInv(op, w) && ev.Reconcile? && ReadsFresh(w, ev) && RetriesSettled(c, w, ev, op)
    requires !w.deleting && w.finalizer
    requires w.status.phase !in {Unset, Pending, Transferring, Converting, Exporting, Importing}
    requires PhaseShape(c, w.status, w.guard, w.vms, w.power, ev.env, PlanOf(c, w, ev))
    ensures LeavesAlone(op, w.status, op in w.guard, PlanOf(c, w, ev))
  {
    var st, held, p := w.status, op in w.guard, PlanOf(c, w, ev);
    match st.phase {
      case Validating => ValidatingAlone(c, op, st, held, w.vms, w.power, p);
      case Snapshotting => SnapshottingAlone(c, op, st, held, p);
      case Creating => CreatingAlone(c, op, st, held, w.vms, ev.env, p);
      case ValidatingTarget => ValidatingTargetAlone(c, op, st, held, w.vms, p);
      case Ready => ReadyAlone(c, op, st, held, p);
      case Failed => RetryAlone(c, op, st, held, ev.env, p);
    }
  }

  lemma SteppingAlone(c: Config, op: LongOp, w: World, env: Env, p: Plan)
    requires w.status.phase in {Unset, Pending, Transferring, Converting}
    requires PhaseShape(c, w.status, w.guard, w.vms, w.power, env, p)
    ensures LeavesAlone(op, w.status, op in w.guard, p)
  {
    var st, held := w.status, op in w.guard;
    match st.phase {
      case Unset => StepAlone(op, st, held, p, Pending);
      case Pending => StepAlone(op, st, held, p, Validating);
      case Transferring => StepAlone(op, st, held, p, Importing);
      case Converting => StepAlone(op, st, held, p, Importing);
    }
  }

  lemma TransferTrue(c: Config, op: LongOp, w: World, env: Env, p: Plan)
    requires TaskInv(op, w) && w.status.phase in {Exporting, Importing}
    requires PhaseShape(c, w.status, w.guard, w.vms, w.power, env, p)
    ensures PlanTrue(c, op, w, p) && (Accepts(p, op) || TaskInv(op, AfterCalls(c, w, p)))
  {
    if w.status.phase == Exporting {
      if op == ExportOp {
        ExportingTrue(c, w, p);
      } else {
        ExportingLeavesImport(c, w.status, w.guard, ImportOp in w.guard, p);
        LeavingAloneKeeps(c, op, w, p);
      }
    } else if op == ImportOp {
      ImportingTrue(c, w, p);
    } else {
      ImportingLeavesExport(c, w.status, w.guard, ExportOp in w.guard, p);
      LeavingAloneKeeps(c, op, w, p);
    }
  }

  lemma DeletionAlone(
      c: Config, op: LongOp, o: Object, guard: set<LongOp>, vms: map<Key, Vm>, power: Power, env: Env, p: Plan)
    requires ReconcileShape(c, o, guard, vms, power, env, p) && (o.deleting || !o.finalizer)
    ensures LeavesAlone(op, o.status, op in guard, p)
  {
  }

  lemma ReconcileTrue(c: Config, op: LongOp, w: World, ev: Event)
    requires TaskInv(op, w) && ev.Reconcile? && ReadsFresh(w, ev) && RetriesSettled(c, w, ev, op)
    ensures var p := PlanOf(c, w, ev);
            PlanTrue(c, op, w, p) && NoWrites(p.calls) && (Accepts(p, op) || TaskInv(op, AfterCalls(c, w, p)))
  {
    var p := PlanOf(c, w, ev);
    PlanHasShape(c, ev.read, w.guard, ev.view, ev.viewPower, ev.env);
    ShapeHasNoWriteCalls(c, ev.read, w.guard, ev.view, ev.viewPower, ev.env, p);
    if !w.deleting && w.finalizer && w.status.phase in {Exporting, Importing} {
      TransferTrue(c, op, w, ev.env, p);
    } else {
      if w.deleting || !w.finalizer {
        DeletionAlone(c, op, ev.read, w.guard, ev.view, ev.viewPower, ev.env, p);
      } else if w.status.phase in {Unset, Pending, Transferring, Converting} {
        SteppingAlone(c, op, w, ev.env, p);
      } else {
        LatePhaseTrue(c, op, w, ev);
      }
      LeavingAloneKeeps(c, op, w, p);
    }
  }

  lemma StepTrue(c: Config, op: LongOp, w: World, ev: Event)
    requires TaskInv(op, w) && Enabled(c, w, ev) && ReadsFresh(w, ev)
    requires KeepsRecord(c, w, ev, op) && RetriesSettled(c, w, ev, op)
    ensures TaskInv(op, Step(c, w, ev))
  {
    if ev.Reconcile? {
      var p := PlanOf(c, w, ev);
      ReconcileTrue(c, op, w, ev);
      match ev.ending {
        case Completed => EffectsEnd(c, w, p);
        case Crashed(after) => RulePrefix(c, op, w, Effects(p), after);
        case WriteLost(at) => LostWrite(c, w, p, at);
      }
    }
  }

  /** Every event reads fresh, and no accepted call goes unrecorded except by a crash. */
  predicate RecordedRun(c: Config, w: World, evs: seq<Event>, op: LongOp)
    decreases |evs|
  {
    evs == []
    || (var now, ev := Run(c, w, evs[..|evs| - 1]), evs[|evs| - 1];
        && RecordedRun(c, w, evs[..|evs| - 1], op)
        && Enabled(c, now, ev) && ReadsFresh(now, ev) && KeepsRecord(c, now, ev, op))
  }

  /** And no retry is taken over an operation whose success is not on record. */
  predicate SettledRun(c: Config, w: World, evs: seq<Event>, op: LongOp)
    decreases |evs|
  {
    evs == []
    || (var now, ev := Run(c, w, evs[..|evs| - 1]), evs[|evs| - 1];
        && SettledRun(c, w, evs[..|evs| - 1], op)
        && Enabled(c, now, ev) && ReadsFresh(now, ev) && KeepsRecord(c, now, ev, op) && RetriesSettled(c, now, ev, op))
  }

  lemma {:induction false} SettledIsRecorded(c: Config, w: World, evs: seq<Event>, op: LongOp)
    requires SettledRun(c, w, evs, op)
    ensures RecordedRun(c, w, evs, op)
    decreases |evs|
  {
    if evs != [] {
      SettledIsRecorded(c, w, evs[..|evs| - 1], op);
    }
  }

  lemma {:induction false} TaskInvariant(c: Config, w: World, evs: seq<Event>, op: LongOp)
    requires Initial(w) && SettledRun(c, w, evs, op)
    ensures TaskInv(op, Run(c, w, evs))
    decreases |evs|
  {
    if evs != [] {
      var before := evs[..|evs| - 1];
      TaskInvariant(c, w, before, op);
      StepTrue(c, op, Run(c, w, before), evs[|evs| - 1]);
    }
  }

  /**
    In every such run, with crashes, restarts, retries and deletion at any point, nothing builds
    on an export or import that has not succeeded: no import of an open or failed export, no
    target attached to an open or failed import, no source deleted for one.
   */
  lemma {:induction false} BuildsOnSuccess(c: Config, w: World, evs: seq<Event>, op: LongOp)
    requires Initial(w) && SettledRun(c, w, evs, op)
    ensures UsesFinished(Run(c, w, evs).trace, op)
  {
    TaskInvariant(c, w, evs, op);
  }
}
