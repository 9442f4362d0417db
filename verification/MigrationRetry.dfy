/**
  What a retry does to an operation that was issued.  A retry forgets the task it polled, so from
  a Failed state on nothing is learnt any more about the last export or import: until it is issued
  again it stays open or succeeded, as it was.
 */
module MigrationRetry {
  import opened Common
  import opened MigrationPlan
  import opened MigrationShape
  import opened MigrationTasks
  import opened MigrationWorld

  // ---------------------------------------------------------------------------------------
  // Nothing is learnt

  /** The phases that lead to the operation's poll with the task reference as it stands. */
  predicate Ahead(p: Phase, op: LongOp) {
    match op
    case ExportOp => p in {Unset, Pending, Validating, Snapshotting, Exporting}
    case ImportOp => p in {Transferring, Converting, Importing}
  }

  /** The status will not poll the task that is open. */
  predicate Blind(op: LongOp, s: CallState, st: Status) {
    Ahead(st.phase, op) ==> s != Open(st.taskRef)
  }

  /** The operation is issued between two points of a trace. */
  predicate CalledIn(t: seq<Effect>, m: nat, i: nat, op: LongOp)
    requires i <= |t|
  {
    exists k :: m <= k < i && IsCall(t[k], op)
  }

  /** From m on the operation is in state s, until it is issued again. */
  predicate Frozen(op: LongOp, s: CallState, m: nat, t: seq<Effect>) {
    forall i :: m <= i <= |t| ==> CalledIn(t, m, i, op) || StateOf(t[..i], op) == s
  }

  predicate RetryInv(op: LongOp, s: CallState, m: nat, w: World) {
    && m <= |w.trace| && Frozen(op, s, m, w.trace)
    && (CalledIn(w.trace, m, |w.trace|, op) || Blind(op, s, w.status))
  }

  predicate RetryRule(op: LongOp, s: CallState, m: nat, w: World, e: Effect) {
    || CalledIn(w.trace, m, |w.trace|, op)
    || (&& (e.WriteStatus? ==> Blind(op, s, e.status))
        && (e.PollTask? && e.op == op ==> s != Open(e.task)))
  }

  function RetryRuleOf(op: LongOp, s: CallState, m: nat): Rule {
    (_, w, e) => RetryRule(op, s, m, w, e)
  }

  lemma CalledSnoc(t: seq<Effect>, e: Effect, m: nat, op: LongOp)
    requires m <= |t|
    ensures CalledIn(t + [e], m, |t| + 1, op) <==> CalledIn(t, m, |t|, op) || IsCall(e, op)
    ensures forall i :: m <= i <= |t| ==> (CalledIn(t + [e], m, i, op) <==> CalledIn(t, m, i, op))
  {
    var u := t + [e];
    assert u[|t|] == e && forall k :: 0 <= k < |t| ==> u[k] == t[k];
  }

  lemma FrozenSnoc(op: LongOp, s: CallState, m: nat, t: seq<Effect>, e: Effect)
    requires m <= |t| && Frozen(op, s, m, t)
    requires CalledIn(t, m, |t|, op) || IsCall(e, op) || (e.PollTask? && e.op == op ==> s != Open(e.task))
    ensures Frozen(op, s, m, t + [e])
  {
    var u := t + [e];
    CalledSnoc(t, e, m, op);
    StateSnoc(t, e, op);
    forall i | m <= i <= |u|
      ensures CalledIn(u, m, i, op) || StateOf(u[..i], op) == s
    {
      if i <= |t| {
        assert u[..i] == t[..i];
      } else {
        assert u[..i] == u && t[..|t|] == t;
      }
    }
  }

  lemma RetryRuleKeeps(c: Config, op: LongOp, s: CallState, m: nat, w: World, e: Effect)
    requires RetryInv(op, s, m, w) && RetryRule(op, s, m, w, e)
    ensures RetryInv(op, s, m, Apply(c, w, e))
  {
    CalledSnoc(w.trace, e, m, op);
    FrozenSnoc(op, s, m, w.trace, e);
  }

  lemma {:induction false} RetryPrefix(c: Config, op: LongOp, s: CallState, m: nat, w: World, es: seq<Effect>, k: nat)
    requires RetryInv(op, s, m, w) && Lawful(c, w, es, RetryRuleOf(op, s, m)) && k <= |es|
    ensures RetryInv(op, s, m, ApplyAll(c, w, es[..k]))
  {
    var inv: (Config, World) -> bool := (_, u) => RetryInv(op, s, m, u);
    forall u: World, e: Effect | inv(c, u) && RetryRuleOf(op, s, m)(c, u, e)
      ensures inv(c, Apply(c, u, e))
    {
      RetryRuleKeeps(c, op, s, m, u, e);
    }
    LawfulPrefix(c, w, es, k, inv, RetryRuleOf(op, s, m));
  }

  // ---------------------------------------------------------------------------------------
  // Plans

  /** The plan polls nothing that is open and leaves a blind status, unless it issues the operation. */
  predicate BlindPlan(op: LongOp, s: CallState, p: Plan) {
    && (p.named.Some? ==> Blind(op, s, p.named.value))
    && (forall e :: e in p.calls ==> !e.WriteStatus? && (e.PollTask? && e.op == op ==> s != Open(e.task)))
    && (p.write.Some? ==> (exists e :: e in p.calls && IsCall(e, op)) || Blind(op, s, p.write.value))
  }

  lemma {:induction false} BlindCalls(c: Config, op: LongOp, s: CallState, m: nat, w: World, es: seq<Effect>)
    requires m <= |w.trace|
    requires forall e :: e in es ==> !e.WriteStatus? && (e.PollTask? && e.op == op ==> s != Open(e.task))
    ensures Lawful(c, w, es, RetryRuleOf(op, s, m))
    ensures m <= |ApplyAll(c, w, es).trace|
    ensures CalledIn(w.trace, m, |w.trace|, op) || (exists e :: e in es && IsCall(e, op)) ==>
              CalledIn(ApplyAll(c, w, es).trace, m, |ApplyAll(c, w, es).trace|, op)
    decreases |es|
  {
    if es != [] {
      assert es[0] in es;
      CalledSnoc(w.trace, es[0], m, op);
      BlindCalls(c, op, s, m, Apply(c, w, es[0]), es[1..]);
    }
  }

  lemma BlindPlanLawful(c: Config, op: LongOp, s: CallState, m: nat, w: World, p: Plan)
    requires m <= |w.trace| && BlindPlan(op, s, p)
    ensures Lawful(c, w, Effects(p), RetryRuleOf(op, s, m))
  {
    BlindCalls(c, op, s, m, AfterNamed(c, w, p), p.calls);
    PlanLawful(c, w, p, RetryRuleOf(op, s, m));
  }

  /** A snapshot is not given the task that is open. */
  predicate NoReuse(s: CallState, p: Plan) {
    forall e :: e in p.calls && e.SnapshotCreate? && e.result.SnapshotTaken? ==> s != Open(e.result.task)
  }

  lemma ValidatingBlind(c: Config, op: LongOp, s: CallState, st: Status, vms: map<Key, Vm>, power: Power, p: Plan)
    requires st.phase == Validating && ValidatingShape(c, st, vms, power, p) && Blind(op, s, st)
    ensures BlindPlan(op, s, p)
  {
    var base := BaseOf(st, p);
    assert base.taskRef == st.taskRef && base.phase == st.phase;
    assert ValidatingEnd(c, base, vms, power, p.calls, p.write);
  }

  lemma SnapshottingBlind(c: Config, op: LongOp, s: CallState, st: Status, p: Plan)
    requires st.phase == Snapshotting && SnapshottingShape(c, st, p) && Blind(op, s, st)
    requires s != Open("") && (op == ExportOp ==> NoReuse(s, p))
    ensures BlindPlan(op, s, p)
  {
  }

  lemma TransferBlind(c: Config, op: LongOp, s: CallState, st: Status, guard: set<LongOp>, p: Plan)
    requires Blind(op, s, st) && s != Open("")
    requires if st.phase == Exporting then ExportingShape(c, st, guard, p)
             else st.phase == Importing && ImportingShape(c, st, guard, p)
    ensures BlindPlan(op, s, p)
  {
    if |p.calls| >= 2 {
      assert p.calls[1] in p.calls;
    }
  }

  lemma SteppingBlind(op: LongOp, s: CallState, st: Status, p: Plan, next: Phase)
    requires StepsTo(st, p, next) && Blind(op, s, st) && Ahead(st.phase, op) == Ahead(next, op)
    ensures BlindPlan(op, s, p)
  {
  }

  lemma FailedBlind(c: Config, op: LongOp, s: CallState, st: Status, env: Env, p: Plan)
    requires FailedShape(c, st, env, p) && s != Open("")
    ensures BlindPlan(op, s, p)
  {
  }

  lemma TargetBlind(c: Config, op: LongOp, s: CallState, st: Status, vms: map<Key, Vm>, env: Env, p: Plan)
    requires if st.phase == Creating then CreatingShape(c, st, vms, env, p)
             else st.phase == ValidatingTarget && ValidatingTargetShape(c, st, vms, p)
    ensures BlindPlan(op, s, p)
  {
  }

  lemma ReadyBlind(c: Config, op: LongOp, s: CallState, st: Status, p: Plan)
    requires st.phase == Ready && ReadyShape(c, st, p)
    ensures BlindPlan(op, s, p)
  {
    if p.write.Some? {
      assert p.write.value == st.(cleanedUp := p.write.value.cleanedUp, snapshotID := p.write.value.snapshotID);
    }
  }

  lemma OtherBlind(c: Config, op: LongOp, s: CallState, w: World, env: Env, p: Plan)
    requires Blind(op, s, w.status) && s != Open("")
    requires w.status.phase !in {Validating, Snapshotting, Exporting, Importing}
    requires PhaseShape(c, w.status, w.guard, w.vms, w.power, env, p)
    ensures BlindPlan(op, s, p)
  {
    match w.status.phase {
      case Unset => SteppingBlind(op, s, w.status, p, Pending);
      case Pending => SteppingBlind(op, s, w.status, p, Validating);
      case Transferring => SteppingBlind(op, s, w.status, p, Importing);
      case Converting => SteppingBlind(op, s, w.status, p, Importing);
      case Failed => FailedBlind(c, op, s, w.status, env, p);
      case Ready => ReadyBlind(c, op, s, w.status, p);
      case Creating => TargetBlind(c, op, s, w.status, w.vms, env, p);
      case ValidatingTarget => TargetBlind(c, op, s, w.status, w.vms, env, p);
    }
  }

  lemma ReconcileBlind(c: Config, op: LongOp, s: CallState, w: World, ev: Event)
    requires Blind(op, s, w.status) && s != Open("")
    requires ev.Reconcile? && ReadsFresh(w, ev) && (op == ExportOp ==> NoReuse(s, PlanOf(c, w, ev)))
    ensures BlindPlan(op, s, PlanOf(c, w, ev))
  {
    var st, p := w.status, PlanOf(c, w, ev);
    PlanHasShape(c, ev.read, w.guard, ev.view, ev.viewPower, ev.env);
    if !w.deleting && w.finalizer {
      match st.phase {
        case Validating => ValidatingBlind(c, op, s, st, w.vms, w.power, p);
        case Snapshotting => SnapshottingBlind(c, op, s, st, p);
        case Exporting => TransferBlind(c, op, s, st, w.guard, p);
        case Importing => TransferBlind(c, op, s, st, w.guard, p);
        case _ => OtherBlind(c, op, s, w, ev.env, p);
      }
    }
  }

  // ---------------------------------------------------------------------------------------
  // Runs

  /** Fresh reads, and no snapshot is given the task of the export that is open. */
  predicate UnreusedRun(c: Config, w: World, evs: seq<Event>, op: LongOp, s: CallState)
    decreases |evs|
  {
    evs == []
    || (var now, ev := Run(c, w, evs[..|evs| - 1]), evs[|evs| - 1];
        && UnreusedRun(c, w, evs[..|evs| - 1], op, s)
        && Enabled(c, now, ev) && ReadsFresh(now, ev)
        && (op == ExportOp && ev.Reconcile? ==> NoReuse(s, PlanOf(c, now, ev))))
  }

  lemma StepStaysBlind(c: Config, op: LongOp, s: CallState, m: nat, w: World, ev: Event)
    requires RetryInv(op, s, m, w) && s != Open("") && Enabled(c, w, ev) && ReadsFresh(w, ev)
    requires op == ExportOp && ev.Reconcile? ==> NoReuse(s, PlanOf(c, w, ev))
    ensures RetryInv(op, s, m, Step(c, w, ev))
  {
    if ev.Reconcile? {
      var p := PlanOf(c, w, ev);
      if CalledIn(w.trace, m, |w.trace|, op) {
        CalledLawful(c, op, s, m, w, Effects(p));
      } else {
        ReconcileBlind(c, op, s, w, ev);
        BlindPlanLawful(c, op, s, m, w, p);
      }
      var k := StepIsPrefix(c, w, ev);
      RetryPrefix(c, op, s, m, w, Effects(p), k);
    }
  }

  lemma {:induction false} CalledLawful(c: Config, op: LongOp, s: CallState, m: nat, w: World, es: seq<Effect>)
    requires m <= |w.trace| && CalledIn(w.trace, m, |w.trace|, op)
    ensures Lawful(c, w, es, RetryRuleOf(op, s, m))
    decreases |es|
  {
    if es != [] {
      CalledSnoc(w.trace, es[0], m, op);
      CalledLawful(c, op, s, m, Apply(c, w, es[0]), es[1..]);
    }
  }

  lemma {:induction false} OpenHasTask(t: seq<Effect>, op: LongOp)
    ensures StateOf(t, op) != Open("")
  {
    if t != [] {
      OpenHasTask(t[..|t| - 1], op);
    }
  }

  lemma {:induction false} FrozenRun(c: Config, op: LongOp, n: World, evs: seq<Event>)
    requires n.status.phase == Failed && UnreusedRun(c, n, evs, op, StateOf(n.trace, op))
    ensures RetryInv(op, StateOf(n.trace, op), |n.trace|, Run(c, n, evs))
    decreases |evs|
  {
    var s := StateOf(n.trace, op);
    OpenHasTask(n.trace, op);
    if evs == [] {
      assert n.trace[..|n.trace|] == n.trace;
    } else {
      FrozenRun(c, op, n, evs[..|evs| - 1]);
      StepStaysBlind(c, op, s, |n.trace|, Run(c, n, evs[..|evs| - 1]), evs[|evs| - 1]);
    }
  }

  // ---------------------------------------------------------------------------------------
  // Never issued again

  /** The status knows that the operation was issued. */
  predicate Known(st: Status, op: LongOp) {
    Claimed(st, op) || Confirmed(st, op)
  }

  predicate KnownInv(op: LongOp, m: nat, w: World) {
    m <= |w.trace| && Known(w.status, op) && !CalledIn(w.trace, m, |w.trace|, op)
  }

  predicate KnownRule(op: LongOp, e: Effect) {
    (e.WriteStatus? ==> Known(e.status, op)) && !IsCall(e, op)
  }

  lemma {:induction false} KnownPrefix(c: Config, op: LongOp, m: nat, w: World, es: seq<Effect>)
    requires KnownInv(op, m, w) && forall e :: e in es ==> KnownRule(op, e)
    ensures KnownInv(op, m, ApplyAll(c, w, es))
    decreases |es|
  {
    if es != [] {
      assert es[0] in es;
      CalledSnoc(w.trace, es[0], m, op);
      KnownPrefix(c, op, m, Apply(c, w, es[0]), es[1..]);
    }
  }

  predicate KnowingPlan(op: LongOp, p: Plan) {
    && (p.named.Some? ==> Known(p.named.value, op))
    && (forall e :: e in p.calls ==> !e.WriteStatus? && !IsCall(e, op))
    && (p.write.Some? ==> Known(p.write.value, op))
  }

  lemma KnowingEffects(op: LongOp, p: Plan)
    requires KnowingPlan(op, p)
    ensures forall e :: e in Effects(p) ==> KnownRule(op, e)
  {
  }

  lemma AloneIsKnowing(op: LongOp, st: Status, held: bool, p: Plan)
    requires Known(st, op) && LeavesAlone(op, st, held, p)
    ensures KnowingPlan(op, p)
  {
  }

  /** Taken as done, so not issued again; the other operation leaves it alone. */
  lemma ExportingKnows(c: Config, op: LongOp, st: Status, guard: set<LongOp>, p: Plan)
    requires Known(st, op) && st.phase == Exporting && ExportingShape(c, st, guard, p)
    ensures KnowingPlan(op, p)
  {
  }

  lemma ImportingKnows(c: Config, op: LongOp, st: Status, guard: set<LongOp>, p: Plan)
    requires Known(st, op) && st.phase == Importing && ImportingShape(c, st, guard, p)
    ensures KnowingPlan(op, p)
  {
  }

  lemma RetryKnows(c: Config, op: LongOp, st: Status, env: Env, p: Plan)
    requires Known(st, op) && FailedShape(c, st, env, p)
    ensures KnowingPlan(op, p)
  {
  }

  lemma OtherKnows(c: Config, op: LongOp, w: World, env: Env, p: Plan)
    requires Known(w.status, op) && w.status.phase !in {Exporting, Importing, Failed}
    requires PhaseShape(c, w.status, w.guard, w.vms, w.power, env, p)
    ensures KnowingPlan(op, p)
  {
    var st, held := w.status, op in w.guard;
    match st.phase {
      case Validating => ValidatingAlone(c, op, st, held, w.vms, w.power, p);
      case Snapshotting => SnapshottingAlone(c, op, st, held, p);
      case Creating => CreatingAlone(c, op, st, held, w.vms, env, p);
      case ValidatingTarget => ValidatingTargetAlone(c, op, st, held, w.vms, p);
      case Ready => ReadyAlone(c, op, st, held, p);
      case _ => SteppingAlone(c, op, w, env, p);
    }
    AloneIsKnowing(op, st, held, p);
  }

  lemma ReconcileKnows(c: Config, op: LongOp, w: World, ev: Event)
    requires Known(w.status, op) && ev.Reconcile? && ReadsFresh(w, ev)
    ensures KnowingPlan(op, PlanOf(c, w, ev))
  {
    var p := PlanOf(c, w, ev);
    PlanHasShape(c, ev.read, w.guard, ev.view, ev.viewPower, ev.env);
    if w.deleting || !w.finalizer {
      DeletionAlone(c, op, ev.read, w.guard, ev.view, ev.viewPower, ev.env, p);
      AloneIsKnowing(op, w.status, op in w.guard, p);
    } else if w.status.phase == Exporting {
      ExportingKnows(c, op, w.status, w.guard, p);
    } else if w.status.phase == Importing {
      ImportingKnows(c, op, w.status, w.guard, p);
    } else if w.status.phase == Failed {
      RetryKnows(c, op, w.status, ev.env, p);
    } else {
      OtherKnows(c, op, w, ev.env, p);
    }
  }

  lemma StepKnows(c: Config, op: LongOp, m: nat, w: World, ev: Event)
    requires KnownInv(op, m, w) && Enabled(c, w, ev) && ReadsFresh(w, ev)
    ensures KnownInv(op, m, Step(c, w, ev))
  {
    if ev.Reconcile? {
      ReconcileKnows(c, op, w, ev);
      KnowingEffects(op, PlanOf(c, w, ev));
      var k := StepIsPrefix(c, w, ev);
      KnownPrefix(c, op, m, w, Effects(PlanOf(c, w, ev))[..k]);
    }
  }

  /** With fresh reads an operation the status knows of is never issued again, whatever became of it. */
  lemma {:induction false} NeverReissued(c: Config, op: LongOp, n: World, evs: seq<Event>)
    requires Known(n.status, op) && FreshRun(c, n, evs)
    ensures KnownInv(op, |n.trace|, Run(c, n, evs))
    decreases |evs|
  {
    if evs != [] {
      NeverReissued(c, op, n, evs[..|evs| - 1]);
      StepKnows(c, op, |n.trace|, Run(c, n, evs[..|evs| - 1]), evs[|evs| - 1]);
    }
  }

  lemma {:induction false} UnreusedIsFresh(c: Config, w: World, evs: seq<Event>, op: LongOp, s: CallState)
    requires UnreusedRun(c, w, evs, op, s)
    ensures FreshRun(c, w, evs)
    decreases |evs|
  {
    if evs != [] {
      UnreusedIsFresh(c, w, evs[..|evs| - 1], op, s);
    }
  }

  // ---------------------------------------------------------------------------------------
  // Main results

  /**
    From every Failed state, in every continuation with fresh reads, with retries, crashes,
    restarts and lost writes at any point: until the operation is issued again it is, at every
    moment, as finished or unfinished as it was when the migration failed.
   */
  lemma {:induction false} NothingLearntAfterFailure(c: Config, op: LongOp, n: World, evs: seq<Event>, i: nat)
    requires n.status.phase == Failed && UnreusedRun(c, n, evs, op, StateOf(n.trace, op))
    requires |n.trace| <= i <= |Run(c, n, evs).trace| && !CalledIn(Run(c, n, evs).trace, |n.trace|, i, op)
    ensures Finished(Run(c, n, evs).trace[..i], op) <==> Finished(n.trace, op)
  {
    FrozenRun(c, op, n, evs);
  }

  /**
    What follows a failure builds on success exactly if the operation had succeeded before: in
    every such continuation of a Failed state whose status knows of the operation, it is never
    issued again, and every effect that builds on it does so with the operation finished if and
    only if it was finished when the migration failed.
   */
  lemma {:induction false} RetryDecides(c: Config, op: LongOp, n: World, evs: seq<Event>, i: nat)
    requires n.status.phase == Failed && Known(n.status, op)
    requires UnreusedRun(c, n, evs, op, StateOf(n.trace, op))
    requires |n.trace| <= i < |Run(c, n, evs).trace|
    ensures !IsCall(Run(c, n, evs).trace[i], op)
    ensures Uses(Run(c, n, evs).trace[i], op) ==>
              (Finished(Run(c, n, evs).trace[..i], op) <==> Finished(n.trace, op))
  {
    UnreusedIsFresh(c, n, evs, op, StateOf(n.trace, op));
    NeverReissued(c, op, n, evs);
    var t := Run(c, n, evs).trace;
    assert !CalledIn(t, |n.trace|, i, op);
    NothingLearntAfterFailure(c, op, n, evs, i);
  }
}
