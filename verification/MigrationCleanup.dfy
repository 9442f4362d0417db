/** The staged object is not taken away under an import: no transfer follows its removal. */
module MigrationCleanup {
  import opened Common
  import opened MigrationPlan
  import opened MigrationShape
  import opened MigrationWorld

  predicate Removal(e: Effect) {
    e == DeleteStaged || e == DeletePvc
  }

  predicate Transfer(e: Effect) {
    e.ExportDisk? || e.ImportDisk?
  }

  predicate Removed(t: seq<Effect>) {
    exists i :: 0 <= i < |t| && Removal(t[i])
  }

  predicate RemovedLast(t: seq<Effect>) {
    forall i :: 0 <= i < |t| && Transfer(t[i]) ==> !Removed(t[..i])
  }

  /** The migration has its result, or is on its way out. */
  predicate Over(w: World) {
    w.deleting || w.status.phase == Ready
  }

  predicate CleanupInv(c: Config, w: World) {
    (Removed(w.trace) ==> Over(w)) && RemovedLast(w.trace)
  }

  predicate Timely(c: Config, w: World, e: Effect) {
    && (Removal(e) ==> Over(w))
    && (Transfer(e) ==> !Over(w))
    && (e.WriteStatus? && Over(w) ==> w.deleting || e.status.phase == Ready)
  }

  lemma RemovedSnoc(t: seq<Effect>, e: Effect)
    ensures Removed(t + [e]) <==> Removed(t) || Removal(e)
  {
    assert (t + [e])[|t|] == e;
    if Removed(t) {
      var i :| 0 <= i < |t| && Removal(t[i]);
      assert (t + [e])[i] == t[i];
    }
  }

  lemma TimelyKeeps(c: Config, w: World, e: Effect)
    requires CleanupInv(c, w) && Timely(c, w, e)
    ensures CleanupInv(c, Apply(c, w, e))
  {
    RemovedSnoc(w.trace, e);
    var t := w.trace + [e];
    forall i | 0 <= i < |t| && Transfer(t[i])
      ensures !Removed(t[..i])
    {
      assert t[..i] == w.trace[..i];
      assert w.trace[..|w.trace|] == w.trace;
    }
  }

  lemma {:induction false} TimelyPrefix(c: Config, w: World, es: seq<Effect>, k: nat)
    requires CleanupInv(c, w) && Lawful(c, w, es, Timely) && k <= |es|
    ensures CleanupInv(c, ApplyAll(c, w, es[..k]))
  {
    forall u: World, e: Effect | CleanupInv(c, u) && Timely(c, u, e)
      ensures CleanupInv(c, Apply(c, u, e))
    {
      TimelyKeeps(c, u, e);
    }
    LawfulPrefix(c, w, es, k, CleanupInv, Timely);
  }

  // ---------------------------------------------------------------------------------------
  // Plans

  predicate TimelyPlan(over: bool, p: Plan) {
    && (forall e :: e in p.calls ==> !e.WriteStatus? && (Removal(e) ==> over) && (Transfer(e) ==> !over))
    && (over ==> p.named.None? && (p.write.Some? ==> p.write.value.phase == Ready))
    && (p.named.Some? ==> p.named.value.phase != Ready)
  }

  lemma {:induction false} CallsTimely(c: Config, w: World, es: seq<Effect>)
    requires forall e :: e in es ==> !e.WriteStatus? && (Removal(e) ==> Over(w)) && (Transfer(e) ==> !Over(w))
    ensures Lawful(c, w, es, Timely)
    ensures ApplyAll(c, w, es).status == w.status && ApplyAll(c, w, es).deleting == w.deleting
    decreases |es|
  {
    if es != [] {
      assert es[0] in es;
      CallsTimely(c, Apply(c, w, es[0]), es[1..]);
    }
  }

  lemma TimelyPlanLawful(c: Config, w: World, p: Plan)
    requires TimelyPlan(Over(w), p)
    ensures Lawful(c, w, Effects(p), Timely)
  {
    CallsTimely(c, AfterNamed(c, w, p), p.calls);
    PlanLawful(c, w, p, Timely);
  }

  lemma EarlyTimely(c: Config, st: Status, guard: set<LongOp>, vms: map<Key, Vm>, power: Power, env: Env, p: Plan)
    requires PhaseShape(c, st, guard, vms, power, env, p)
    requires st.phase in {Validating, Snapshotting, Exporting, Importing}
    ensures TimelyPlan(false, p)
  {
  }

  lemma OtherTimely(c: Config, st: Status, guard: set<LongOp>, vms: map<Key, Vm>, power: Power, env: Env, p: Plan)
    requires PhaseShape(c, st, guard, vms, power, env, p)
    requires st.phase !in {Validating, Snapshotting, Exporting, Importing}
    ensures TimelyPlan(st.phase == Ready, p)
  {
  }

  lemma ReconcileTimely(c: Config, w: World, ev: Event)
    requires ev.Reconcile? && ReadsFresh(w, ev)
    ensures Lawful(c, w, Effects(PlanOf(c, w, ev)), Timely)
  {
    var p := PlanOf(c, w, ev);
    PlanHasShape(c, ev.read, w.guard, ev.view, ev.viewPower, ev.env);
    if !w.deleting && w.finalizer {
      if w.status.phase in {Validating, Snapshotting, Exporting, Importing} {
        EarlyTimely(c, w.status, w.guard, w.vms, w.power, ev.env, p);
      } else {
        OtherTimely(c, w.status, w.guard, w.vms, w.power, ev.env, p);
      }
    }
    TimelyPlanLawful(c, w, p);
  }

  lemma {:induction false} CleanupInvariant(c: Config, w: World, evs: seq<Event>)
    requires Initial(w) && FreshRun(c, w, evs)
    ensures CleanupInv(c, Run(c, w, evs))
    decreases |evs|
  {
    if evs != [] {
      var before, ev := evs[..|evs| - 1], evs[|evs| - 1];
      CleanupInvariant(c, w, before);
      var now := Run(c, w, before);
      if ev.Reconcile? {
        ReconcileTimely(c, now, ev);
        var k := StepIsPrefix(c, now, ev);
        TimelyPrefix(c, now, Effects(PlanOf(c, now, ev)), k);
      }
    }
  }

  /**
    In every run with fresh reads, however its reconciles end, no ExportDisk or ImportDisk
    follows the removal of the staged object or of its volume.
   */
  lemma {:induction false} NoTransferAfterRemoval(c: Config, w: World, evs: seq<Event>)
    requires Initial(w) && FreshRun(c, w, evs)
    ensures RemovedLast(Run(c, w, evs).trace)
  {
    CleanupInvariant(c, w, evs);
  }
}
