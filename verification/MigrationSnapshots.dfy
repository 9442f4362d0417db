/**
  Snapshot ownership: whatever stale object a reconcile reads and however it ends, the
  migration only ever deletes snapshots that its own SnapshotCreate returned.
 */
module MigrationSnapshots {
  import opened Common
  import opened MigrationPlan
  import opened MigrationShape
  import opened MigrationWorld

  /** Some SnapshotCreate of the trace returned this identifier. */
  predicate Created(t: seq<Effect>, id: string) {
    exists i :: 0 <= i < |t| && t[i].SnapshotCreate? && t[i].result.SnapshotTaken? && t[i].result.id == id
  }

  /** The delete names an own snapshot, no user snapshot is configured and cleanup is permitted. */
  predicate MayDelete(c: Config, before: seq<Effect>, id: string) {
    id != "" && Created(before, id) && c.snapshotRef.None? && CleanupAllowed(c)
  }

  predicate DeletesOwn(c: Config, t: seq<Effect>) {
    forall i :: 0 <= i < |t| && t[i].SnapshotDelete? ==> MayDelete(c, t[..i], t[i].snapshotID)
  }

  predicate KnownId(c: Config, t: seq<Effect>, id: string) {
    id == "" || c.snapshotRef == Some(id) || Created(t, id)
  }

  predicate SnapshotInv(c: Config, w: World) {
    && (forall s :: s in w.history ==> KnownId(c, w.trace, s.snapshotID))
    && DeletesOwn(c, w.trace)
  }

  predicate Accountable(c: Config, w: World, e: Effect) {
    && (e.WriteStatus? ==> KnownId(c, w.trace, e.status.snapshotID))
    && (e.SnapshotDelete? ==> MayDelete(c, w.trace, e.snapshotID))
  }

  lemma CreatedSnoc(t: seq<Effect>, e: Effect, id: string)
    requires Created(t, id)
    ensures Created(t + [e], id)
  {
    var i :| 0 <= i < |t| && t[i].SnapshotCreate? && t[i].result.SnapshotTaken? && t[i].result.id == id;
    assert (t + [e])[i] == t[i];
  }

  lemma DeletesOwnSnoc(c: Config, t: seq<Effect>, e: Effect)
    requires DeletesOwn(c, t) && (e.SnapshotDelete? ==> MayDelete(c, t, e.snapshotID))
    ensures DeletesOwn(c, t + [e])
  {
    forall i | 0 <= i < |t + [e]| && (t + [e])[i].SnapshotDelete?
      ensures MayDelete(c, (t + [e])[..i], (t + [e])[i].snapshotID)
    {
      assert (t + [e])[..i] == t[..i];
      assert t[..|t|] == t;
    }
  }

  lemma AccountableKeeps(c: Config, w: World, e: Effect)
    requires SnapshotInv(c, w) && Accountable(c, w, e)
    ensures SnapshotInv(c, Apply(c, w, e))
  {
    var after := Apply(c, w, e);
    DeletesOwnSnoc(c, w.trace, e);
    forall s | s in after.history
      ensures KnownId(c, after.trace, s.snapshotID)
    {
      assert KnownId(c, w.trace, s.snapshotID);
      if Created(w.trace, s.snapshotID) {
        CreatedSnoc(w.trace, e, s.snapshotID);
      }
    }
  }

  lemma {:induction false} AccountablePrefix(c: Config, w: World, es: seq<Effect>, k: nat)
    requires SnapshotInv(c, w) && Lawful(c, w, es, Accountable) && k <= |es|
    ensures SnapshotInv(c, ApplyAll(c, w, es[..k]))
  {
    forall u: World, e: Effect | SnapshotInv(c, u) && Accountable(c, u, e)
      ensures SnapshotInv(c, Apply(c, u, e))
    {
      AccountableKeeps(c, u, e);
    }
    LawfulPrefix(c, w, es, k, SnapshotInv, Accountable);
  }

  // ---------------------------------------------------------------------------------------
  // Plans

  /** What every handler does about snapshots, given the status it read. */
  predicate SnapshotShape(c: Config, st: Status, p: Plan) {
    && NoWrites(p.calls)
    && (p.named.Some? ==> p.named.value.snapshotID == st.snapshotID)
    && (forall e :: e in p.calls && e.SnapshotDelete? ==> OwnsSnapshot(c, st) && e.snapshotID == st.snapshotID)
    && (p.write.Some? ==>
          || p.write.value.snapshotID == ""
          || p.write.value.snapshotID == st.snapshotID
          || c.snapshotRef == Some(p.write.value.snapshotID)
          || Created(p.calls, p.write.value.snapshotID))
  }

  lemma SnapshottingFootprint(c: Config, st: Status, p: Plan)
    requires SnapshottingShape(c, st, p)
    ensures SnapshotShape(c, st, p)
  {
  }

  lemma EarlyFootprint(c: Config, st: Status, guard: set<LongOp>, vms: map<Key, Vm>, power: Power, env: Env, p: Plan)
    requires PhaseShape(c, st, guard, vms, power, env, p)
    requires st.phase in {Unset, Pending, Validating, Transferring, Converting}
    ensures SnapshotShape(c, st, p)
  {
  }

  lemma LateFootprint(c: Config, st: Status, guard: set<LongOp>, vms: map<Key, Vm>, power: Power, env: Env, p: Plan)
    requires PhaseShape(c, st, guard, vms, power, env, p)
    requires st.phase in {Exporting, Importing, Creating, ValidatingTarget, Ready, Failed}
    ensures SnapshotShape(c, st, p)
  {
  }

  lemma Footprint(c: Config, o: Object, guard: set<LongOp>, vms: map<Key, Vm>, power: Power, env: Env, p: Plan)
    requires ReconcileShape(c, o, guard, vms, power, env, p)
    ensures SnapshotShape(c, o.status, p)
  {
    if !o.deleting && o.finalizer {
      if o.status.phase == Snapshotting {
        SnapshottingFootprint(c, o.status, p);
      } else if o.status.phase in {Unset, Pending, Validating, Transferring, Converting} {
        EarlyFootprint(c, o.status, guard, vms, power, env, p);
      } else {
        LateFootprint(c, o.status, guard, vms, power, env, p);
      }
    }
  }

  /** Requests issued for a status whose identifier is known are accountable. */
  lemma {:induction false} CallsAccountable(c: Config, w: World, st: Status, es: seq<Effect>)
    requires KnownId(c, w.trace, st.snapshotID) && NoWrites(es)
    requires forall e :: e in es && e.SnapshotDelete? ==> OwnsSnapshot(c, st) && e.snapshotID == st.snapshotID
    ensures Lawful(c, w, es, Accountable)
    decreases |es|
  {
    if es != [] {
      assert es[0] in es;
      if Created(w.trace, st.snapshotID) {
        CreatedSnoc(w.trace, es[0], st.snapshotID);
      }
      CallsAccountable(c, Apply(c, w, es[0]), st, es[1..]);
    }
  }

  lemma {:induction false} CreatedConcat(t: seq<Effect>, es: seq<Effect>, id: string)
    requires Created(t, id) || Created(es, id)
    ensures Created(t + es, id)
  {
    if Created(t, id) {
      var i :| 0 <= i < |t| && t[i].SnapshotCreate? && t[i].result.SnapshotTaken? && t[i].result.id == id;
      assert (t + es)[i] == t[i];
    } else {
      var i :| 0 <= i < |es| && es[i].SnapshotCreate? && es[i].result.SnapshotTaken? && es[i].result.id == id;
      assert (t + es)[|t| + i] == es[i];
    }
  }

  lemma PlanAccountable(c: Config, w: World, st: Status, p: Plan)
    requires SnapshotInv(c, w) && st in w.history && SnapshotShape(c, st, p)
    ensures Lawful(c, w, Effects(p), Accountable)
  {
    var named := AfterNamed(c, w, p);
    assert KnownId(c, w.trace, st.snapshotID);
    if p.named.Some? && Created(w.trace, st.snapshotID) {
      CreatedSnoc(w.trace, WriteStatus(p.named.value), st.snapshotID);
    }
    CallsAccountable(c, named, st, p.calls);
    TraceGrows(c, named, p.calls);
    if p.write.Some? {
      var id := p.write.value.snapshotID;
      if Created(named.trace, id) || Created(p.calls, id) {
        CreatedConcat(named.trace, p.calls, id);
      }
    }
    PlanLawful(c, w, p, Accountable);
  }

  // ---------------------------------------------------------------------------------------
  // Runs

  lemma StepAccountable(c: Config, w: World, ev: Event)
    requires SnapshotInv(c, w) && Enabled(c, w, ev)
    ensures SnapshotInv(c, Step(c, w, ev))
  {
    if ev.Reconcile? {
      var p := PlanOf(c, w, ev);
      PlanHasShape(c, ev.read, w.guard, ev.view, ev.viewPower, ev.env);
      Footprint(c, ev.read, w.guard, ev.view, ev.viewPower, ev.env, p);
      PlanAccountable(c, w, ev.read.status, p);
      var k := StepIsPrefix(c, w, ev);
      AccountablePrefix(c, w, Effects(p), k);
    }
  }

  lemma {:induction false} SnapshotInvariant(c: Config, w: World, evs: seq<Event>)
    requires Initial(w) && ValidRun(c, w, evs)
    ensures SnapshotInv(c, Run(c, w, evs))
    decreases |evs|
  {
    if evs != [] {
      SnapshotInvariant(c, w, evs[..|evs| - 1]);
      StepAccountable(c, Run(c, w, evs[..|evs| - 1]), evs[|evs| - 1]);
    }
  }

  /**
    Snapshot ownership.  In every run, with arbitrarily stale reads, crashes, lost writes and
    deletion, each SnapshotDelete names an identifier an earlier SnapshotCreate of this
    migration returned; with a user snapshot or CleanupPolicy=Never none is issued at all.
   */
  lemma {:induction false} SnapshotOwnership(c: Config, w: World, evs: seq<Event>)
    requires Initial(w) && ValidRun(c, w, evs)
    ensures DeletesOwn(c, Run(c, w, evs).trace)
    ensures c.snapshotRef.Some? || c.cleanupNever ==>
              forall i :: 0 <= i < |Run(c, w, evs).trace| ==> !Run(c, w, evs).trace[i].SnapshotDelete?
  {
    SnapshotInvariant(c, w, evs);
  }
}
