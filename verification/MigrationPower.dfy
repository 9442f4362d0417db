/**
  Power-off composition of two controllers.  The migration controller aligns the source's
  desired power state and powers it off; the VirtualMachine controller keeps reading the
  desired state, describing the VM and issuing power requests.  With powerOffBeforeMigration
  set, the source must be Off at every ExportDisk.
 */
module MigrationPower {
  import opened Common
  import opened MigrationPlan
  import opened MigrationShape
  import opened MigrationWorld

  /** No pass of the VirtualMachine controller still intends to power the source on. */
  predicate PassSettled(w: World) {
    w.pass.Idle? || w.pass.desired != WantOn
  }

  predicate SourceOff(c: Config, w: World) {
    && w.power == PowerOff
    && (c.SourceKey() in w.vms ==> w.vms[c.SourceKey()].desired == WantOff)
  }

  predicate Capturing(p: Phase) {
    p == Snapshotting || p == Exporting
  }

  predicate PowerInv(c: Config, w: World) {
    && w.hotExports == 0
    && (Capturing(w.status.phase) ==> SourceOff(c, w) && PassSettled(w))
  }

  /** Effects that keep the source off while its disk is being captured. */
  predicate Cold(c: Config, w: World, e: Effect) {
    && (e.ExportDisk? ==> Capturing(w.status.phase))
    && (e.WriteStatus? && Capturing(e.status.phase) ==> SourceOff(c, w) && PassSettled(w))
    && (e.CreateTarget? ==> !Capturing(w.status.phase))
  }

  lemma ColdKeeps(c: Config, w: World, e: Effect)
    requires PowerInv(c, w) && Cold(c, w, e)
    ensures PowerInv(c, Apply(c, w, e))
  {
  }

  lemma {:induction false} ColdPrefix(c: Config, w: World, es: seq<Effect>, k: nat)
    requires PowerInv(c, w) && Lawful(c, w, es, Cold) && k <= |es|
    ensures PowerInv(c, ApplyAll(c, w, es[..k]))
  {
    forall u: World, e: Effect | PowerInv(c, u) && Cold(c, u, e)
      ensures PowerInv(c, Apply(c, u, e))
    {
      ColdKeeps(c, u, e);
    }
    LawfulPrefix(c, w, es, k, PowerInv, Cold);
  }

  // ---------------------------------------------------------------------------------------
  // Plans

  /** The plan takes the migration out of Validating towards the capture of the disk. */
  predicate Leaves(st: Status, p: Plan) {
    st.phase == Validating && p.write.Some? && Capturing(p.write.value.phase)
  }

  lemma {:induction false} CallsCold(c: Config, w: World, es: seq<Effect>)
    requires NoWrites(es)
    requires forall e :: e in es ==>
               (e.ExportDisk? ==> Capturing(w.status.phase)) && (e.CreateTarget? ==> !Capturing(w.status.phase))
    ensures Lawful(c, w, es, Cold) && ApplyAll(c, w, es).status == w.status && ApplyAll(c, w, es).pass == w.pass
    decreases |es|
  {
    if es != [] {
      assert es[0] in es;
      CallsCold(c, Apply(c, w, es[0]), es[1..]);
    }
  }

  lemma {:induction false} OnlyPatches(c: Config, w: World, calls: seq<Effect>)
    requires forall e :: e in calls ==> e == PatchSourceOff
    requires w.power == PowerOff && c.SourceKey() in w.vms && (w.vms[c.SourceKey()].desired == WantOff || calls != [])
    ensures SourceOff(c, ApplyAll(c, w, calls))
    decreases |calls|
  {
    if calls != [] {
      assert calls[0] in calls && forall e :: e in calls[1..] ==> e in calls;
      OnlyPatches(c, Apply(c, w, calls[0]), calls[1..]);
    }
  }

  lemma LeavingHoldsOff(c: Config, w: World, p: Plan)
    requires c.powerOffBefore && ValidatingShape(c, w.status, w.vms, w.power, p) && Leaves(w.status, p)
    ensures SourceOff(c, AfterCalls(c, w, p))
  {
    assert SourceHeldOff(c, w.vms, w.power, p.calls);
    OnlyPatches(c, AfterNamed(c, w, p), p.calls);
  }

  lemma ValidatingCold(c: Config, w: World, p: Plan)
    requires c.powerOffBefore && w.status.phase == Validating
    requires ValidatingShape(c, w.status, w.vms, w.power, p)
    requires Leaves(w.status, p) ==> PassSettled(w)
    ensures Lawful(c, w, Effects(p), Cold)
  {
    assert forall e :: e in p.calls ==> e == PatchSourceOff || e == PowerOffSource;
    CallsCold(c, AfterNamed(c, w, p), p.calls);
    if Leaves(w.status, p) {
      LeavingHoldsOff(c, w, p);
    }
    PlanLawful(c, w, p, Cold);
  }

  lemma CapturingCold(c: Config, w: World, p: Plan)
    requires PowerInv(c, w)
    requires (w.status.phase == Snapshotting && SnapshottingShape(c, w.status, p))
             || (w.status.phase == Exporting && ExportingShape(c, w.status, w.guard, p))
    ensures Lawful(c, w, Effects(p), Cold)
  {
    CallsCold(c, w, p.calls);
    CaptureCallsKeepOff(c, w, p.calls);
    PlanLawful(c, w, p, Cold);
  }

  lemma {:induction false} CaptureCallsKeepOff(c: Config, w: World, es: seq<Effect>)
    requires PowerInv(c, w) && Capturing(w.status.phase)
    requires forall e :: e in es ==>
               e.SnapshotCreate? || e.ExportDisk? || e.PollTask? || e.ClaimGuard? || e.ReleaseGuard?
    ensures SourceOff(c, ApplyAll(c, w, es)) && PassSettled(ApplyAll(c, w, es))
    decreases |es|
  {
    if es != [] {
      assert es[0] in es;
      CaptureCallsKeepOff(c, Apply(c, w, es[0]), es[1..]);
    }
  }

  predicate Harmless(st: Status, p: Plan) {
    && p.named.None? && NoWrites(p.calls)
    && (p.write.Some? ==> !Capturing(p.write.value.phase))
    && forall e :: e in p.calls ==> !e.ExportDisk? && (e.CreateTarget? ==> !Capturing(st.phase))
  }

  lemma HarmlessCold(c: Config, w: World, p: Plan)
    requires Harmless(w.status, p)
    ensures Lawful(c, w, Effects(p), Cold)
  {
    CallsCold(c, w, p.calls);
    PlanLawful(c, w, p, Cold);
  }

  lemma OthersHarmless(c: Config, st: Status, guard: set<LongOp>, vms: map<Key, Vm>, power: Power, env: Env, p: Plan)
    requires PhaseShape(c, st, guard, vms, power, env, p)
    requires st.phase !in {Validating, Snapshotting, Exporting}
    ensures Harmless(st, p)
  {
  }

  lemma DeletionHarmless(c: Config, o: Object, guard: set<LongOp>, vms: map<Key, Vm>, power: Power, env: Env, p: Plan)
    requires ReconcileShape(c, o, guard, vms, power, env, p) && (o.deleting || !o.finalizer)
    ensures Harmless(o.status, p)
  {
  }

  // ---------------------------------------------------------------------------------------
  // Runs

  /** When a reconcile leaves Validating no pass over the source still intends to power it on. */
  predicate LeavesSettled(c: Config, w: World, ev: Event) {
    ev.Reconcile? && Leaves(w.status, PlanOf(c, w, ev)) ==> PassSettled(w)
  }

  lemma PlanCold(c: Config, w: World, ev: Event)
    requires c.powerOffBefore && PowerInv(c, w) && ev.Reconcile? && ReadsFresh(w, ev) && LeavesSettled(c, w, ev)
    ensures Lawful(c, w, Effects(PlanOf(c, w, ev)), Cold)
  {
    var p := PlanOf(c, w, ev);
    PlanHasShape(c, ev.read, w.guard, ev.view, ev.viewPower, ev.env);
    if w.deleting || !w.finalizer {
      DeletionHarmless(c, ev.read, w.guard, ev.view, ev.viewPower, ev.env, p);
      HarmlessCold(c, w, p);
    } else if w.status.phase == Validating {
      ValidatingCold(c, w, p);
    } else if Capturing(w.status.phase) {
      CapturingCold(c, w, p);
    } else {
      OthersHarmless(c, w.status, w.guard, ev.view, ev.viewPower, ev.env, p);
      HarmlessCold(c, w, p);
    }
  }

  lemma StepCold(c: Config, w: World, ev: Event)
    requires c.powerOffBefore && PowerInv(c, w) && Enabled(c, w, ev) && ReadsFresh(w, ev) && LeavesSettled(c, w, ev)
    ensures PowerInv(c, Step(c, w, ev))
  {
    if ev.Reconcile? {
      PlanCold(c, w, ev);
      var k := StepIsPrefix(c, w, ev);
      ColdPrefix(c, w, Effects(PlanOf(c, w, ev)), k);
    }
  }

  predicate SettledRun(c: Config, w: World, evs: seq<Event>)
    decreases |evs|
  {
    evs == []
    || (var now, ev := Run(c, w, evs[..|evs| - 1]), evs[|evs| - 1];
        && SettledRun(c, w, evs[..|evs| - 1])
        && Enabled(c, now, ev) && ReadsFresh(now, ev) && LeavesSettled(c, now, ev))
  }

  lemma {:induction false} PowerInvariant(c: Config, w: World, evs: seq<Event>)
    requires c.powerOffBefore && Initial(w) && SettledRun(c, w, evs)
    ensures PowerInv(c, Run(c, w, evs))
    decreases |evs|
  {
    if evs != [] {
      var before := evs[..|evs| - 1];
      PowerInvariant(c, w, before);
      StepCold(c, Run(c, w, before), evs[|evs| - 1]);
    }
  }

  /**
    Power-off composition.  In every interleaving of the two controllers in which no pass that
    read the old desired state is still outstanding when the migration leaves Validating, every
    ExportDisk is issued with the source Off.
   */
  lemma {:induction false} ExportsAreCold(c: Config, w: World, evs: seq<Event>)
    requires c.powerOffBefore && Initial(w) && SettledRun(c, w, evs)
    ensures Run(c, w, evs).hotExports == 0
  {
    PowerInvariant(c, w, evs);
  }

  /** Both controllers' reconciles are atomic: none starts while a pass over the source is under way. */
  predicate AtomicRun(c: Config, w: World, evs: seq<Event>)
    decreases |evs|
  {
    evs == []
    || (var now, ev := Run(c, w, evs[..|evs| - 1]), evs[|evs| - 1];
        && AtomicRun(c, w, evs[..|evs| - 1])
        && Enabled(c, now, ev) && ReadsFresh(now, ev) && (ev.Reconcile? ==> now.pass.Idle?))
  }

  lemma {:induction false} AtomicIsSettled(c: Config, w: World, evs: seq<Event>)
    requires AtomicRun(c, w, evs)
    ensures SettledRun(c, w, evs)
    decreases |evs|
  {
    if evs != [] {
      AtomicIsSettled(c, w, evs[..|evs| - 1]);
    }
  }

  /** With atomic reconciles no further condition is needed. */
  lemma {:induction false} AtomicExportsAreCold(c: Config, w: World, evs: seq<Event>)
    requires c.powerOffBefore && Initial(w) && AtomicRun(c, w, evs)
    ensures Run(c, w, evs).hotExports == 0
  {
    AtomicIsSettled(c, w, evs);
    PowerInvariant(c, w, evs);
  }

  // ---------------------------------------------------------------------------------------
  // The condition is needed

  predicate AboutToExport(c: Config, w: World, env: Env) {
    && w.status.phase == Exporting && w.finalizer && !w.deleting && !w.gone && w.status in w.history
    && (c.TargetKey() in w.vms ==> env.createFails)
    && var p := ExportingPlan(c, w.status, w.guard, w.vms, env);
    |p.calls| >= 2 && p.calls[1].ExportDisk?
  }

  lemma HeatOfCalls(c: Config, w: World, calls: seq<Effect>)
    requires |calls| in {2, 3} && calls[0].ClaimGuard? && calls[1].ExportDisk?
    requires |calls| == 3 ==> calls[2].ReleaseGuard?
    ensures ApplyAll(c, w, calls).hotExports == w.hotExports + if w.power != PowerOff then 1 else 0
  {
    if |calls| == 2 {
      assert calls == [calls[0], calls[1]];
      ApplyTwo(c, w, calls[0], calls[1], Cold);
    } else {
      assert calls == [calls[0], calls[1], calls[2]];
      ApplyThree(c, w, calls[0], calls[1], calls[2], Cold);
    }
  }

  lemma ExportHeat(c: Config, w: World, env: Env)
    requires AboutToExport(c, w, env)
    ensures Enabled(c, w, FreshReconcile(w, env))
    ensures Step(c, w, FreshReconcile(w, env)).hotExports == w.hotExports + if w.power != PowerOff then 1 else 0
  {
    ExportingHasShape(c, w.status, w.guard, w.vms, env);
    HeatOfCalls(c, w, PlanOf(c, w, FreshReconcile(w, env)).calls);
    FreshStep(c, w, env);
  }

  // ---------------------------------------------------------------------------------------
  // The condition is exact

  /** The source is off, should be off, and nobody is about to power it on. */
  predicate Chilled(c: Config, w: World) {
    SourceOff(c, w) && PassSettled(w)
  }

  lemma ChilledEffect(c: Config, w: World, e: Effect)
    requires Chilled(c, w) && c.TargetKey() != c.SourceKey()
    ensures Chilled(c, Apply(c, w, e)) && Apply(c, w, e).hotExports == w.hotExports
  {
  }

  lemma {:induction false} ChilledEffects(c: Config, w: World, es: seq<Effect>)
    requires Chilled(c, w) && c.TargetKey() != c.SourceKey()
    ensures Chilled(c, ApplyAll(c, w, es)) && ApplyAll(c, w, es).hotExports == w.hotExports
    decreases |es|
  {
    if es != [] {
      ChilledEffect(c, w, es[0]);
      ChilledEffects(c, Apply(c, w, es[0]), es[1..]);
    }
  }

  lemma ChilledStep(c: Config, w: World, ev: Event)
    requires Chilled(c, w) && c.TargetKey() != c.SourceKey() && Enabled(c, w, ev)
    ensures Chilled(c, Step(c, w, ev)) && Step(c, w, ev).hotExports == w.hotExports
  {
    if ev.Reconcile? {
      var k := StepIsPrefix(c, w, ev);
      ChilledEffects(c, w, Effects(PlanOf(c, w, ev))[..k]);
    }
  }

  /** From there no run, whatever it reads and however its reconciles end, exports a running VM. */
  lemma {:induction false} ChilledForever(c: Config, w: World, evs: seq<Event>)
    requires Chilled(c, w) && c.TargetKey() != c.SourceKey() && ValidRun(c, w, evs)
    ensures Chilled(c, Run(c, w, evs)) && Run(c, w, evs).hotExports == w.hotExports
    decreases |evs|
  {
    if evs != [] {
      ChilledForever(c, w, evs[..|evs| - 1]);
      ChilledStep(c, Run(c, w, evs[..|evs| - 1]), evs[|evs| - 1]);
    }
  }

  /** The disk is about to be captured and its export has not been issued yet. */
  predicate Captures(c: Config, w: World) {
    && Capturing(w.status.phase) && w.finalizer && !w.deleting && !w.gone && w.status in w.history
    && c.SourceKey() in w.vms && c.TargetKey() != c.SourceKey()
    && !ExportAlreadyDone(w.status, w.guard) && StorageUrl(c, w.status.pvcName).Some?
  }

  const FAIR := Smooth(0, Exported("export", "sum", ""), ImportFailed)
                .(createFails := true, snapshot := SnapshotTaken("snapshot", ""))

  /** An outstanding pass that intends On gets to power the source on. */
  lemma PassHeats(c: Config, w: World) returns (evs: seq<Event>)
    requires w.power == PowerOff && !PassSettled(w)
    ensures FreshRun(c, w, evs) && Run(c, w, evs) == w.(power := PowerOn, pass := Idle)
  {
    evs := [];
    if w.pass.HasRead? {
      FreshSnoc(c, w, evs, PassDescribes);
      evs := evs + [PassDescribes];
    }
    FreshSnoc(c, w, evs, PassPowers);
    evs := evs + [PassPowers];
  }

  lemma SnapshotPlan(c: Config, w: World)
    requires Captures(c, w) && w.status.phase == Snapshotting
    ensures var p := PlanOf(c, w, FreshReconcile(w, FAIR));
            && p.named.None? && (p.calls == [] || p.calls == [SnapshotCreate(FAIR.snapshot)])
            && p.write.Some? && p.write.value.phase == Exporting && p.write.value.pvcName == w.status.pvcName
            && !ExportAlreadyDone(p.write.value, w.guard)
  {
  }

  /** A snapshot, if one is due, changes neither the power state nor what remains to be exported. */
  lemma SnapshotPasses(c: Config, w: World)
    requires Captures(c, w) && w.status.phase == Snapshotting
    ensures Enabled(c, w, FreshReconcile(w, FAIR))
    ensures var n := Step(c, w, FreshReconcile(w, FAIR));
            Captures(c, n) && n.status.phase == Exporting && n.power == w.power && n.hotExports == w.hotExports
  {
    var p := PlanOf(c, w, FreshReconcile(w, FAIR));
    SnapshotPlan(c, w);
    FreshStep(c, w, FAIR);
    ApplyOne(c, w, SnapshotCreate(FAIR.snapshot), Cold);
  }

  lemma ExportPasses(c: Config, w: World)
    requires Captures(c, w) && w.status.phase == Exporting
    ensures AboutToExport(c, w, FAIR)
  {
  }

  lemma HotRun(c: Config, w: World) returns (evs: seq<Event>)
    requires Captures(c, w) && SourceOff(c, w) && !PassSettled(w)
    ensures FreshRun(c, w, evs) && Run(c, w, evs).hotExports > w.hotExports
  {
    evs := PassHeats(c, w);
    var hot := Run(c, w, evs);
    if w.status.phase == Snapshotting {
      SnapshotPasses(c, hot);
      FreshSnoc(c, w, evs, FreshReconcile(hot, FAIR));
      evs := evs + [FreshReconcile(hot, FAIR)];
      hot := Run(c, w, evs);
    }
    ExportPasses(c, hot);
    ExportHeat(c, hot, FAIR);
    FreshSnoc(c, w, evs, FreshReconcile(hot, FAIR));
    evs := evs + [FreshReconcile(hot, FAIR)];
  }

  ghost predicate HotExportAhead(c: Config, w: World) {
    exists evs :: FreshRun(c, w, evs) && Run(c, w, evs).hotExports > w.hotExports
  }

  /** With the source off and its capture ahead, a pass that intends On is all a hot export takes. */
  lemma HotExportAheadIff(c: Config, w: World)
    requires Captures(c, w) && SourceOff(c, w)
    ensures HotExportAhead(c, w) <==> !PassSettled(w)
  {
    if PassSettled(w) {
      forall evs | FreshRun(c, w, evs)
        ensures Run(c, w, evs).hotExports == w.hotExports
      {
        FreshIsValid(c, w, evs);
        ChilledForever(c, w, evs);
      }
    } else {
      var evs := HotRun(c, w);
    }
  }

  /**
    The condition is exact.  When a reconcile takes a migration that is still to export out of
    Validating, with or without a snapshot ahead, some continuation with fresh reads exports a
    running VM if and only if a pass that intends On, having read or already acting, is then
    outstanding.
   */
  lemma OutstandingPassDecides(c: Config, w: World, env: Env)
    requires c.powerOffBefore && w.status.phase == Validating && w.finalizer && !w.deleting
    requires Enabled(c, w, FreshReconcile(w, env)) && Leaves(w.status, PlanOf(c, w, FreshReconcile(w, env)))
    requires Captures(c, Step(c, w, FreshReconcile(w, env)))
    ensures HotExportAhead(c, Step(c, w, FreshReconcile(w, env))) <==> !PassSettled(w)
  {
    var p := PlanOf(c, w, FreshReconcile(w, env));
    ValidatingHasShape(c, w.status, w.vms, w.power, env);
    LeavingHoldsOff(c, w, p);
    FreshStep(c, w, env);
    CallsCold(c, AfterNamed(c, w, p), p.calls);
    HotExportAheadIff(c, Step(c, w, FreshReconcile(w, env)));
  }
}
