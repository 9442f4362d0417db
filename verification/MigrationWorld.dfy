/**
  Whole runs of a migration.

  A world is the persisted object, the in-memory guard of the manager process, the
  VirtualMachine objects, the power state of the source on its provider, and the trace of
  everything issued so far.  A run is a sequence of events: reconciles that complete, crash
  between any two effects or lose a status write, manager restarts, deletion by the user,
  and the passes of the VirtualMachine controller over the source and the target.
 */
module MigrationWorld {
  import opened Common
  import opened MigrationPlan

  /**
    A pass of the VirtualMachine controller over the source: it reads the desired power
    state, then describes the VM, and issues a power request on a mismatch.
   */
  datatype VmPass = Idle | HasRead(desired: DesiredPower) | Acting(desired: DesiredPower)

  datatype World = World(
    status: Status, finalizer: bool, deleting: bool, gone: bool,
    guard: set<LongOp>,
    vms: map<Key, Vm>,
    power: Power, pass: VmPass,
    hotExports: nat,               // ExportDisk requests issued while the source was not Off
    history: seq<Status>,          // every status ever persisted, oldest first
    trace: seq<Effect>)

  datatype Ending =
    | Completed
    | Crashed(after: nat)   // the process dies after that many effects
    | WriteLost(at: nat)    // the status write at that index fails and the handler returns

  datatype Event =
    | Reconcile(read: Object, view: map<Key, Vm>, viewPower: Power, env: Env, ending: Ending)
    | Restart
    | UserDeletes
    | TargetObserved(id: string, ready: bool)   // the VirtualMachine controller updates the target's status
    | TargetRemoved
    | PassReads | PassDescribes | PassPowers    // a pass over the source

  // ---------------------------------------------------------------------------------------
  // Effects

  function ApplyToVms(c: Config, vms: map<Key, Vm>, e: Effect): map<Key, Vm> {
    match e
    case CreateTarget(disk) => vms[c.TargetKey() := Vm("", false, WantOn, Some(disk), true, false)]
    case MarkTargetCompleted =>
      if c.TargetKey() in vms then vms[c.TargetKey() := vms[c.TargetKey()].(completed := true)] else vms
    case PatchSourceOff =>
      if c.SourceKey() in vms then vms[c.SourceKey() := vms[c.SourceKey()].(desired := WantOff)] else vms
    case DeleteSource => vms - {c.SourceKey()}
    case DeleteTarget => vms - {c.TargetKey()}
    case _ => vms
  }

  function Apply(c: Config, w: World, e: Effect): World {
    w.(status := if e.WriteStatus? then e.status else w.status,
       history := if e.WriteStatus? then w.history + [e.status] else w.history,
       finalizer := if e.AddFinalizer? then true else if e.RemoveFinalizer? then false else w.finalizer,
       gone := w.gone || (e.RemoveFinalizer? && w.deleting),
       guard := if e.ClaimGuard? then w.guard + {e.op} else if e.ReleaseGuard? then w.guard - {e.op} else w.guard,
       vms := ApplyToVms(c, w.vms, e),
       power := if e.PowerOffSource? then PowerOff else w.power,
       hotExports := if e.ExportDisk? && w.power != PowerOff then w.hotExports + 1 else w.hotExports,
       trace := w.trace + [e])
  }

  function ApplyAll(c: Config, w: World, es: seq<Effect>): World
    decreases |es|
  {
    if es == [] then w else ApplyAll(c, Apply(c, w, es[0]), es[1..])
  }

  predicate ValidEnding(ending: Ending, es: seq<Effect>) {
    match ending
    case Completed => true
    case Crashed(after) => after <= |es|
    case WriteLost(at) => at < |es| && es[at].WriteStatus?
  }

  function Perform(c: Config, w: World, es: seq<Effect>, ending: Ending): World
    requires ValidEnding(ending, es)
  {
    match ending
    case Completed => ApplyAll(c, w, es)
    case Crashed(after) => ApplyAll(c, w, es[..after]).(guard := {})
    case WriteLost(at) => ApplyAll(c, w, es[..at])
  }

  // ---------------------------------------------------------------------------------------
  // Events

  function PlanOf(c: Config, w: World, ev: Event): Plan
    requires ev.Reconcile?
  {
    ReconcilePlan(c, ev.read, w.guard, ev.view, ev.viewPower, ev.env)
  }

  /**
    What can happen next.  A reconcile may read any status that was ever persisted and any
    picture of the VirtualMachine objects; the API server rejects creating a name that exists.
   */
  predicate Enabled(c: Config, w: World, ev: Event) {
    match ev
    case Reconcile(read, view, _, env, ending) =>
      && !w.gone
      && read.status in w.history
      && (read.deleting ==> w.deleting)
      && (c.TargetKey() in w.vms ==> env.createFails)
      && ValidEnding(ending, Effects(PlanOf(c, w, ev)))
    case Restart => true
    case UserDeletes => true
    case TargetObserved(_, _) => c.TargetKey() in w.vms
    case TargetRemoved => true
    case PassReads => w.pass.Idle? && c.SourceKey() in w.vms
    case PassDescribes => w.pass.HasRead?
    case PassPowers => w.pass.Acting?
  }

  predicate Agrees(desired: DesiredPower, power: Power) {
    (desired == WantOn && power == PowerOn) || (desired == WantOff && power == PowerOff)
  }

  function Step(c: Config, w: World, ev: Event): World
    requires Enabled(c, w, ev)
  {
    match ev
    case Reconcile(_, _, _, _, ending) => Perform(c, w, Effects(PlanOf(c, w, ev)), ending)
    case Restart => w.(guard := {})
    case UserDeletes => w.(deleting := true)
    case TargetObserved(id, ready) =>
      w.(vms := w.vms[c.TargetKey() := w.vms[c.TargetKey()].(id := id, ready := ready)])
    case TargetRemoved => w.(vms := w.vms - {c.TargetKey()})
    case PassReads => w.(pass := HasRead(w.vms[c.SourceKey()].desired))
    case PassDescribes =>
      w.(pass := if Agrees(w.pass.desired, w.power) then Idle else Acting(w.pass.desired))
    case PassPowers => w.(power := if w.pass.desired == WantOn then PowerOn else PowerOff, pass := Idle)
  }

  /** A world in which nothing has been done for the migration yet. */
  predicate Initial(w: World) {
    && w.status == INITIAL_STATUS && w.history == [INITIAL_STATUS]
    && !w.finalizer && !w.deleting && !w.gone
    && w.guard == {} && w.trace == [] && w.hotExports == 0
    && w.pass.Idle?
  }

  predicate ValidRun(c: Config, w: World, evs: seq<Event>)
    decreases |evs|
  {
    evs == [] || (ValidRun(c, w, evs[..|evs| - 1]) && Enabled(c, Run(c, w, evs[..|evs| - 1]), evs[|evs| - 1]))
  }

  /** The world after a run; events that cannot happen leave it unchanged. */
  function Run(c: Config, w: World, evs: seq<Event>): World
    decreases |evs|
  {
    if evs == [] then w
    else
      var before := Run(c, w, evs[..|evs| - 1]);
      if Enabled(c, before, evs[|evs| - 1]) then Step(c, before, evs[|evs| - 1]) else before
  }

  // ---------------------------------------------------------------------------------------
  // Hypotheses on events

  /** The reconcile reads the current object and the current VirtualMachine objects. */
  predicate ReadsFresh(w: World, ev: Event) {
    ev.Reconcile? ==>
      ev.read == Object(w.status, w.finalizer, w.deleting) && ev.view == w.vms && ev.viewPower == w.power
  }

  /** A run in which every reconcile reads fresh. */
  predicate FreshRun(c: Config, w: World, evs: seq<Event>)
    decreases |evs|
  {
    evs == []
    || (&& FreshRun(c, w, evs[..|evs| - 1])
        && Enabled(c, Run(c, w, evs[..|evs| - 1]), evs[|evs| - 1])
        && ReadsFresh(Run(c, w, evs[..|evs| - 1]), evs[|evs| - 1]))
  }

  lemma {:induction false} FreshIsValid(c: Config, w: World, evs: seq<Event>)
    requires FreshRun(c, w, evs)
    ensures ValidRun(c, w, evs)
    decreases |evs|
  {
    if evs != [] {
      FreshIsValid(c, w, evs[..|evs| - 1]);
    }
  }

  // ---------------------------------------------------------------------------------------
  // Running a plan effect by effect

  /** A rule saying which effects are acceptable in which world. */
  type Rule = (Config, World, Effect) -> bool

  predicate Lawful(c: Config, w: World, es: seq<Effect>, rule: Rule)
    decreases |es|
  {
    es == [] || (rule(c, w, es[0]) && Lawful(c, Apply(c, w, es[0]), es[1..], rule))
  }

  lemma {:induction false} ApplyAllConcat(c: Config, w: World, es: seq<Effect>, fs: seq<Effect>)
    ensures ApplyAll(c, w, es + fs) == ApplyAll(c, ApplyAll(c, w, es), fs)
    decreases |es|
  {
    if es == [] {
      assert es + fs == fs;
    } else {
      assert (es + fs)[1..] == es[1..] + fs;
      ApplyAllConcat(c, Apply(c, w, es[0]), es[1..], fs);
    }
  }

  lemma {:induction false} LawfulConcat(c: Config, w: World, es: seq<Effect>, fs: seq<Effect>, rule: Rule)
    requires Lawful(c, w, es, rule) && Lawful(c, ApplyAll(c, w, es), fs, rule)
    ensures Lawful(c, w, es + fs, rule)
    decreases |es|
  {
    if es == [] {
      assert es + fs == fs;
    } else {
      assert (es + fs)[1..] == es[1..] + fs;
      LawfulConcat(c, Apply(c, w, es[0]), es[1..], fs, rule);
    }
  }

  /** What every lawful effect keeps holds after any prefix of a lawful sequence. */
  lemma {:induction false} LawfulPrefix(
      c: Config, w: World, es: seq<Effect>, k: nat, inv: (Config, World) -> bool, rule: Rule)
    requires forall u: World, e: Effect :: inv(c, u) && rule(c, u, e) ==> inv(c, Apply(c, u, e))
    requires inv(c, w) && Lawful(c, w, es, rule) && k <= |es|
    ensures inv(c, ApplyAll(c, w, es[..k]))
    decreases |es|
  {
    if k > 0 {
      assert es[..k][1..] == es[1..][..k - 1];
      LawfulPrefix(c, Apply(c, w, es[0]), es[1..], k - 1, inv, rule);
    }
  }

  function AfterWrite(c: Config, w: World, st: Option<Status>): World {
    if st.Some? then Apply(c, w, WriteStatus(st.value)) else w
  }

  function AfterNamed(c: Config, w: World, p: Plan): World {
    AfterWrite(c, w, p.named)
  }

  function AfterCalls(c: Config, w: World, p: Plan): World {
    ApplyAll(c, AfterNamed(c, w, p), p.calls)
  }

  function AfterPlan(c: Config, w: World, p: Plan): World {
    AfterWrite(c, AfterCalls(c, w, p), p.write)
  }

  lemma WritingLawful(c: Config, w: World, st: Option<Status>, rule: Rule)
    requires st.Some? ==> rule(c, w, WriteStatus(st.value))
    ensures Lawful(c, w, Writing(st), rule) && ApplyAll(c, w, Writing(st)) == AfterWrite(c, w, st)
  {
    if st.Some? {
      assert Writing(st)[1..] == [];
    }
  }

  /** A plan is lawful when its naming write, its requests and its closing write are. */
  lemma PlanLawful(c: Config, w: World, p: Plan, rule: Rule)
    requires p.named.Some? ==> rule(c, w, WriteStatus(p.named.value))
    requires Lawful(c, AfterNamed(c, w, p), p.calls, rule)
    requires p.write.Some? ==> rule(c, AfterCalls(c, w, p), WriteStatus(p.write.value))
    ensures Lawful(c, w, Effects(p), rule)
  {
    WritingLawful(c, w, p.named, rule);
    WritingLawful(c, AfterCalls(c, w, p), p.write, rule);
    ApplyAllConcat(c, w, Writing(p.named), p.calls);
    LawfulConcat(c, w, Writing(p.named), p.calls, rule);
    LawfulConcat(c, w, Writing(p.named) + p.calls, Writing(p.write), rule);
  }

  lemma EffectsEnd(c: Config, w: World, p: Plan)
    ensures ApplyAll(c, w, Effects(p)) == AfterPlan(c, w, p)
  {
    WritingLawful(c, w, p.named, (_, _, _) => true);
    WritingLawful(c, AfterCalls(c, w, p), p.write, (_, _, _) => true);
    ApplyAllConcat(c, w, Writing(p.named), p.calls);
    ApplyAllConcat(c, w, Writing(p.named) + p.calls, Writing(p.write));
  }

  /** The trace is the list of everything performed. */
  lemma {:induction false} TraceGrows(c: Config, w: World, es: seq<Effect>)
    ensures ApplyAll(c, w, es).trace == w.trace + es
    decreases |es|
  {
    if es != [] {
      TraceGrows(c, Apply(c, w, es[0]), es[1..]);
      assert w.trace + es == (w.trace + [es[0]]) + es[1..];
    }
  }

  /** Requests alone never touch the persisted status. */
  lemma {:induction false} CallsKeepStatus(c: Config, w: World, es: seq<Effect>)
    requires forall e :: e in es ==> !e.WriteStatus?
    ensures ApplyAll(c, w, es).status == w.status && ApplyAll(c, w, es).history == w.history
    decreases |es|
  {
    if es != [] {
      CallsKeepStatus(c, Apply(c, w, es[0]), es[1..]);
    }
  }

  lemma ApplyTwo(c: Config, w: World, a: Effect, b: Effect, rule: Rule)
    ensures ApplyAll(c, w, [a, b]) == Apply(c, Apply(c, w, a), b)
    ensures rule(c, w, a) && rule(c, Apply(c, w, a), b) ==> Lawful(c, w, [a, b], rule)
  {
    assert [a, b][1..] == [b];
    ApplyOne(c, Apply(c, w, a), b, rule);
  }

  lemma ApplyOne(c: Config, w: World, a: Effect, rule: Rule)
    ensures ApplyAll(c, w, [a]) == Apply(c, w, a)
    ensures rule(c, w, a) ==> Lawful(c, w, [a], rule)
  {
    assert [a][1..] == [];
  }

  lemma ApplyThree(c: Config, w: World, a: Effect, b: Effect, d: Effect, rule: Rule)
    ensures ApplyAll(c, w, [a, b, d]) == Apply(c, Apply(c, Apply(c, w, a), b), d)
    ensures rule(c, w, a) && rule(c, Apply(c, w, a), b) && rule(c, Apply(c, Apply(c, w, a), b), d)
            ==> Lawful(c, w, [a, b, d], rule)
  {
    assert [a, b, d][1..] == [b, d];
    ApplyTwo(c, Apply(c, w, a), b, d, rule);
  }

  /** Losing a write leaves the world either untouched or just short of the closing write. */
  lemma LostWrite(c: Config, w: World, p: Plan, at: nat)
    requires NoWrites(p.calls) && at < |Effects(p)| && Effects(p)[at].WriteStatus?
    ensures ApplyAll(c, w, Effects(p)[..at]) in {w, AfterCalls(c, w, p)}
  {
    var head := Writing(p.named) + p.calls;
    if at < |Writing(p.named)| {
      assert Effects(p)[..at] == [];
    } else {
      assert at == |head|;
      assert Effects(p)[..at] == head;
      ApplyAllConcat(c, w, Writing(p.named), p.calls);
      WritingLawful(c, w, p.named, (_, _, _) => true);
    }
  }

  lemma {:induction false} CallsLawful(c: Config, w: World, es: seq<Effect>, rule: Rule)
    requires NoWrites(es)
    requires forall u: World, e: Effect :: !e.WriteStatus? ==> rule(c, u, e)
    ensures Lawful(c, w, es, rule) && ApplyAll(c, w, es).status == w.status
    decreases |es|
  {
    if es != [] {
      CallsLawful(c, Apply(c, w, es[0]), es[1..], rule);
    }
  }

  /** For a rule about writes only, a plan is lawful when its two writes are. */
  lemma WritesLawful(c: Config, w: World, p: Plan, rule: Rule)
    requires NoWrites(p.calls)
    requires forall u: World, e: Effect :: !e.WriteStatus? ==> rule(c, u, e)
    requires p.named.Some? ==> rule(c, w, WriteStatus(p.named.value))
    requires p.write.Some? ==>
               forall u: World :: u.status == BaseOf(w.status, p) ==> rule(c, u, WriteStatus(p.write.value))
    ensures Lawful(c, w, Effects(p), rule)
  {
    CallsLawful(c, AfterNamed(c, w, p), p.calls, rule);
    PlanLawful(c, w, p, rule);
  }

  /** However a reconcile ends, it has performed a prefix of its effects. */
  lemma StepIsPrefix(c: Config, w: World, ev: Event) returns (k: nat)
    requires ev.Reconcile? && Enabled(c, w, ev)
    ensures k <= |Effects(PlanOf(c, w, ev))|
    ensures Step(c, w, ev)
            == ApplyAll(c, w, Effects(PlanOf(c, w, ev))[..k]).(guard := Step(c, w, ev).guard)
  {
    var es := Effects(PlanOf(c, w, ev));
    match ev.ending {
      case Completed => k := |es|; assert es[..k] == es;
      case Crashed(after) => k := after;
      case WriteLost(at) => k := at;
    }
  }

  /** Appending an event that can happen extends a valid run by one step. */
  lemma {:induction false} RunSnoc(c: Config, w: World, evs: seq<Event>, ev: Event)
    requires ValidRun(c, w, evs) && Enabled(c, Run(c, w, evs), ev)
    ensures ValidRun(c, w, evs + [ev]) && Run(c, w, evs + [ev]) == Step(c, Run(c, w, evs), ev)
  {
    assert (evs + [ev])[..|evs|] == evs;
  }

  /** Appending an event that reads fresh extends a fresh run by one step. */
  lemma {:induction false} FreshSnoc(c: Config, w: World, evs: seq<Event>, ev: Event)
    requires FreshRun(c, w, evs) && Enabled(c, Run(c, w, evs), ev) && ReadsFresh(Run(c, w, evs), ev)
    ensures FreshRun(c, w, evs + [ev]) && Run(c, w, evs + [ev]) == Step(c, Run(c, w, evs), ev)
  {
    assert (evs + [ev])[..|evs|] == evs;
  }

  /** The last step of a fresh run. */
  lemma {:induction false} FreshLast(c: Config, w: World, evs: seq<Event>) returns (init: seq<Event>, last: Event)
    requires FreshRun(c, w, evs) && evs != []
    ensures evs == init + [last] && FreshRun(c, w, init)
    ensures Enabled(c, Run(c, w, init), last) && ReadsFresh(Run(c, w, init), last)
    ensures Run(c, w, evs) == Step(c, Run(c, w, init), last)
  {
    init, last := evs[..|evs| - 1], evs[|evs| - 1];
  }

  /** Fresh runs compose. */
  lemma {:induction false} FreshConcat(c: Config, w: World, evs: seq<Event>, more: seq<Event>)
    requires FreshRun(c, w, evs) && FreshRun(c, Run(c, w, evs), more)
    ensures FreshRun(c, w, evs + more) && Run(c, w, evs + more) == Run(c, Run(c, w, evs), more)
    decreases |more|
  {
    if more == [] {
      assert evs + more == evs;
    } else {
      var init, last := FreshLast(c, Run(c, w, evs), more);
      FreshConcat(c, w, evs, init);
      FreshSnoc(c, w, evs + init, last);
      assert evs + more == evs + init + [last];
    }
  }

  /** The answers of a reconcile in which every lookup and every check goes well. */
  function Smooth(now: int, exported: ExportResult, imported: ImportResult): Env {
    Env(now := now,
        sourceGetFails := false, sourceProviderFails := false, targetProviderFails := false,
        sourceInstanceFails := false, targetInstanceFails := false,
        sourceReady := true, targetReady := true,
        backendRejected := false, storageInvalid := false, credentialsFail := false, optionsFail := false,
        crossNamespace := false, pvcFails := false, mount := Mounted,
        patchFails := false, describeFails := false, powerFails := false, pollWriteFails := false,
        snapshot := SnapshotFailed, task := TaskSucceeded,
        exportBlocked := false, exported := exported,
        importBlocked := false, imported := imported,
        targetGetFails := false, createFails := false, markFails := false,
        cleanupFails := false, pvcDeleteFails := false, snapshotDeleteFails := false,
        sourceDeleteFails := false, targetDeleteFails := false, finalizerFails := false)
  }

  /** A completed reconcile that reads the current world. */
  function FreshReconcile(w: World, env: Env): Event {
    Reconcile(Object(w.status, w.finalizer, w.deleting), w.vms, w.power, env, Completed)
  }

  /** A fresh completed reconcile is enabled and performs its whole plan. */
  lemma FreshStep(c: Config, w: World, env: Env)
    requires !w.gone && w.status in w.history && (c.TargetKey() in w.vms ==> env.createFails)
    ensures Enabled(c, w, FreshReconcile(w, env)) && ReadsFresh(w, FreshReconcile(w, env))
    ensures Step(c, w, FreshReconcile(w, env)) == AfterPlan(c, w, PlanOf(c, w, FreshReconcile(w, env)))
  {
    EffectsEnd(c, w, PlanOf(c, w, FreshReconcile(w, env)));
  }
}
