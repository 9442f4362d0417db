/**
  The clone controller and the VirtualMachine controller over a versioned store.

  The store keeps every version of the clone and of its target; an update is accepted only if it
  names the current version.  Reads come from caches: they may return any version, or miss an
  object that exists.  Any number of reconciles of either controller interleave call by call.
 */
module CloneRuns {
  import opened Common
  import opened CloneController
  import V = VirtualMachine

  datatype World = World(
    clones: seq<CloneStatus>, vms: seq<VmObject>, threads: map<nat, Pc>, vmThreads: map<nat, VmCopy>,
    cloneCalls: nat, createCalls: nat)
  {
    function At(t: nat): Pc {
      if t in threads then threads[t] else Idle
    }

    function Clone(): CloneStatus
      requires clones != []
    {
      clones[|clones| - 1]
    }

    /** The id of the VM this clone produced, once recorded. */
    function Target(): string
      requires clones != []
    {
      Clone().targetVMID
    }

    function Vm(): VmObject
      requires vms != []
    {
      vms[|vms| - 1]
    }
  }

  datatype Event =
    | CloneCall(t: nat, call: Call)
    | VmRead(t: nat, copy: VmCopy)
    | VmReconcile(t: nat, class_: V.VmClass, env: V.VmEnv, fails: bool)
    | VmEdit(spec: V.VmSpec) // anyone's edit of the target's spec; neither label nor status

  /** The answers the store can give. */
  predicate Answerable(w: World, call: Call) {
    match call
    case GetClone(copy) => copy.version < |w.clones| && w.clones[copy.version] == copy.status
    case Touch(version, _, ok) => ok ==> version == |w.clones| - 1
    case PutClone(version, _, ok) => ok ==> version == |w.clones| - 1
    case GetVm(Found(vm)) => vm.version < |w.vms| && w.vms[vm.version] == vm.obj
    case CreateVm(created) => (created.Created? ==> w.vms == []) && (created.AlreadyExists? ==> w.vms != [])
    case PutVm(version, _, put) => put.Stored? ==> version == |w.vms| - 1
    case _ => true
  }

  predicate Enabled(w: World, e: Event) {
    match e
    case CloneCall(t, call) => After(w.At(t), call).Some? && Answerable(w, call)
    case VmRead(t, copy) => copy.version < |w.vms| && w.vms[copy.version] == copy.obj
    case VmReconcile(t, _, _, _) => t in w.vmThreads
    case VmEdit(spec) => w.vms != [] && spec.adopted == w.Vm().spec.adopted
  }

  /** What a call changes in the store and at the provider. */
  function Affected(w: World, requested: map<string, string>, call: Call): World {
    match call
    case Touch(_, status, ok) => if ok then w.(clones := w.clones + [status]) else w
    case PutClone(_, status, ok) => if ok then w.(clones := w.clones + [status]) else w
    case CreateVm(Created) => w.(vms := w.vms + [VmObject(TargetSpec(requested), NO_STATUS)])
    case PutVm(_, obj, Stored) => w.(vms := w.vms + [obj])
    case CloneVm(_) => w.(cloneCalls := w.cloneCalls + 1)
    case _ => w
  }

  function Creates(rpcs: seq<V.Rpc>): nat {
    if rpcs == [] then 0 else Creates(rpcs[1..]) + if rpcs[0].Create? then 1 else 0
  }

  function Next(w: World, requested: map<string, string>, e: Event): World
    requires Enabled(w, e)
  {
    match e
    case CloneCall(t, call) =>
      Affected(w, requested, call).(threads := w.threads[t := After(w.At(t), call).value])
    case VmRead(t, copy) => w.(vmThreads := w.vmThreads[t := copy])
    case VmReconcile(t, class_, env, fails) =>
      var copy := w.vmThreads[t];
      var plan := V.ReconcilePlan(copy.obj.spec, class_, copy.obj.status, env);
      var lands := plan.write.Some? && !fails && copy.version == |w.vms| - 1;
      w.(vms := if lands then w.vms + [copy.obj.(status := plan.write.value)] else w.vms,
         vmThreads := w.vmThreads - {t},
         createCalls := w.createCalls + Creates(plan.rpcs))
    case VmEdit(spec) => w.(vms := w.vms + [w.Vm().(spec := spec)])
  }

  predicate Runs(w: World, requested: map<string, string>, es: seq<Event>)
    decreases |es|
  {
    es == [] || (Enabled(w, es[0]) && Runs(Next(w, requested, es[0]), requested, es[1..]))
  }

  function Ended(w: World, requested: map<string, string>, es: seq<Event>): World
    requires Runs(w, requested, es)
    decreases |es|
  {
    if es == [] then w else Ended(Next(w, requested, es[0]), requested, es[1..])
  }

  const FRESH := World([CloneStatus(NoPhase, "", "")], [], map[], map[], 0, 0)

  /** The provider never denies a VM whose id is recorded. */
  predicate NeverDenied(es: seq<Event>) {
    forall i :: 0 <= i < |es| && es[i].VmReconcile? ==> es[i].env.described != V.Absent
  }

  // ---------------------------------------------------------------------------------------
  // The invariant

  predicate CopyValid(w: World, c: Copy) {
    c.version < |w.clones| && w.clones[c.version] == c.status
  }

  predicate VmCopyValid(w: World, vm: VmCopy) {
    vm.version < |w.vms| && w.vms[vm.version] == vm.obj
  }

  /** What holds of a reconcile of the clone wherever it stands. */
  predicate PcValid(w: World, pc: Pc) {
    && (!pc.Idle? ==> CopyValid(w, pc.c))
    && (!Resting(pc) ==> !pc.c.status.Terminal())
    && (pc.Starting? || pc.Checking? ==> pc.c.status.targetVMID == "")
    && (pc.Saving? ==> !pc.next.Terminal() && (pc.c.status.targetVMID in {"", pc.next.targetVMID}))
    && (pc.Binding? || pc.Creating? || pc.Seeding? || pc.Writing? || pc.Finishing? ==> pc.c.status.targetVMID != "")
    && (pc.Writing? ==> VmCopyValid(w, pc.vm))
    && (pc.Finishing? ==> w.vms != [] && w.Vm().status.id == pc.c.status.targetVMID)
  }

  ghost predicate ClonesValid(w: World) {
    && w.clones != []
    && (forall i :: 0 <= i < |w.clones| ==> w.clones[i].targetVMID in {"", w.Target()})
    && (forall i :: 0 <= i < |w.clones| && w.clones[i].phase.Ready? ==>
          w.vms != [] && w.Target() != "" && w.Vm().status.id == w.Target())
    && (forall i :: 0 <= i < |w.clones| && w.clones[i].Terminal() ==> w.clones[i] == w.Clone())
  }

  /** Every version of the target is adopted and carries no id or the clone's; an id stays. */
  ghost predicate VmsValid(w: World)
    requires w.clones != []
  {
    && (forall i :: 0 <= i < |w.vms| ==> w.vms[i].spec.adopted && w.vms[i].status.id in {"", w.Target()})
    && (forall i :: 0 <= i < |w.vms| && w.vms[i].status.id != "" ==> w.Vm().status.id == w.vms[i].status.id)
  }

  ghost predicate Sound(w: World) {
    && ClonesValid(w)
    && VmsValid(w)
    && (forall t :: PcValid(w, w.At(t)))
    && (forall t :: t in w.vmThreads ==> VmCopyValid(w, w.vmThreads[t]))
    && w.createCalls == 0
  }

  // ---------------------------------------------------------------------------------------
  // What a step keeps

  /** The store has only grown, and the target's id, once there, has stayed. */
  predicate Grown(w: World, n: World) {
    && w.clones <= n.clones && w.vms <= n.vms
    && (w.vms != [] && w.Vm().status.id != "" ==> n.Vm().status.id == w.Vm().status.id)
  }

  lemma PcPersists(w: World, n: World, pc: Pc)
    requires Grown(w, n) && PcValid(w, pc)
    ensures PcValid(n, pc)
  {
  }

  /** A step is sound once the store is, and the reconcile that moved stands validly. */
  lemma ThreadsPersist(w: World, n: World, t: nat)
    requires Sound(w) && Grown(w, n) && ClonesValid(n) && VmsValid(n) && n.createCalls == 0
    requires forall u :: u != t ==> n.At(u) == w.At(u)
    requires PcValid(n, n.At(t))
    requires forall u :: u in n.vmThreads ==> u in w.vmThreads && n.vmThreads[u] == w.vmThreads[u]
    ensures Sound(n)
  {
    forall u
      ensures PcValid(n, n.At(u))
    {
      if u != t {
        PcPersists(w, n, w.At(u));
      }
    }
  }

  lemma CloneGrows(w: World, n: World, status: CloneStatus)
    requires ClonesValid(w) && VmsValid(w)
    requires n.clones == w.clones + [status] && n.vms == w.vms
    requires w.Target() in {"", status.targetVMID}
    requires w.Clone().Terminal() ==> status == w.Clone()
    requires status.phase.Ready? ==> w.vms != [] && status.targetVMID != "" && w.Vm().status.id == status.targetVMID
    ensures ClonesValid(n) && VmsValid(n) && Grown(w, n)
  {
    assert n.Clone() == status;
    forall i | 0 <= i < |n.clones|
      ensures n.clones[i].targetVMID in {"", status.targetVMID}
    {
      assert i < |w.clones| ==> n.clones[i] == w.clones[i];
    }
  }

  lemma VmGrows(w: World, n: World, obj: VmObject)
    requires ClonesValid(w) && VmsValid(w)
    requires n.clones == w.clones && n.vms == w.vms + [obj]
    requires obj.spec.adopted && obj.status.id in {"", w.Target()}
    requires w.vms != [] && w.Vm().status.id != "" ==> obj.status.id == w.Vm().status.id
    ensures ClonesValid(n) && VmsValid(n) && Grown(w, n)
  {
    assert n.Vm() == obj;
    assert forall i :: 0 <= i < |w.vms| ==> n.vms[i] == w.vms[i];
  }

  /** Where a reconcile stands after its call is valid in the store the call left behind. */
  lemma CallLeadsToValid(w: World, requested: map<string, string>, pc: Pc, call: Call)
    requires ClonesValid(w) && VmsValid(w) && PcValid(w, pc) && After(pc, call).Some? && Answerable(w, call)
    ensures PcValid(Affected(w, requested, call), After(pc, call).value)
  {
    var n := Affected(w, requested, call);
    if pc.Writing? && call.PutVm? && call.put.Stored? {
      assert n.Vm() == call.obj;
    }
  }

  lemma CallKeepsStore(w: World, requested: map<string, string>, pc: Pc, call: Call)
    requires ClonesValid(w) && VmsValid(w) && PcValid(w, pc) && After(pc, call).Some? && Answerable(w, call)
    ensures var n := Affected(w, requested, call); ClonesValid(n) && VmsValid(n) && Grown(w, n)
  {
    var n := Affected(w, requested, call);
    if (call.PutClone? || call.Touch?) && call.ok {
      assert w.clones[pc.c.version] == w.Clone();
      CloneGrows(w, n, call.status);
    } else if call.CreateVm? && call.created.Created? {
      AlwaysAdopted(requested);
      VmGrows(w, n, VmObject(TargetSpec(requested), NO_STATUS));
    } else if call.PutVm? && call.put.Stored? {
      assert w.vms[pc.vm.version] == w.Vm();
      assert w.clones[pc.c.version].targetVMID == w.Target();
      VmGrows(w, n, call.obj);
    }
  }

  /** No label the user asks for can undo the adoption. */
  lemma AlwaysAdopted(requested: map<string, string>)
    ensures TargetSpec(requested).adopted
    ensures forall k :: k in requested && k != ADOPTED_LABEL ==>
              k in TargetLabels(requested) && TargetLabels(requested)[k] == requested[k]
  {
  }

  lemma {:induction false} NoCreates(rpcs: seq<V.Rpc>)
    requires forall rpc :: rpc in rpcs ==> !rpc.Create?
    ensures Creates(rpcs) == 0
  {
    if rpcs != [] {
      assert rpcs[0] in rpcs;
      NoCreates(rpcs[1..]);
    }
  }

  lemma VmReconcileKeeps(w: World, requested: map<string, string>, e: Event)
    requires Sound(w) && Enabled(w, e) && e.VmReconcile? && e.env.described != V.Absent
    ensures var n := Next(w, requested, e);
            ClonesValid(n) && VmsValid(n) && Grown(w, n) && n.createCalls == 0 && n.threads == w.threads
  {
    var copy := w.vmThreads[e.t];
    assert VmCopyValid(w, copy) && w.vms[copy.version].spec.adopted;
    V.IdKeptUnlessAbsent(copy.obj.spec, e.class_, copy.obj.status, e.env);
    var plan := V.ReconcilePlan(copy.obj.spec, e.class_, copy.obj.status, e.env);
    NoCreates(plan.rpcs);
    var n := Next(w, requested, e);
    if n.vms != w.vms {
      VmGrows(w, n, copy.obj.(status := plan.write.value));
    }
  }

  /** Validity is a matter of the store alone. */
  lemma SameStore(w: World, a: World, n: World, pc: Pc)
    requires a.clones == n.clones && a.vms == n.vms
    requires ClonesValid(a) && VmsValid(a) && Grown(w, a) && PcValid(a, pc)
    ensures ClonesValid(n) && VmsValid(n) && Grown(w, n) && PcValid(n, pc)
  {
  }

  lemma CloneCallKeepsSound(w: World, requested: map<string, string>, t: nat, call: Call)
    requires Sound(w) && Enabled(w, CloneCall(t, call))
    ensures Sound(Next(w, requested, CloneCall(t, call))) && Grown(w, Next(w, requested, CloneCall(t, call)))
  {
    var n := Next(w, requested, CloneCall(t, call));
    assert PcValid(w, w.At(t));
    CallKeepsStore(w, requested, w.At(t), call);
    CallLeadsToValid(w, requested, w.At(t), call);
    SameStore(w, Affected(w, requested, call), n, n.At(t));
    ThreadsPersist(w, n, t);
  }

  lemma VmReadKeepsSound(w: World, requested: map<string, string>, t: nat, copy: VmCopy)
    requires Sound(w) && Enabled(w, VmRead(t, copy))
    ensures Sound(Next(w, requested, VmRead(t, copy))) && Grown(w, Next(w, requested, VmRead(t, copy)))
  {
    var n := Next(w, requested, VmRead(t, copy));
    forall u
      ensures PcValid(n, n.At(u))
    {
      PcPersists(w, n, w.At(u));
    }
  }

  lemma VmReconcileKeepsSound(w: World, requested: map<string, string>, e: Event)
    requires Sound(w) && Enabled(w, e) && e.VmReconcile? && e.env.described != V.Absent
    ensures Sound(Next(w, requested, e)) && Grown(w, Next(w, requested, e))
  {
    var n := Next(w, requested, e);
    VmReconcileKeeps(w, requested, e);
    PcPersists(w, n, w.At(0));
    ThreadsPersist(w, n, 0);
  }

  lemma VmEditKeepsSound(w: World, requested: map<string, string>, spec: V.VmSpec)
    requires Sound(w) && Enabled(w, VmEdit(spec))
    ensures Sound(Next(w, requested, VmEdit(spec))) && Grown(w, Next(w, requested, VmEdit(spec)))
  {
    var n := Next(w, requested, VmEdit(spec));
    VmGrows(w, n, w.Vm().(spec := spec));
    PcPersists(w, n, w.At(0));
    ThreadsPersist(w, n, 0);
  }

  lemma StepKeepsSound(w: World, requested: map<string, string>, e: Event)
    requires Sound(w) && Enabled(w, e)
    requires e.VmReconcile? ==> e.env.described != V.Absent
    ensures Sound(Next(w, requested, e)) && Grown(w, Next(w, requested, e))
  {
    match e
    case CloneCall(t, call) => CloneCallKeepsSound(w, requested, t, call);
    case VmRead(t, copy) => VmReadKeepsSound(w, requested, t, copy);
    case VmReconcile(_, _, _, _) => VmReconcileKeepsSound(w, requested, e);
    case VmEdit(spec) => VmEditKeepsSound(w, requested, spec);
  }

  lemma GrownTransitive(u: World, v: World, w: World)
    requires Grown(u, v) && Grown(v, w)
    ensures Grown(u, w)
  {
    assert u.vms != [] ==> v.vms != [];
  }

  lemma {:induction false} RunKeepsSound(w: World, requested: map<string, string>, es: seq<Event>)
    requires Sound(w) && Runs(w, requested, es) && NeverDenied(es)
    ensures Sound(Ended(w, requested, es)) && Grown(w, Ended(w, requested, es))
    decreases |es|
  {
    if es != [] {
      assert NeverDenied(es[1..]);
      var n := Next(w, requested, es[0]);
      StepKeepsSound(w, requested, es[0]);
      RunKeepsSound(n, requested, es[1..]);
      GrownTransitive(w, n, Ended(w, requested, es));
    }
  }

  // ---------------------------------------------------------------------------------------
  // Main results

  /**
    No double create: in every interleaving the provider is never asked to create the target;
    the target's id is empty or the id the clone recorded, and the clone is Ready only when the
    target carries it.
   */
  lemma {:induction false} NoDoubleCreate(requested: map<string, string>, es: seq<Event>)
    requires Runs(FRESH, requested, es) && NeverDenied(es)
    ensures var w := Ended(FRESH, requested, es);
            && w.createCalls == 0
            && w.clones != []
            && (forall i :: 0 <= i < |w.vms| ==> w.vms[i].status.id in {"", w.Target()})
            && (w.Clone().phase.Ready? ==> w.vms != [] && w.Target() != "" && w.Vm().status.id == w.Target())
  {
    FreshIsSound();
    RunKeepsSound(FRESH, requested, es);
    var w := Ended(FRESH, requested, es);
    assert w.clones[|w.clones| - 1] == w.Clone();
  }

  lemma FreshIsSound()
    ensures Sound(FRESH)
  {
    assert FRESH.clones[0] == FRESH.Clone();
  }

  /**
    Nothing is taken back: between any two points of a run the recorded target id, the id in the
    target's status, and a Ready or Failed verdict of the clone stay as they are.
   */
  lemma {:induction false} NothingTakenBack(requested: map<string, string>, es: seq<Event>, fs: seq<Event>)
    requires Runs(FRESH, requested, es) && Runs(Ended(FRESH, requested, es), requested, fs)
    requires NeverDenied(es) && NeverDenied(fs)
    ensures var w := Ended(FRESH, requested, es);
            var n := Ended(w, requested, fs);
            && w.clones != [] && n.clones != []
            && (w.Target() != "" ==> n.Target() == w.Target())
            && (w.vms != [] && w.Vm().status.id != "" ==> n.vms != [] && n.Vm().status.id == w.Vm().status.id)
            && (w.Clone().Terminal() ==> n.Clone() == w.Clone())
  {
    FreshIsSound();
    RunKeepsSound(FRESH, requested, es);
    var w := Ended(FRESH, requested, es);
    RunKeepsSound(w, requested, fs);
    var n := Ended(w, requested, fs);
    assert n.clones[|w.clones| - 1] == w.Clone();
  }
}
