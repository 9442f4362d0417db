/** Repeated reconciles of one VirtualMachine against a correct, synchronous provider. */
module VmConvergence {
  import opened Common
  import opened VirtualMachine
  import I = ImagePrepare

  /** The persisted status and the machines the provider has, by id. */
  datatype System = System(status: VmStatus, machines: map<string, Power>)

  /** What a create is given: a new id and the power state the machine comes up in. */
  datatype Birth = Birth(id: string, power: Power, image: I.RequestImage)

  /** The answers of a synchronous provider that does what it is asked. */
  function Answers(s: System, b: Birth): VmEnv {
    VmEnv(false, false, I.Proceed, b.image, I.TaskDone, I.TaskDone,
          if s.status.id in s.machines then Present(s.machines[s.status.id]) else Absent,
          false, Created(b.id, ""), Done(""), Done(""))
  }

  function Powered(op: PowerOp): Power {
    if op.PowerOn? then On else Off
  }

  function Performed(rpc: Rpc, machines: map<string, Power>, b: Birth): map<string, Power> {
    match rpc
    case Create(_) => machines[b.id := b.power]
    case SetPower(id, op) => machines[id := Powered(op)]
    case _ => machines
  }

  function AllPerformed(rpcs: seq<Rpc>, machines: map<string, Power>, b: Birth): map<string, Power> {
    if rpcs == [] then machines else AllPerformed(rpcs[1..], Performed(rpcs[0], machines, b), b)
  }

  function PlanIn(spec: VmSpec, class_: VmClass, s: System, b: Birth): VmPlan {
    ReconcilePlan(spec, class_, s.status, Answers(s, b))
  }

  function Pass(spec: VmSpec, class_: VmClass, s: System, b: Birth): System {
    var plan := PlanIn(spec, class_, s, b);
    System(if plan.write.Some? then plan.write.value else s.status, AllPerformed(plan.rpcs, s.machines, b))
  }

  /** The system after a reconcile for each birth certificate in turn. */
  function Passes(spec: VmSpec, class_: VmClass, s: System, bs: seq<Birth>): System
    decreases |bs|
  {
    if bs == [] then s else Passes(spec, class_, Pass(spec, class_, s, bs[0]), bs[1..])
  }

  /** Every create is given a usable id. */
  predicate Usable(bs: seq<Birth>) {
    forall i :: 0 <= i < |bs| ==> bs[i].id != ""
  }

  /** The VM exists, and the next reconcile only looks and reports Ready. */
  ghost predicate Settled(spec: VmSpec, class_: VmClass, s: System) {
    Bound(s) && forall b :: QuietPass(spec, class_, s, b)
  }

  ghost predicate QuietPass(spec: VmSpec, class_: VmClass, s: System, b: Birth) {
    var plan := PlanIn(spec, class_, s, b);
    && (forall rpc :: rpc in plan.rpcs ==> !rpc.Mutates())
    && plan.write.Some? && plan.write.value.ready == Some(true)
  }

  /** The VM the status names exists. */
  predicate Bound(s: System) {
    s.status.id != "" && s.status.id in s.machines
  }

  /** The status after finished tasks are cleared. */
  function Cleared(spec: VmSpec, class_: VmClass, st: VmStatus): VmStatus {
    var cleared := st.(lastTaskRef := "");
    if st.reconfigureTaskRef == "" then cleared else ReconfigureFinished(spec, class_, cleared)
  }

  /** A pass that tries to create, from a status with no id. */
  function CreatePass(spec: VmSpec, class_: VmClass, st: VmStatus, machines: map<string, Power>, b: Birth): System {
    if spec.imageRef == spec.importedDisk then System(st.Provisioning(false), machines)
    else System(Tracked(spec, class_, st.(id := b.id)).Provisioning(false), machines[b.id := b.power])
  }

  /** A pass over an existing machine. */
  function PresentPass(spec: VmSpec, class_: VmClass, s: System, st: VmStatus, p: Power): System {
    var seen := st.(power := Some(p));
    if p != spec.Desired() then
      if OpFor(spec.Desired()).None? then s
      else System(seen, s.machines[st.id := Powered(OpFor(spec.Desired()).value)])
    else if NeedsReconfigure(spec, class_, seen) then
      System(Tracked(spec, class_, seen).(phase := Running, ready := Some(true)).IsReconfiguring(false), s.machines)
    else System(seen.(ready := Some(true)).Provisioning(false), s.machines)
  }

  /** The same pass read off the state alone, without the calls in between. */
  function DirectPass(spec: VmSpec, class_: VmClass, s: System, b: Birth): System {
    var st := Cleared(spec, class_, s.status);
    if st.id == "" then
      if spec.adopted then System(st.Provisioning(true), s.machines) else CreatePass(spec, class_, st, s.machines, b)
    else if st.id !in s.machines then CreatePass(spec, class_, st.(id := ""), s.machines, b)
    else PresentPass(spec, class_, s, st, s.machines[st.id])
  }

  lemma PerformedAlone(rpc: Rpc, machines: map<string, Power>, b: Birth)
    ensures AllPerformed([rpc], machines, b) == Performed(rpc, machines, b)
    ensures forall id :: AllPerformed([Describe(id), rpc], machines, b) == Performed(rpc, machines, b)
  {
    assert [rpc][1..] == [];
    forall id
      ensures AllPerformed([Describe(id), rpc], machines, b) == Performed(rpc, machines, b)
    {
      assert [Describe(id), rpc][1..] == [rpc];
      assert AllPerformed([rpc], machines, b) == Performed(rpc, machines, b);
    }
  }

  lemma PlanForm(spec: VmSpec, class_: VmClass, s: System, b: Birth)
    ensures PlanIn(spec, class_, s, b)
            == SettledPlan(spec, class_, Cleared(spec, class_, s.status), Answers(s, b))
  {
  }

  lemma CreateIsDirect(spec: VmSpec, class_: VmClass, st: VmStatus, s: System, b: Birth)
    ensures var plan := CreatePlan(spec, class_, st, Answers(s, b));
            && |plan.rpcs| <= 1
            && plan.write == Some(CreatePass(spec, class_, st, s.machines, b).status)
            && AllPerformed(plan.rpcs, s.machines, b) == CreatePass(spec, class_, st, s.machines, b).machines
            && forall id :: AllPerformed([Describe(id)] + plan.rpcs, s.machines, b)
                            == CreatePass(spec, class_, st, s.machines, b).machines
  {
    var plan := CreatePlan(spec, class_, st, Answers(s, b));
    PerformedAlone(Create(b.image), s.machines, b);
    forall id
      ensures AllPerformed([Describe(id)] + plan.rpcs, s.machines, b)
              == CreatePass(spec, class_, st, s.machines, b).machines
    {
      PerformedAlone(Describe(id), s.machines, b);
      assert plan.rpcs == [] || plan.rpcs == [Create(b.image)];
      assert [Describe(id)] + [] == [Describe(id)];
      assert [Describe(id)] + [Create(b.image)] == [Describe(id), Create(b.image)];
    }
  }

  lemma PresentIsDirect(spec: VmSpec, class_: VmClass, s: System, b: Birth)
    requires Bound(s)
    ensures Pass(spec, class_, s, b)
            == PresentPass(spec, class_, s, Cleared(spec, class_, s.status), s.machines[s.status.id])
  {
    PlanForm(spec, class_, s, b);
    var id, plan := s.status.id, PlanIn(spec, class_, s, b);
    PerformedAlone(Describe(id), s.machines, b);
    PerformedAlone(Reconfigure(id), s.machines, b);
    var op := OpFor(spec.Desired());
    if op.Some? {
      PerformedAlone(SetPower(id, op.value), s.machines, b);
    }
    assert plan.rpcs == [Describe(id)] || plan.rpcs == [Describe(id), Reconfigure(id)]
           || (op.Some? && plan.rpcs == [Describe(id), SetPower(id, op.value)]);
  }

  /** A pass is what the direct reading says. */
  lemma PassIsDirect(spec: VmSpec, class_: VmClass, s: System, b: Birth)
    ensures Pass(spec, class_, s, b) == DirectPass(spec, class_, s, b)
  {
    var st := Cleared(spec, class_, s.status);
    if Bound(s) {
      PresentIsDirect(spec, class_, s, b);
    } else {
      PlanForm(spec, class_, s, b);
      CreateIsDirect(spec, class_, st.(id := ""), s, b);
      assert st.id == "" ==> st.(id := "") == st;
    }
  }

  /** Whether repeated reconciles get anywhere can be read off the spec and the first state. */
  predicate Convergent(spec: VmSpec, s: System) {
    && spec.Desired() in {On, Off}
    && (Bound(s) || (spec.imageRef != spec.importedDisk && (s.status.id == "" ==> !spec.adopted)))
  }

  /** At most a power change and a reconfigure away from settled. */
  predicate Aligned(spec: VmSpec, class_: VmClass, s: System) {
    Bound(s) && s.machines[s.status.id] == spec.Desired()
  }

  predicate Sized(spec: VmSpec, class_: VmClass, s: System) {
    !NeedsReconfigure(spec, class_, Cleared(spec, class_, s.status))
  }

  lemma SettledIff(spec: VmSpec, class_: VmClass, s: System)
    ensures Settled(spec, class_, s) <==> Aligned(spec, class_, s) && Sized(spec, class_, s)
  {
    if Bound(s) {
      forall b
        ensures QuietPass(spec, class_, s, b) <==> Aligned(spec, class_, s) && Sized(spec, class_, s)
      {
        QuietIff(spec, class_, s, b);
      }
      var some := Birth("", On, I.RequestImage("", "", ""));
      assert Settled(spec, class_, s) ==> QuietPass(spec, class_, s, some);
    }
  }

  lemma QuietIff(spec: VmSpec, class_: VmClass, s: System, b: Birth)
    requires Bound(s)
    ensures QuietPass(spec, class_, s, b) <==> Aligned(spec, class_, s) && Sized(spec, class_, s)
  {
    PlanForm(spec, class_, s, b);
    var plan := PlanIn(spec, class_, s, b);
    assert |plan.rpcs| == 2 ==> plan.rpcs[1] in plan.rpcs && plan.rpcs[1].Mutates();
  }

  // ---------------------------------------------------------------------------------------
  // One pass

  lemma PassWhenUnbound(spec: VmSpec, class_: VmClass, s: System, b: Birth)
    requires Convergent(spec, s) && !Bound(s) && b.id != ""
    ensures var n := Pass(spec, class_, s, b);
            Bound(n) && Sized(spec, class_, n)
  {
    PassIsDirect(spec, class_, s, b);
  }

  lemma PassWhenMisaligned(spec: VmSpec, class_: VmClass, s: System, b: Birth)
    requires Bound(s) && spec.Desired() in {On, Off} && !Aligned(spec, class_, s)
    ensures var n := Pass(spec, class_, s, b);
            Aligned(spec, class_, n) && (Sized(spec, class_, s) ==> Sized(spec, class_, n))
  {
    PassIsDirect(spec, class_, s, b);
  }

  lemma PassWhenMissized(spec: VmSpec, class_: VmClass, s: System, b: Birth)
    requires Aligned(spec, class_, s) && spec.Desired() in {On, Off}
    ensures var n := Pass(spec, class_, s, b);
            Aligned(spec, class_, n) && Sized(spec, class_, n) && (Sized(spec, class_, s) ==> n.machines == s.machines)
  {
    PassIsDirect(spec, class_, s, b);
  }

  // ---------------------------------------------------------------------------------------
  // Main results

  lemma {:induction false} PassesSnoc(spec: VmSpec, class_: VmClass, s: System, bs: seq<Birth>, cs: seq<Birth>)
    ensures Passes(spec, class_, s, bs + cs) == Passes(spec, class_, Passes(spec, class_, s, bs), cs)
    decreases |bs|
  {
    if bs == [] {
      assert bs + cs == cs;
    } else {
      assert (bs + cs)[0] == bs[0] && (bs + cs)[1..] == bs[1..] + cs;
      PassesSnoc(spec, class_, Pass(spec, class_, s, bs[0]), bs[1..], cs);
    }
  }

  lemma PassesTwo(spec: VmSpec, class_: VmClass, s: System, a: Birth, b: Birth)
    ensures Passes(spec, class_, s, [a, b]) == Pass(spec, class_, Pass(spec, class_, s, a), b)
  {
    var m := Pass(spec, class_, s, a);
    assert [a, b][1..] == [b] && [b][1..] == [];
    assert Passes(spec, class_, m, [b]) == Passes(spec, class_, Pass(spec, class_, m, b), []);
  }

  lemma SettledPass(spec: VmSpec, class_: VmClass, s: System, b: Birth)
    requires Settled(spec, class_, s)
    ensures var n := Pass(spec, class_, s, b);
            Settled(spec, class_, n) && n.machines == s.machines && n.status.ready == Some(true)
  {
    SettledIff(spec, class_, s);
    SettledMoves(spec, class_, s, b);
    SettledIff(spec, class_, Pass(spec, class_, s, b));
  }

  lemma SettledMoves(spec: VmSpec, class_: VmClass, s: System, b: Birth)
    requires Aligned(spec, class_, s) && Sized(spec, class_, s)
    ensures var n := Pass(spec, class_, s, b);
            && Aligned(spec, class_, n) && Sized(spec, class_, n)
            && n.machines == s.machines && n.status.ready == Some(true)
  {
    PassIsDirect(spec, class_, s, b);
  }

  /** Once settled, every later reconcile leaves the provider alone and keeps the VM Ready. */
  lemma {:induction false} SettledForever(spec: VmSpec, class_: VmClass, s: System, bs: seq<Birth>)
    requires Settled(spec, class_, s)
    ensures var n := Passes(spec, class_, s, bs);
            Settled(spec, class_, n) && n.machines == s.machines && (bs != [] ==> n.status.ready == Some(true))
    decreases |bs|
  {
    if bs != [] {
      SettledPass(spec, class_, s, bs[0]);
      SettledForever(spec, class_, Pass(spec, class_, s, bs[0]), bs[1..]);
    }
  }

  lemma TwoPassesSettle(spec: VmSpec, class_: VmClass, s: System, a: Birth, b: Birth)
    requires Convergent(spec, s) && a.id != "" && b.id != ""
    ensures Settled(spec, class_, Pass(spec, class_, Pass(spec, class_, s, a), b))
  {
    var m := Pass(spec, class_, s, a);
    if !Bound(s) {
      PassWhenUnbound(spec, class_, s, a);
    } else if !Aligned(spec, class_, s) {
      PassWhenMisaligned(spec, class_, s, a);
    } else {
      PassWhenMissized(spec, class_, s, a);
    }
    if Aligned(spec, class_, m) {
      PassWhenMissized(spec, class_, m, b);
    } else {
      PassWhenMisaligned(spec, class_, m, b);
    }
    SettledIff(spec, class_, Pass(spec, class_, m, b));
  }

  /**
    Convergence: from any persisted status, two reconciles bring a convergent VM to where the
    provider is never touched again, and from the third on it is Ready.
   */
  lemma {:induction false} ConvergesInTwo(spec: VmSpec, class_: VmClass, s: System, bs: seq<Birth>)
    requires Convergent(spec, s) && Usable(bs) && |bs| >= 2
    ensures var n := Passes(spec, class_, s, bs);
            && Settled(spec, class_, n)
            && n.machines == Passes(spec, class_, s, bs[..2]).machines
            && (|bs| > 2 ==> n.status.ready == Some(true))
  {
    TwoPassesSettle(spec, class_, s, bs[0], bs[1]);
    var two := Passes(spec, class_, s, bs[..2]);
    assert bs[..2] == [bs[0], bs[1]];
    PassesTwo(spec, class_, s, bs[0], bs[1]);
    assert bs == bs[..2] + bs[2..];
    PassesSnoc(spec, class_, s, bs[..2], bs[2..]);
    SettledForever(spec, class_, two, bs[2..]);
  }

  /** What providers report: never the request-only state OffGraceful. */
  predicate Reportable(p: Power) {
    p != OffGraceful
  }

  ghost predicate Reporting(s: System) {
    forall id :: id in s.machines ==> Reportable(s.machines[id])
  }

  lemma StuckPass(spec: VmSpec, class_: VmClass, s: System, b: Birth)
    requires !Convergent(spec, s) && Reporting(s) && b.id != "" && Reportable(b.power)
    requires spec.Desired() != OtherPower
    ensures var n := Pass(spec, class_, s, b); !Convergent(spec, n) && Reporting(n)
    ensures !Settled(spec, class_, s)
  {
    SettledIff(spec, class_, s);
    PassIsDirect(spec, class_, s, b);
  }

  /**
    The condition is exact: without it no number of reconciles settles the VM.  In particular a
    desired OffGraceful is re-requested for ever, because no provider reports that state.
   */
  lemma {:induction false} OtherwiseNeverSettles(spec: VmSpec, class_: VmClass, s: System, bs: seq<Birth>)
    requires !Convergent(spec, s) && Reporting(s) && Usable(bs) && spec.Desired() != OtherPower
    requires forall i :: 0 <= i < |bs| ==> Reportable(bs[i].power)
    ensures !Settled(spec, class_, Passes(spec, class_, s, bs))
    decreases |bs|
  {
    if bs == [] {
      StuckPass(spec, class_, s, Birth("x", On, I.RequestImage("", "", "")));
    } else {
      StuckPass(spec, class_, s, bs[0]);
      OtherwiseNeverSettles(spec, class_, Pass(spec, class_, s, bs[0]), bs[1..]);
    }
  }

  /** Every reconcile of a running VM that should shut down gracefully asks for it again. */
  lemma GracefulOffRepeats(spec: VmSpec, class_: VmClass, s: System, b: Birth)
    requires spec.Desired() == OffGraceful && Bound(s) && Reporting(s)
    ensures SetPower(s.status.id, ShutdownGraceful) in PlanIn(spec, class_, s, b).rpcs
    ensures Bound(Pass(spec, class_, s, b)) && Reporting(Pass(spec, class_, s, b))
  {
    PlanForm(spec, class_, s, b);
    PassIsDirect(spec, class_, s, b);
    var plan := PlanIn(spec, class_, s, b);
    assert plan.rpcs == [Describe(s.status.id), SetPower(s.status.id, ShutdownGraceful)];
  }

  /** The tracked resources are the desired ones; a status that tracks none counts as fitting. */
  predicate TracksDesired(spec: VmSpec, class_: VmClass, st: VmStatus) {
    || (CurrentCpu(st) == DesiredCpu(spec, class_) && CurrentMemory(st) == DesiredMemory(spec, class_))
    || (CurrentCpu(st) == 0 && CurrentMemory(st) == 0)
  }

  /**
    A settled VM whose class changes is reconfigured once, and only if that changes what it
    should have: one reconcile under the new class settles it again.
   */
  lemma ResizedOnce(spec: VmSpec, was: VmClass, now: VmClass, s: System, b: Birth)
    requires Settled(spec, was, s) && s.status.reconfigureTaskRef == "" && spec.Desired() in {On, Off}
    ensures TracksDesired(spec, was, s.status)
    ensures Reconfigure(s.status.id) in PlanIn(spec, now, s, b).rpcs <==> !TracksDesired(spec, now, s.status)
    ensures var n := Pass(spec, now, s, b);
            Settled(spec, now, n) && TracksDesired(spec, now, n.status) && n.machines == s.machines
  {
    SettledIff(spec, was, s);
    PlanForm(spec, now, s, b);
    PassIsDirect(spec, now, s, b);
    PassWhenMissized(spec, now, s, b);
    var plan := PlanIn(spec, now, s, b);
    assert plan.rpcs == if TracksDesired(spec, now, s.status) then [Describe(s.status.id)]
                        else [Describe(s.status.id), Reconfigure(s.status.id)];
    SettledIff(spec, now, Pass(spec, now, s, b));
  }

  /** Against a correct provider nothing ever withdraws Ready, whatever becomes of the machine. */
  lemma {:induction false} ReadyNeverWithdrawn(spec: VmSpec, class_: VmClass, s: System, bs: seq<Birth>)
    requires s.status.ready == Some(true)
    ensures Passes(spec, class_, s, bs).status.ready == Some(true)
    decreases |bs|
  {
    if bs != [] {
      ReadyWithdrawnIff(spec, class_, s.status, Answers(s, bs[0]));
      ReadyNeverWithdrawn(spec, class_, Pass(spec, class_, s, bs[0]), bs[1..]);
    }
  }

  /**
    In particular, when a VM that cannot be recreated vanishes from the provider, its id is
    dropped but the condition keeps the value it had.
   */
  lemma VanishedKeepsReady(spec: VmSpec, class_: VmClass, s: System, b: Birth)
    requires s.status.id != "" && s.status.id !in s.machines && spec.imageRef == spec.importedDisk
    ensures var n := Pass(spec, class_, s, b);
            n.status.id == "" && n.status.ready == s.status.ready && n.machines == s.machines
  {
    PassIsDirect(spec, class_, s, b);
  }
}
