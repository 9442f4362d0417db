/** One reconcile of a VirtualMachine object. */
module VirtualMachine {
  import opened Common
  import I = ImagePrepare

  datatype Power = On | Off | OffGraceful | OtherPower

  datatype Resources = Resources(cpu: Option<int>, memoryMiB: Option<int>)

  /** The spec, and the adopted label that goes with it. */
  datatype VmSpec = VmSpec(
    adopted: bool, imageRef: bool, importedDisk: bool, power: Option<Power>, resources: Option<Resources>)
  {
    function Desired(): Power {
      if power.None? then On else power.value
    }
  }

  datatype VmClass = VmClass(cpu: int, memoryBytes: int)

  datatype VmPhase = Running | Reconfiguring | OtherPhase

  /** The status; conditions are the last value set, if any. */
  datatype VmStatus = VmStatus(
    id: string, lastTaskRef: string, reconfigureTaskRef: string, phase: VmPhase, power: Option<Power>,
    current: Option<Resources>, ready: Option<bool>, provisioning: Option<bool>, reconfiguring: Option<bool>)
  {
    function Unready(): VmStatus {
      this.(ready := Some(false))
    }

    function Provisioning(b: bool): VmStatus {
      this.(provisioning := Some(b))
    }

    function IsReconfiguring(b: bool): VmStatus {
      this.(reconfiguring := Some(b))
    }
  }

  datatype PowerOp = PowerOn | PowerOff | ShutdownGraceful

  datatype Rpc =
    | Describe(id: string)
    | Create(image: I.RequestImage)
    | SetPower(id: string, op: PowerOp)
    | Reconfigure(id: string)
  {
    predicate Mutates() {
      !Describe?
    }
  }

  datatype Described = DescribeError | Absent | Present(power: Power)
  datatype CreateAnswer = CreateError | Created(id: string, task: string)
  datatype CallAnswer = CallError | Done(task: string)

  /** The answers of everything outside the reconciler during one reconcile. */
  datatype VmEnv = VmEnv(
    dependenciesFail: bool, providerFails: bool, gate: I.Gate, image: I.RequestImage,
    lastTask: I.TaskAnswer, reconfigureTask: I.TaskAnswer, described: Described,
    buildFails: bool, created: CreateAnswer, powered: CallAnswer, reconfigured: CallAnswer)

  /** What a reconcile does: its provider calls, and the status it persists, if it persists one. */
  datatype VmPlan = VmPlan(rpcs: seq<Rpc>, write: Option<VmStatus>)

  // ---------------------------------------------------------------------------------------
  // Resources

  const MIB := 1024 * 1024

  /** Integer division as Go does it. */
  function MemoryMiB(bytes: int): int {
    if bytes >= 0 then bytes / MIB else -((-bytes) / MIB)
  }

  function OrElse(o: Option<int>, d: int): int {
    if o.Some? then o.value else d
  }

  function DesiredCpu(spec: VmSpec, class_: VmClass): int {
    if spec.resources.Some? then OrElse(spec.resources.value.cpu, class_.cpu) else class_.cpu
  }

  function DesiredMemory(spec: VmSpec, class_: VmClass): int {
    var m := MemoryMiB(class_.memoryBytes);
    if spec.resources.Some? then OrElse(spec.resources.value.memoryMiB, m) else m
  }

  function CurrentCpu(st: VmStatus): int {
    if st.current.Some? then OrElse(st.current.value.cpu, 0) else 0
  }

  function CurrentMemory(st: VmStatus): int {
    if st.current.Some? then OrElse(st.current.value.memoryMiB, 0) else 0
  }

  predicate NeedsReconfigure(spec: VmSpec, class_: VmClass, st: VmStatus) {
    && !(CurrentCpu(st) == 0 && CurrentMemory(st) == 0)
    && (CurrentCpu(st) != DesiredCpu(spec, class_) || CurrentMemory(st) != DesiredMemory(spec, class_))
  }

  function Tracked(spec: VmSpec, class_: VmClass, st: VmStatus): VmStatus {
    st.(current := Some(Resources(Some(DesiredCpu(spec, class_)), Some(DesiredMemory(spec, class_)))))
  }

  // ---------------------------------------------------------------------------------------
  // The reconcile as a function

  function Writes(st: VmStatus): VmPlan {
    VmPlan([], Some(st))
  }

  function After(rpc: Rpc, plan: VmPlan): VmPlan {
    plan.(rpcs := [rpc] + plan.rpcs)
  }

  function CreatePlan(spec: VmSpec, class_: VmClass, st: VmStatus, env: VmEnv): VmPlan {
    if spec.imageRef == spec.importedDisk || env.buildFails then Writes(st.Provisioning(false))
    else
      var created :=
        match env.created
        case CreateError => st.Provisioning(false)
        case Created(id, task) =>
          var next := Tracked(spec, class_, st.(id := id));
          if task != "" then next.(lastTaskRef := task).Provisioning(true) else next.Provisioning(false);
      After(Create(env.image), Writes(created))
  }

  function OpFor(p: Power): Option<PowerOp> {
    match p
    case On => Some(PowerOn)
    case Off => Some(PowerOff)
    case OffGraceful => Some(ShutdownGraceful)
    case OtherPower => None
  }

  function PowerPlan(desired: Power, st: VmStatus, env: VmEnv): VmPlan {
    match OpFor(desired)
    case None => VmPlan([], None)
    case Some(op) =>
      var next :=
        match env.powered
        case CallError => st.Unready()
        case Done(task) => if task != "" then st.(lastTaskRef := task).IsReconfiguring(true) else st;
      After(SetPower(st.id, op), Writes(next))
  }

  function ReconfigurePlan(spec: VmSpec, class_: VmClass, st: VmStatus, env: VmEnv): VmPlan {
    if env.buildFails then VmPlan([], None)
    else
      var next :=
        match env.reconfigured
        case CallError => st.IsReconfiguring(false)
        case Done(task) =>
          if task != "" then st.(phase := Reconfiguring, reconfigureTaskRef := task).IsReconfiguring(true)
          else Tracked(spec, class_, st).(phase := Running, ready := Some(true)).IsReconfiguring(false);
      After(Reconfigure(st.id), Writes(next))
  }

  /** From the point where no task is outstanding. */
  function SettledPlan(spec: VmSpec, class_: VmClass, st: VmStatus, env: VmEnv): VmPlan {
    if st.id == "" then
      if spec.adopted then Writes(st.Provisioning(true)) else CreatePlan(spec, class_, st, env)
    else
      After(Describe(st.id),
            match env.described
            case DescribeError => Writes(st.Unready())
            case Absent => CreatePlan(spec, class_, st.(id := ""), env)
            case Present(p) =>
              var seen := st.(power := Some(p));
              if p != spec.Desired() then PowerPlan(spec.Desired(), seen, env)
              else if NeedsReconfigure(spec, class_, seen) then ReconfigurePlan(spec, class_, seen, env)
              else Writes(seen.(ready := Some(true)).Provisioning(false)))
  }

  function ReconfigureFinished(spec: VmSpec, class_: VmClass, st: VmStatus): VmStatus {
    Tracked(spec, class_, st).(reconfigureTaskRef := "", phase := Running).IsReconfiguring(false)
  }

  /** The status once the finished tasks are cleared, or the status to persist while waiting. */
  datatype Tasks = Clear(status: VmStatus) | Wait(status: VmStatus)

  function TaskGate(spec: VmSpec, class_: VmClass, st: VmStatus, env: VmEnv): Tasks {
    if st.lastTaskRef != "" && env.lastTask.TaskError? then Wait(st.Provisioning(false))
    else if st.lastTaskRef != "" && env.lastTask.TaskRunning? then Wait(st.Provisioning(true))
    else
      var cleared := st.(lastTaskRef := "");
      if st.reconfigureTaskRef == "" then Clear(cleared)
      else match env.reconfigureTask
      case TaskError => Wait(cleared.IsReconfiguring(false))
      case TaskRunning => Wait(cleared.IsReconfiguring(true))
      case TaskDone => Clear(ReconfigureFinished(spec, class_, cleared))
  }

  function ReconcilePlan(spec: VmSpec, class_: VmClass, st: VmStatus, env: VmEnv): VmPlan {
    if env.dependenciesFail || env.providerFails || env.gate in {I.Hold, I.GateError} then Writes(st.Unready())
    else if env.gate.InFlight? then Writes(st.Provisioning(true))
    else match TaskGate(spec, class_, st, env)
    case Wait(waiting) => Writes(waiting)
    case Clear(cleared) => SettledPlan(spec, class_, cleared, env)
  }

  // ---------------------------------------------------------------------------------------
  // The reconciler

  class VmReconciler {
    var status: VmStatus      // the object in memory
    var persisted: VmStatus   // the status subresource
    var issued: seq<Rpc>

    constructor (persisted: VmStatus)
      ensures this.status == persisted && this.persisted == persisted && issued == []
    {
      this.status, this.persisted, this.issued := persisted, persisted, [];
    }

    /** The effect of a plan on what is persisted and issued. */
    twostate predicate Did(plan: VmPlan)
      reads this
    {
      && issued == old(issued) + plan.rpcs
      && persisted == if plan.write.Some? then plan.write.value else old(persisted)
    }

    method UpdateStatus()
      modifies this`persisted
      ensures persisted == status
    {
      persisted := status;
    }

    method UpdateCurrentResources(spec: VmSpec, class_: VmClass)
      modifies this`status
      ensures status == Tracked(spec, class_, old(status))
      ensures !NeedsReconfigure(spec, class_, status)
    {
      var cpu, memoryMiB := class_.cpu, MemoryMiB(class_.memoryBytes);
      if spec.resources.Some? {
        if spec.resources.value.cpu.Some? {
          cpu := spec.resources.value.cpu.value;
        }
        if spec.resources.value.memoryMiB.Some? {
          memoryMiB := spec.resources.value.memoryMiB.value;
        }
      }
      status := status.(current := Some(Resources(Some(cpu), Some(memoryMiB))));
    }

    method CreateVm(spec: VmSpec, class_: VmClass, env: VmEnv)
      modifies this
      ensures Did(CreatePlan(spec, class_, old(status), env))
    {
      if !spec.imageRef && !spec.importedDisk {
        status := status.Provisioning(false);
        UpdateStatus();
        return;
      }
      if spec.imageRef && spec.importedDisk {
        status := status.Provisioning(false);
        UpdateStatus();
        return;
      }
      if env.buildFails {
        status := status.Provisioning(false);
        UpdateStatus();
        return;
      }
      issued := issued + [Create(env.image)];
      match env.created {
        case CreateError =>
          status := status.Provisioning(false);
        case Created(id, task) =>
          status := status.(id := id);
          UpdateCurrentResources(spec, class_);
          if task != "" {
            status := status.(lastTaskRef := task).Provisioning(true);
          } else {
            status := status.Provisioning(false);
          }
      }
      UpdateStatus();
    }

    method AdjustPowerState(desired: Power, env: VmEnv)
      modifies this
      ensures Did(PowerPlan(desired, old(status), env))
    {
      var op := OpFor(desired);
      if op.None? {
        return;
      }
      issued := issued + [SetPower(status.id, op.value)];
      match env.powered {
        case CallError =>
          status := status.Unready();
        case Done(task) =>
          if task != "" {
            status := status.(lastTaskRef := task).IsReconfiguring(true);
          }
      }
      UpdateStatus();
    }

    method ReconfigureVm(spec: VmSpec, class_: VmClass, env: VmEnv)
      modifies this
      ensures Did(ReconfigurePlan(spec, class_, old(status), env))
    {
      if env.buildFails {
        return;
      }
      issued := issued + [Reconfigure(status.id)];
      match env.reconfigured {
        case CallError =>
          status := status.IsReconfiguring(false);
        case Done(task) =>
          status := status.(phase := Reconfiguring);
          if task != "" {
            status := status.(reconfigureTaskRef := task).IsReconfiguring(true);
          } else {
            UpdateCurrentResources(spec, class_);
            status := status.(phase := Running, ready := Some(true)).IsReconfiguring(false);
          }
      }
      UpdateStatus();
    }

    /** The part after the task checks: create, describe, power, resources, ready. */
    method DriveVm(spec: VmSpec, class_: VmClass, env: VmEnv)
      modifies this
      ensures Did(SettledPlan(spec, class_, old(status), env))
    {
      if status.id == "" {
        if spec.adopted {
          status := status.Provisioning(true);
          UpdateStatus();
          return;
        }
        CreateVm(spec, class_, env);
        return;
      }
      issued := issued + [Describe(status.id)];
      match env.described {
        case DescribeError =>
          status := status.Unready();
          UpdateStatus();
        case Absent =>
          status := status.(id := "");
          CreateVm(spec, class_, env);
        case Present(p) =>
          status := status.(power := Some(p));
          var desired := spec.Desired();
          if p != desired {
            AdjustPowerState(desired, env);
          } else if NeedsReconfigure(spec, class_, status) {
            ReconfigureVm(spec, class_, env);
          } else {
            status := status.(ready := Some(true)).Provisioning(false);
            UpdateStatus();
          }
      }
    }

    method Reconcile(spec: VmSpec, class_: VmClass, env: VmEnv)
      modifies this
      ensures Did(ReconcilePlan(spec, class_, old(persisted), env))
    {
      status := persisted;
      if env.dependenciesFail || env.providerFails {
        status := status.Unready();
        UpdateStatus();
        return;
      }
      if env.gate == I.Hold || env.gate == I.GateError {
        status := status.Unready();
        UpdateStatus();
        return;
      }
      if env.gate == I.InFlight {
        status := status.Provisioning(true);
        UpdateStatus();
        return;
      }
      if status.lastTaskRef != "" {
        if env.lastTask != I.TaskDone {
          status := status.Provisioning(env.lastTask == I.TaskRunning);
          UpdateStatus();
          return;
        }
        status := status.(lastTaskRef := "");
      }
      if status.reconfigureTaskRef != "" {
        if env.reconfigureTask != I.TaskDone {
          status := status.IsReconfiguring(env.reconfigureTask == I.TaskRunning);
          UpdateStatus();
          return;
        }
        UpdateCurrentResources(spec, class_);
        status := status.(reconfigureTaskRef := "", phase := Running).IsReconfiguring(false);
      }
      assert TaskGate(spec, class_, old(persisted), env) == Clear(status);
      DriveVm(spec, class_, env);
    }
  }

  // ---------------------------------------------------------------------------------------
  // When a VM is created

  /** A provider Create happens exactly here, whatever the rest of the environment answers. */
  predicate CreatesVm(spec: VmSpec, st: VmStatus, env: VmEnv) {
    && !env.dependenciesFail && !env.providerFails && env.gate.Proceed?
    && (st.lastTaskRef != "" ==> env.lastTask.TaskDone?)
    && (st.reconfigureTaskRef != "" ==> env.reconfigureTask.TaskDone?)
    && (if st.id == "" then !spec.adopted else env.described.Absent?)
    && spec.imageRef != spec.importedDisk && !env.buildFails
  }

  lemma CreateIssuedIff(spec: VmSpec, class_: VmClass, st: VmStatus, env: VmEnv)
    ensures var rpcs := ReconcilePlan(spec, class_, st, env).rpcs;
            && (CreatesVm(spec, st, env) <==> exists rpc :: rpc in rpcs && rpc.Create?)
            && (forall rpc :: rpc in rpcs && rpc.Create? ==> rpc.image == env.image)
  {
    var tasks := TaskGate(spec, class_, st, env);
    var plan := ReconcilePlan(spec, class_, st, env);
    if CreatesVm(spec, st, env) {
      var clear := if st.id == "" then tasks.status else tasks.status.(id := "");
      assert CreatePlan(spec, class_, clear, env).rpcs[0] == Create(env.image);
      assert plan.rpcs[|plan.rpcs| - 1] == Create(env.image);
    }
  }

  /** A reconcile gives up the recorded id only when the provider denies the VM. */
  lemma IdKeptUnlessAbsent(spec: VmSpec, class_: VmClass, st: VmStatus, env: VmEnv)
    requires st.id != "" ==> env.described != Absent
    requires st.id == "" ==> spec.adopted
    ensures var plan := ReconcilePlan(spec, class_, st, env);
            && (plan.write.Some? ==> plan.write.value.id == st.id)
            && forall rpc :: rpc in plan.rpcs ==> !rpc.Create?
  {
  }

  // ---------------------------------------------------------------------------------------
  // When Ready is withdrawn

  /** No task is outstanding, or all that are have finished. */
  predicate TasksDone(st: VmStatus, env: VmEnv) {
    (st.lastTaskRef != "" ==> env.lastTask.TaskDone?) && (st.reconfigureTaskRef != "" ==> env.reconfigureTask.TaskDone?)
  }

  /** A dependency, the provider or the image fails, or the provider fails to describe or to power the VM. */
  predicate WithdrawsReady(spec: VmSpec, st: VmStatus, env: VmEnv) {
    || env.dependenciesFail || env.providerFails || env.gate in {I.Hold, I.GateError}
    || (&& env.gate.Proceed? && TasksDone(st, env) && st.id != ""
        && (|| env.described.DescribeError?
            || (&& env.described.Present? && env.described.power != spec.Desired()
                && OpFor(spec.Desired()).Some? && env.powered.CallError?)))
  }

  /** A Ready VM is reported not ready if and only if something fails; a missing machine is no failure. */
  lemma ReadyWithdrawnIff(spec: VmSpec, class_: VmClass, st: VmStatus, env: VmEnv)
    requires st.ready == Some(true)
    ensures var write := ReconcilePlan(spec, class_, st, env).write;
            && (write.Some? ==> write.value.ready in {Some(true), Some(false)})
            && (write.Some? && write.value.ready == Some(false) <==> WithdrawsReady(spec, st, env))
  {
    var tasks := TaskGate(spec, class_, st, env);
    assert tasks.Clear? <==> TasksDone(st, env);
  }
}
