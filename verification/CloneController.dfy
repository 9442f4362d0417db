/**
  One reconcile of a VMClone, as the conversation it holds with the API server and the provider.

  Every call carries its answer, so the controller is an automaton over calls.  The reconciler
  below is the code itself; it is proved to hold only conversations the automaton allows.
 */
module CloneController {
  import opened Common
  import V = VirtualMachine

  datatype ClonePhase = NoPhase | Pending | Cloning | Ready | Failed

  datatype CloneStatus = CloneStatus(phase: ClonePhase, targetVMID: string, taskRef: string) {
    predicate Terminal() {
      phase.Ready? || phase.Failed?
    }
  }

  /** An object as read, with the version its next update must match. */
  datatype Copy = Copy(version: nat, status: CloneStatus)

  datatype VmObject = VmObject(spec: V.VmSpec, status: V.VmStatus)
  datatype VmCopy = VmCopy(version: nat, obj: VmObject) {
    /** The object with its id set, as the seeding update sends it. */
    function Seeded(id: string): VmObject {
      obj.(status := obj.status.(id := id))
    }
  }

  // ---------------------------------------------------------------------------------------
  // The target object

  const ADOPTED_LABEL := "virtrigaud.io/adopted"
  const ADOPTED_VALUE := "true"

  predicate IsAdopted(labels: map<string, string>) {
    ADOPTED_LABEL in labels && labels[ADOPTED_LABEL] == ADOPTED_VALUE
  }

  function TargetLabels(requested: map<string, string>): map<string, string> {
    (map k | k in requested :: requested[k])[ADOPTED_LABEL := ADOPTED_VALUE]
  }

  /** The target as created: no disk source of its own, adopted whatever labels were requested. */
  function TargetSpec(requested: map<string, string>): V.VmSpec {
    V.VmSpec(IsAdopted(TargetLabels(requested)), false, false, None, None)
  }

  const NO_STATUS := V.VmStatus("", "", "", V.OtherPhase, None, None, None, None, None)

  // ---------------------------------------------------------------------------------------
  // Calls and the automaton

  /** What validating the source, the provider and the linked-clone capability comes to. */
  datatype Resolution = Go | WaitForSource | Unsupported | Again

  datatype TaskAnswer = TaskError | TaskRunning | TaskDone
  datatype VmAnswer = Found(vm: VmCopy) | Missing | GetError
  datatype CreateAnswer = Created | AlreadyExists | CreateError
  datatype PutAnswer = Stored | Conflict | PutError
  datatype CloneAnswer = CloneError | Cloned(id: string, task: string)

  datatype Call =
    | GetClone(copy: Copy)
    | Touch(version: nat, status: CloneStatus, ok: bool) // finalizer updates
    | Resolve(resolution: Resolution)
    | PollTask(task: TaskAnswer)
    | GetVm(answer: VmAnswer)
    | NotACloner
    | CloneVm(result: CloneAnswer)
    | PutClone(version: nat, status: CloneStatus, ok: bool)
    | CreateVm(created: CreateAnswer)
    | PutVm(version: nat, obj: VmObject, put: PutAnswer)
    | Crash

  /** Where a reconcile stands; `c` is its copy of the clone. */
  datatype Pc =
    | Idle
    | Got(c: Copy)
    | Polling(c: Copy)
    | Checking(c: Copy)                     // about to look for an existing target
    | Starting(c: Copy)                     // about to call Clone
    | Saving(c: Copy, next: CloneStatus)    // about to persist the answer or the cleared task
    | Failing(c: Copy)
    | Waiting(c: Copy)
    | Binding(c: Copy)                      // about to look for the target object
    | Creating(c: Copy)
    | Seeding(c: Copy, left: nat)           // about to re-read the target
    | Writing(c: Copy, left: nat, vm: VmCopy)
    | Finishing(c: Copy)

  const MAX_ATTEMPTS := 5

  function FailedStatus(s: CloneStatus): CloneStatus {
    s.(phase := Failed, taskRef := "")
  }

  function ReadyStatus(s: CloneStatus): CloneStatus {
    s.(phase := Ready, taskRef := "")
  }

  /** Binding starts only with an id to bind. */
  function Bind(c: Copy): Pc {
    if c.status.targetVMID == "" then Failing(c) else Binding(c)
  }

  function Resolved(c: Copy): Pc {
    if c.status.taskRef != "" then Polling(c)
    else if c.status.targetVMID != "" then Binding(c)
    else Checking(c)
  }

  /** The reconcile is over: a clone read in a terminal phase is left alone. */
  predicate Resting(pc: Pc) {
    pc.Idle? || (pc.Got? && pc.c.status.Terminal())
  }

  /** Where a call leads; None where the controller makes no such call. */
  function After(pc: Pc, call: Call): Option<Pc> {
    if call.Crash? then Some(Idle)
    else match pc
    case Idle => if call.GetClone? then Some(Got(call.copy)) else None
    case Got(c) =>
      if call.GetClone? && c.status.Terminal() then Some(Got(call.copy))
      else if call.Touch? && call.version == c.version && call.status == c.status then Some(Idle)
      else if call.Resolve? && !c.status.Terminal() then
        match call.resolution
        case Go => Some(Resolved(c))
        case WaitForSource => Some(Waiting(c))
        case Unsupported => Some(Failing(c))
        case Again => Some(Idle)
      else None
    case Polling(c) =>
      if !call.PollTask? then None
      else (match call.task
        case TaskError => Some(Failing(c))
        case TaskRunning => Some(Idle)
        case TaskDone => Some(Saving(c, c.status.(taskRef := ""))))
    case Checking(c) =>
      if !call.GetVm? then None
      else (match call.answer
        case Found(_) => Some(Failing(c))
        case Missing => Some(Starting(c))
        case GetError => Some(Idle))
    case Starting(c) =>
      if call.NotACloner? then Some(Failing(c))
      else if !call.CloneVm? then None
      else (match call.result
        case CloneError => Some(Failing(c))
        case Cloned(id, task) => Some(Saving(c, CloneStatus(Cloning, id, task))))
    case Saving(c, next) =>
      if !(call.PutClone? && call.version == c.version && call.status == next) then None
      else if !call.ok || next.taskRef != "" then Some(Idle)
      else Some(Bind(Copy(c.version + 1, next)))
    case Failing(c) => Persists(c, FailedStatus(c.status), call)
    case Waiting(c) => Persists(c, c.status.(phase := Pending), call)
    case Finishing(c) => Persists(c, ReadyStatus(c.status), call)
    case Binding(c) =>
      if !call.GetVm? then None
      else (match call.answer
        case Found(_) => Some(Seeding(c, MAX_ATTEMPTS))
        case Missing => Some(Creating(c))
        case GetError => Some(Idle))
    case Creating(c) =>
      if !call.CreateVm? then None
      else if call.created.CreateError? then Some(Failing(c))
      else Some(Seeding(c, MAX_ATTEMPTS))
    case Seeding(c, left) =>
      if !call.GetVm? then None
      else if !call.answer.Found? then Some(Idle)
      else if call.answer.vm.obj.status.id == c.status.targetVMID then Some(Finishing(c))
      else Some(Writing(c, left, call.answer.vm))
    case Writing(c, left, vm) =>
      if !(call.PutVm? && call.version == vm.version && call.obj == vm.Seeded(c.status.targetVMID)) then None
      else (match call.put
        case Stored => Some(Finishing(c))
        case Conflict => Some(if left > 1 then Seeding(c, left - 1) else Idle)
        case PutError => Some(Idle))
  }

  /** The last call of a reconcile: persist the status, whether or not that works. */
  function Persists(c: Copy, status: CloneStatus, call: Call): Option<Pc> {
    if call.PutClone? && call.version == c.version && call.status == status then Some(Idle) else None
  }

  function Walk(pc: Pc, calls: seq<Call>): Option<Pc> {
    if calls == [] then Some(pc)
    else
      var before := Walk(pc, calls[..|calls| - 1]);
      if before.None? then None else After(before.value, calls[|calls| - 1])
  }

  // ---------------------------------------------------------------------------------------
  // The reconciler

  datatype Try = Try(got: VmAnswer, put: PutAnswer)

  /** Everything the API server and the provider answer during one reconcile. */
  datatype CloneEnv = CloneEnv(
    copy: Copy, hasFinalizer: bool, touched: bool, resolution: Resolution, task: TaskAnswer, existing: VmAnswer,
    isCloner: bool, result: CloneAnswer, saved: bool, target: VmAnswer, created: CreateAnswer,
    tries: nat -> Try, marked: bool)

  class CloneReconciler {
    var clone: Copy      // the object in memory
    var calls: seq<Call>

    constructor ()
      ensures calls == []
    {
      clone := Copy(0, CloneStatus(NoPhase, "", ""));
      calls := [];
    }

    /** The conversation so far has led the automaton to pc. */
    ghost predicate At(start: nat, pc: Pc)
      reads this
    {
      start <= |calls| && Walk(Idle, calls[start..]) == Some(pc)
    }

    method Say(call: Call, ghost start: nat, ghost pc: Pc)
      requires At(start, pc) && After(pc, call).Some?
      modifies this`calls
      ensures calls == old(calls) + [call]
      ensures At(start, After(pc, call).value)
    {
      calls := calls + [call];
      assert calls[start..] == old(calls)[start..] + [call];
      assert calls[start..][..|calls[start..]| - 1] == old(calls)[start..];
    }

    method MarkFailed(env: CloneEnv, ghost start: nat)
      requires At(start, Failing(clone))
      modifies this
      ensures At(start, Idle) && old(calls) <= calls
    {
      var was := clone;
      clone := clone.(status := clone.status.(phase := Failed));
      clone := clone.(status := clone.status.(taskRef := ""));
      Say(PutClone(clone.version, clone.status, env.marked), start, Failing(was));
    }

    method MarkPending(env: CloneEnv, ghost start: nat)
      requires At(start, Waiting(clone))
      modifies this
      ensures At(start, Idle) && old(calls) <= calls
    {
      var was := clone;
      clone := clone.(status := clone.status.(phase := Pending));
      Say(PutClone(clone.version, clone.status, env.marked), start, Waiting(was));
    }

    method FinalizeReady(env: CloneEnv, ghost start: nat)
      requires At(start, Finishing(clone))
      modifies this
      ensures At(start, Idle) && old(calls) <= calls
    {
      var was := clone;
      clone := clone.(status := clone.status.(phase := Ready, taskRef := ""));
      Say(PutClone(clone.version, clone.status, env.marked), start, Finishing(was));
    }

    /** Persists the in-memory status, which the automaton expects as `next`. */
    method UpdateStatus(was: Copy, env: CloneEnv, ghost start: nat) returns (ok: bool)
      requires was.version == clone.version && At(start, Saving(was, clone.status))
      modifies this
      ensures ok == env.saved && clone.status == old(clone).status && old(calls) <= calls
      ensures ok ==> At(start, if clone.status.taskRef != "" then Idle else Bind(clone))
      ensures !ok ==> At(start, Idle)
    {
      ok := env.saved;
      Say(PutClone(clone.version, clone.status, ok), start, Saving(was, clone.status));
      if ok {
        clone := clone.(version := clone.version + 1);
      }
    }

    method StartClone(env: CloneEnv, ghost start: nat)
      requires At(start, Starting(clone))
      modifies this
      ensures At(start, Idle) && old(calls) <= calls
    {
      var was := clone;
      if !env.isCloner {
        Say(NotACloner, start, Starting(clone));
        MarkFailed(env, start);
        return;
      }
      Say(CloneVm(env.result), start, Starting(clone));
      match env.result {
        case CloneError =>
          MarkFailed(env, start);
        case Cloned(id, task) =>
          clone := clone.(status := clone.status.(phase := Cloning));
          clone := clone.(status := clone.status.(targetVMID := id, taskRef := task));
          var ok := UpdateStatus(was, env, start);
          if ok && task == "" {
            BindTargetVm(env, start);
          }
      }
    }

    method PollCloneTask(env: CloneEnv, ghost start: nat)
      requires At(start, Polling(clone))
      modifies this
      ensures At(start, Idle) && old(calls) <= calls
    {
      var was := clone;
      Say(PollTask(env.task), start, Polling(clone));
      match env.task {
        case TaskError =>
          MarkFailed(env, start);
        case TaskRunning =>
        case TaskDone =>
          clone := clone.(status := clone.status.(taskRef := ""));
          var ok := UpdateStatus(was, env, start);
          if ok {
            BindTargetVm(env, start);
          }
      }
    }

    method BindTargetVm(env: CloneEnv, ghost start: nat)
      requires At(start, Bind(clone))
      modifies this
      ensures At(start, Idle) && old(calls) <= calls
    {
      if clone.status.targetVMID == "" {
        MarkFailed(env, start);
        return;
      }
      Say(GetVm(env.target), start, Binding(clone));
      match env.target {
        case GetError =>
          return;
        case Missing =>
          Say(CreateVm(env.created), start, Creating(clone));
          if env.created.CreateError? {
            MarkFailed(env, start);
            return;
          }
        case Found(_) =>
      }
      var seeded := SeedStatusId(env, start);
      if seeded {
        FinalizeReady(env, start);
      }
    }

    /** Re-read and write the id, again on conflict, a bounded number of times. */
    method SeedStatusId(env: CloneEnv, ghost start: nat) returns (ok: bool)
      requires At(start, Seeding(clone, MAX_ATTEMPTS))
      modifies this`calls
      ensures At(start, if ok then Finishing(clone) else Idle) && old(calls) <= calls
    {
      var left := MAX_ATTEMPTS;
      while left > 0
        invariant 0 <= left <= MAX_ATTEMPTS
        invariant At(start, if left > 0 then Seeding(clone, left) else Idle) && old(calls) <= calls
      {
        var attempt := env.tries(left);
        Say(GetVm(attempt.got), start, Seeding(clone, left));
        if !attempt.got.Found? {
          return false;
        }
        var latest := attempt.got.vm;
        if latest.obj.status.id == clone.status.targetVMID {
          return true;
        }
        var updated := latest.obj.(status := latest.obj.status.(id := clone.status.targetVMID));
        Say(PutVm(latest.version, updated, attempt.put), start, Writing(clone, left, latest));
        match attempt.put {
          case Stored => return true;
          case PutError => return false;
          case Conflict => left := left - 1;
        }
      }
      return false;
    }

    /** A reconcile holds one conversation, from its read of the clone to its end. */
    method Reconcile(env: CloneEnv)
      modifies this
      ensures old(calls) <= calls
      ensures var said := calls[|old(calls)|..];
              && said != [] && said[0] == GetClone(env.copy)
              && Walk(Idle, said).Some? && Resting(Walk(Idle, said).value)
    {
      ghost var start := |calls|;
      assert calls[start..] == [];
      clone := env.copy;
      Say(GetClone(clone), start, Idle);
      ghost var entered := calls;
      if !env.hasFinalizer {
        Say(Touch(clone.version, clone.status, env.touched), start, Got(clone));
      } else if clone.status.phase == Ready || clone.status.phase == Failed {
        assert At(start, Got(clone));
      } else {
        Say(Resolve(env.resolution), start, Got(clone));
        match env.resolution {
          case WaitForSource => MarkPending(env, start);
          case Unsupported => MarkFailed(env, start);
          case Again =>
          case Go => Proceed(env, start);
        }
      }
      assert entered <= calls && calls[start] == entered[start];
    }

    method Proceed(env: CloneEnv, ghost start: nat)
      requires At(start, Resolved(clone))
      modifies this
      ensures At(start, Idle) && old(calls) <= calls
    {
      if clone.status.taskRef != "" {
        PollCloneTask(env, start);
      } else if clone.status.targetVMID != "" {
        BindTargetVm(env, start);
      } else {
        Say(GetVm(env.existing), start, Checking(clone));
        match env.existing {
          case Found(_) => MarkFailed(env, start);
          case GetError =>
          case Missing => StartClone(env, start);
        }
      }
    }
  }
}
