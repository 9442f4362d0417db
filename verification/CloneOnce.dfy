/** A clone is a one-shot job: how often the Clone RPC is issued, and how an interrupted bind ends. */
module CloneOnce {
  import opened CloneController
  import opened CloneRuns

  // ---------------------------------------------------------------------------------------
  // At most one Clone call

  /** The persisted clone shows that its Clone call is behind it. */
  predicate Marked(s: CloneStatus) {
    s.targetVMID != "" || s.phase.Failed?
  }

  /** The provider has answered a Clone call and nothing persisted shows it yet. */
  predicate Unrecorded(w: World)
    requires w.clones != []
  {
    w.cloneCalls > 0 && !Marked(w.Clone())
  }

  /** The call throws away what the reconcile had in hand. */
  predicate Loses(call: Call) {
    call.Crash? || (call.PutClone? && !call.ok)
  }

  /**
    The clone's reconciles are serialized (thread 0) and read the current version, the provider
    names the VM it cloned, and its answer is not lost before it is persisted.  A crash or a
    failed write may come at any other point.
   */
  predicate Orderly(w: World, e: Event)
    requires w.clones != []
  {
    e.CloneCall? ==>
      && e.t == 0
      && (e.call.GetClone? ==> e.call.copy.version == |w.clones| - 1)
      && (e.call.CloneVm? && e.call.result.Cloned? ==> e.call.result.id != "")
      && !(Unrecorded(w) && Loses(e.call))
  }

  predicate OrderlyRun(w: World, requested: map<string, string>, es: seq<Event>)
    requires Runs(w, requested, es) && w.clones != []
    decreases |es|
  {
    es == [] || (Orderly(w, es[0]) && OrderlyRun(Next(w, requested, es[0]), requested, es[1..]))
  }

  /** The one answer is persisted, or in the hands of the reconcile that will persist it. */
  predicate Once(w: World) {
    && w.clones != []
    && (!w.At(0).Idle? ==>
          && w.At(0).c == Copy(|w.clones| - 1, w.Clone())
          && (!Resting(w.At(0)) ==> !w.Clone().Terminal())
          && (w.At(0).Checking? || w.At(0).Starting? ==> w.Target() == "")
          && (w.At(0).Polling? ==> w.Clone().taskRef != "")
          && (w.At(0).Saving? ==> !w.At(0).next.Terminal() && w.At(0).next.targetVMID != ""))
    && (w.Clone().taskRef != "" ==> w.Target() != "")
    && w.cloneCalls <= 1
    && (Unrecorded(w) ==> w.At(0).Saving? || w.At(0).Failing?)
  }

  lemma StepKeepsOnce(w: World, requested: map<string, string>, e: Event)
    requires Once(w) && Enabled(w, e) && Orderly(w, e)
    ensures Once(Next(w, requested, e))
  {
    if e.CloneCall? {
      CallKeepsOnce(w, requested, e.call);
    } else {
      assert Next(w, requested, e).threads == w.threads;
    }
  }

  lemma CallKeepsOnce(w: World, requested: map<string, string>, call: Call)
    requires Once(w) && Enabled(w, CloneCall(0, call)) && Orderly(w, CloneCall(0, call))
    ensures Once(Next(w, requested, CloneCall(0, call)))
  {
    var n := Next(w, requested, CloneCall(0, call));
    assert n.At(0) == After(w.At(0), call).value;
    if n.clones != w.clones {
      assert n.Clone() == call.status;
    }
  }

  lemma {:induction false} RunKeepsOnce(w: World, requested: map<string, string>, es: seq<Event>)
    requires Once(w) && Runs(w, requested, es) && OrderlyRun(w, requested, es)
    ensures Once(Ended(w, requested, es))
    decreases |es|
  {
    if es != [] {
      StepKeepsOnce(w, requested, es[0]);
      RunKeepsOnce(Next(w, requested, es[0]), requested, es[1..]);
    }
  }

  /** However often the clone is reconciled, interrupted and resumed, Clone is called at most once. */
  lemma {:induction false} ClonedAtMostOnce(requested: map<string, string>, es: seq<Event>)
    requires Runs(FRESH, requested, es) && OrderlyRun(FRESH, requested, es)
    ensures Ended(FRESH, requested, es).cloneCalls <= 1
  {
    assert FRESH.Clone() == CloneStatus(NoPhase, "", "");
    RunKeepsOnce(FRESH, requested, es);
  }

  // ---------------------------------------------------------------------------------------
  // Scripts: a reconcile that runs without interruption

  function Calls(t: nat, calls: seq<Call>): seq<Event> {
    seq(|calls|, i requires 0 <= i < |calls| => CloneCall(t, calls[i]))
  }

  predicate Holds(w: World, requested: map<string, string>, t: nat, calls: seq<Call>)
    decreases |calls|
  {
    calls == []
    || (&& Enabled(w, CloneCall(t, calls[0]))
        && Holds(Next(w, requested, CloneCall(t, calls[0])), requested, t, calls[1..]))
  }

  function Held(w: World, requested: map<string, string>, t: nat, calls: seq<Call>): World
    requires Holds(w, requested, t, calls)
    decreases |calls|
  {
    if calls == [] then w else Held(Next(w, requested, CloneCall(t, calls[0])), requested, t, calls[1..])
  }

  lemma {:induction false} HeldIsRun(w: World, requested: map<string, string>, t: nat, calls: seq<Call>)
    requires Holds(w, requested, t, calls)
    ensures Runs(w, requested, Calls(t, calls)) && Ended(w, requested, Calls(t, calls)) == Held(w, requested, t, calls)
    decreases |calls|
  {
    if calls != [] {
      assert Calls(t, calls)[0] == CloneCall(t, calls[0]) && Calls(t, calls)[1..] == Calls(t, calls[1..]);
      HeldIsRun(Next(w, requested, CloneCall(t, calls[0])), requested, t, calls[1..]);
    }
  }

  lemma {:induction false} HoldsConcat(w: World, requested: map<string, string>, t: nat, a: seq<Call>, b: seq<Call>)
    requires Holds(w, requested, t, a) && Holds(Held(w, requested, t, a), requested, t, b)
    ensures Holds(w, requested, t, a + b)
    ensures Held(w, requested, t, a + b) == Held(Held(w, requested, t, a), requested, t, b)
    decreases |a|
  {
    if a == [] {
      assert a + b == b;
    } else {
      assert (a + b)[0] == a[0] && (a + b)[1..] == a[1..] + b;
      HoldsConcat(Next(w, requested, CloneCall(t, a[0])), requested, t, a[1..], b);
    }
  }

  lemma {:induction false} Prepend(w: World, requested: map<string, string>, t: nat, call: Call, rest: seq<Call>)
    requires Enabled(w, CloneCall(t, call)) && Holds(Next(w, requested, CloneCall(t, call)), requested, t, rest)
    ensures Holds(w, requested, t, [call] + rest)
    ensures Held(w, requested, t, [call] + rest) == Held(Next(w, requested, CloneCall(t, call)), requested, t, rest)
  {
    assert ([call] + rest)[1..] == rest;
  }

  // ---------------------------------------------------------------------------------------
  // An interrupted bind resumes

  /** The clone is done, whichever way its target came to carry the id. */
  predicate Completed(w: World, n: World)
    requires w.clones != []
  {
    && n.clones != [] && n.vms != []
    && n.Clone() == ReadyStatus(w.Clone())
    && n.Vm().status.id == w.Target()
    && n.cloneCalls == w.cloneCalls
  }

  lemma FinishCompletes(w: World, requested: map<string, string>, t: nat)
    returns (calls: seq<Call>)
    requires w.clones != [] && w.vms != [] && w.Vm().status.id == w.Target()
    requires w.At(t) == Finishing(Copy(|w.clones| - 1, w.Clone()))
    ensures Holds(w, requested, t, calls) && Completed(w, Held(w, requested, t, calls))
  {
    var put := PutClone(|w.clones| - 1, ReadyStatus(w.Clone()), true);
    calls := [put];
    assert calls == [put] + [];
    Prepend(w, requested, t, put, []);
  }

  lemma SeedCompletes(w: World, requested: map<string, string>, t: nat)
    returns (calls: seq<Call>)
    requires w.clones != [] && w.vms != []
    requires w.At(t) == Seeding(Copy(|w.clones| - 1, w.Clone()), MAX_ATTEMPTS)
    ensures Holds(w, requested, t, calls) && Completed(w, Held(w, requested, t, calls))
  {
    var vm := VmCopy(|w.vms| - 1, w.Vm());
    var get := GetVm(Found(vm));
    var w1 := Next(w, requested, CloneCall(t, get));
    if w.Vm().status.id == w.Target() {
      var rest := FinishCompletes(w1, requested, t);
      Prepend(w, requested, t, get, rest);
      calls := [get] + rest;
    } else {
      var put := PutVm(vm.version, vm.Seeded(w.Target()), Stored);
      var w2 := Next(w1, requested, CloneCall(t, put));
      assert w2.Vm() == vm.Seeded(w.Target());
      var rest := FinishCompletes(w2, requested, t);
      Prepend(w1, requested, t, put, rest);
      Prepend(w, requested, t, get, [put] + rest);
      calls := [get] + ([put] + rest);
    }
  }

  lemma BindCompletes(w: World, requested: map<string, string>, t: nat)
    returns (calls: seq<Call>)
    requires w.clones != []
    requires w.At(t) == Binding(Copy(|w.clones| - 1, w.Clone()))
    ensures Holds(w, requested, t, calls) && Completed(w, Held(w, requested, t, calls))
  {
    if w.vms == [] {
      var get, create := GetVm(Missing), CreateVm(Created);
      var w1 := Next(w, requested, CloneCall(t, get));
      var w2 := Next(w1, requested, CloneCall(t, create));
      var rest := SeedCompletes(w2, requested, t);
      Prepend(w1, requested, t, create, rest);
      Prepend(w, requested, t, get, [create] + rest);
      calls := [get] + ([create] + rest);
    } else {
      var get := GetVm(Found(VmCopy(|w.vms| - 1, w.Vm())));
      var rest := SeedCompletes(Next(w, requested, CloneCall(t, get)), requested, t);
      Prepend(w, requested, t, get, rest);
      calls := [get] + rest;
    }
  }

  /**
    Wherever earlier reconciles were interrupted, once the target id is recorded one undisturbed
    reconcile finishes the job: it seeds the target, creating it if need be, marks the clone
    Ready, and does not clone again.
   */
  lemma PartialBindResumes(w: World, requested: map<string, string>, t: nat)
    returns (calls: seq<Call>)
    requires w.clones != [] && Resting(w.At(t))
    requires !w.Clone().Terminal() && w.Clone().taskRef == "" && w.Target() != ""
    ensures Runs(w, requested, Calls(t, calls))
    ensures Completed(w, Ended(w, requested, Calls(t, calls)))
  {
    var c := Copy(|w.clones| - 1, w.Clone());
    var get, go := GetClone(c), Resolve(Go);
    var w1 := Next(w, requested, CloneCall(t, get));
    var w2 := Next(w1, requested, CloneCall(t, go));
    var rest := BindCompletes(w2, requested, t);
    Prepend(w1, requested, t, go, rest);
    Prepend(w, requested, t, get, [go] + rest);
    calls := [get] + ([go] + rest);
    HeldIsRun(w, requested, t, calls);
  }

  // ---------------------------------------------------------------------------------------
  // The condition matters

  lemma AttemptEnds(w: World, requested: map<string, string>, t: nat, result: CloneAnswer)
    requires w.At(t).Checking?
    ensures var calls := [GetVm(Missing), CloneVm(result)];
            && Holds(w, requested, t, calls)
            && Held(w, requested, t, calls).cloneCalls == w.cloneCalls + 1
            && Held(w, requested, t, calls).clones == w.clones
  {
    var w1 := Next(w, requested, CloneCall(t, GetVm(Missing)));
    Prepend(w1, requested, t, CloneVm(result), []);
    Prepend(w, requested, t, GetVm(Missing), [CloneVm(result)] + []);
    assert [GetVm(Missing), CloneVm(result)] == [GetVm(Missing)] + ([CloneVm(result)] + []);
  }

  /** Calls of a reconcile of the current clone, up to and including one more Clone RPC. */
  function AnotherAttempt(w: World, result: CloneAnswer): seq<Call>
    requires w.clones != []
  {
    [GetClone(Copy(|w.clones| - 1, w.Clone())), Resolve(Go), GetVm(Missing), CloneVm(result)]
  }

  lemma AttemptHolds(w: World, requested: map<string, string>, t: nat, result: CloneAnswer)
    requires w.clones != [] && Resting(w.At(t))
    requires !w.Clone().Terminal() && w.Clone().taskRef == "" && w.Target() == ""
    ensures Holds(w, requested, t, AnotherAttempt(w, result))
    ensures Held(w, requested, t, AnotherAttempt(w, result)).cloneCalls == w.cloneCalls + 1
    ensures Held(w, requested, t, AnotherAttempt(w, result)).clones == w.clones
  {
    var get, go, rest :=
      GetClone(Copy(|w.clones| - 1, w.Clone())), Resolve(Go), [GetVm(Missing), CloneVm(result)];
    var w1 := Next(w, requested, CloneCall(t, get));
    AttemptEnds(Next(w1, requested, CloneCall(t, go)), requested, t, result);
    Prepend(w1, requested, t, go, rest);
    Prepend(w, requested, t, get, [go] + rest);
    assert AnotherAttempt(w, result) == [get] + ([go] + rest);
  }

  /**
    The converse of ClonedAtMostOnce.  In every orderly state in which the provider's answer is
    not persisted yet, any call that throws it away, a crash or a failed write, lets the next
    reconcile call Clone once more.
   */
  lemma LostAnswerClonesAgain(w: World, requested: map<string, string>, call: Call, result: CloneAnswer)
    requires Once(w) && Unrecorded(w) && Enabled(w, CloneCall(0, call)) && Loses(call)
    ensures var lost := Next(w, requested, CloneCall(0, call));
            && lost.clones == w.clones
            && Holds(lost, requested, 0, AnotherAttempt(w, result))
            && Held(lost, requested, 0, AnotherAttempt(w, result)).cloneCalls == w.cloneCalls + 1
  {
    var lost := Next(w, requested, CloneCall(0, call));
    assert lost.At(0) == Idle && lost.clones == w.clones;
    AttemptHolds(lost, requested, 0, result);
  }

  /** From nothing: an answer, a loss, and a second call. */
  lemma {:induction false} ClonedTwice(requested: map<string, string>, first: CloneAnswer, second: CloneAnswer)
    returns (es: seq<Event>)
    ensures Runs(FRESH, requested, es) && Ended(FRESH, requested, es).cloneCalls == 2
  {
    AttemptHolds(FRESH, requested, 0, first);
    var w := Held(FRESH, requested, 0, AnotherAttempt(FRESH, first));
    var crashed := Next(w, requested, CloneCall(0, Crash));
    assert crashed.clones == FRESH.clones && crashed.At(0) == Idle;
    AttemptHolds(crashed, requested, 0, second);
    Prepend(w, requested, 0, Crash, AnotherAttempt(crashed, second));
    HoldsConcat(FRESH, requested, 0, AnotherAttempt(FRESH, first), [Crash] + AnotherAttempt(crashed, second));
    var calls := AnotherAttempt(FRESH, first) + ([Crash] + AnotherAttempt(crashed, second));
    HeldIsRun(FRESH, requested, 0, calls);
    es := Calls(0, calls);
  }
}
