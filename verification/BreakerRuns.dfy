/**
  The circuit breaker under concurrent callers: every interleaving of admissions, late results
  and resets, along a clock that never runs backwards.
 */
module BreakerRuns {
  import opened Common
  import opened CircuitBreaker

  /** The half-open window that admitted a call; None for a call admitted while Closed. */
  type Window = Option<nat>

  datatype System = System(
    breaker: Breaker, clock: int,
    inFlight: map<nat, Window>, next: nat,
    starts: seq<int>,      // when each half-open window began
    probesOk: nat,         // probes of the current window that have succeeded
    admitted: nat)
  {
    /** The probes of the current window that have not returned. */
    function OpenProbes(): set<nat> {
      set id | id in inFlight && inFlight[id] == Some(|starts|)
    }
  }

  datatype Event = Attempted(at: int) | Finished(id: nat, failed: bool, at: int) | WasReset(at: int)

  predicate Enabled(s: System, e: Event) {
    e.at >= s.clock && (e.Finished? ==> e.id in s.inFlight)
  }

  function Admit(cfg: Config, s: System, at: int): System {
    var (b, ok) := Allow(cfg, s.breaker, at);
    var begins := s.breaker.state == Open && b.state == HalfOpen;
    var starts := if begins then s.starts + [at] else s.starts;
    var admitted := s.(breaker := b, clock := at, starts := starts, probesOk := if begins then 0 else s.probesOk);
    if ok then
      admitted.(inFlight := s.inFlight[s.next := if b.state == HalfOpen then Some(|starts|) else None],
                next := s.next + 1, admitted := s.admitted + 1)
    else admitted
  }

  function Finish(cfg: Config, s: System, id: nat, failed: bool, at: int): System
    requires id in s.inFlight
  {
    var isProbe := s.breaker.state == HalfOpen && s.inFlight[id] == Some(|s.starts|);
    s.(breaker := Record(cfg, s.breaker, failed, at), clock := at, inFlight := s.inFlight - {id},
       probesOk := if isProbe && !failed then s.probesOk + 1 else s.probesOk)
  }

  function Step(cfg: Config, s: System, e: Event): System
    requires Enabled(s, e)
  {
    match e
    case Attempted(at) => Admit(cfg, s, at)
    case Finished(id, failed, at) => Finish(cfg, s, id, failed, at)
    case WasReset(at) => s.(breaker := ToClosed(s.breaker), clock := at)
  }

  predicate ValidRun(cfg: Config, s: System, es: seq<Event>)
    decreases |es|
  {
    es == [] || (ValidRun(cfg, s, es[..|es| - 1]) && Enabled(Run(cfg, s, es[..|es| - 1]), es[|es| - 1]))
  }

  function Run(cfg: Config, s: System, es: seq<Event>): System
    decreases |es|
  {
    if es == [] then s
    else
      var before := Run(cfg, s, es[..|es| - 1]);
      if Enabled(before, es[|es| - 1]) then Step(cfg, before, es[|es| - 1]) else before
  }

  lemma {:induction false} RunSnoc(cfg: Config, s: System, es: seq<Event>, e: Event)
    requires ValidRun(cfg, s, es) && Enabled(Run(cfg, s, es), e)
    ensures ValidRun(cfg, s, es + [e]) && Run(cfg, s, es + [e]) == Step(cfg, Run(cfg, s, es), e)
  {
    assert (es + [e])[..|es|] == es;
  }

  function Fresh(clock: int): System {
    System(NEW_BREAKER, clock, map[], 0, [], 0, 0)
  }

  // ---------------------------------------------------------------------------------------
  // The invariant of every interleaving

  predicate CountersAgree(cfg: Config, b: Breaker) {
    && (b.state == Closed <==> b.failures < cfg.failureThreshold)
    && (if b.state == HalfOpen then 1 <= b.halfOpenCalls <= cfg.halfOpenMaxCalls else b.halfOpenCalls == 0)
  }

  /** Every admission of the current window is accounted for: returned with success, or still in flight. */
  predicate ProbesAccounted(cfg: Config, s: System) {
    s.breaker.state == HalfOpen ==>
      && s.probesOk + |s.OpenProbes()| == s.breaker.halfOpenCalls
      && (s.breaker.halfOpenCalls == cfg.halfOpenMaxCalls ==> s.OpenProbes() != {})
  }

  predicate BreakerInv(cfg: Config, s: System) {
    && CountersAgree(cfg, s.breaker)
    && ProbesAccounted(cfg, s)
    && (forall id :: id in s.inFlight ==> id < s.next && (s.inFlight[id].Some? ==> s.inFlight[id].value <= |s.starts|))
  }

  lemma AdmitProbes(cfg: Config, s: System, at: int)
    requires BreakerInv(cfg, s)
    ensures var s' := Admit(cfg, s, at);
            s'.breaker.state == HalfOpen ==>
              s'.OpenProbes() == (if s.breaker.state == HalfOpen then s.OpenProbes() else {})
                                 + (if s'.admitted > s.admitted then {s.next} else {})
  {
  }

  lemma AdmitKeeps(cfg: Config, s: System, at: int)
    requires Sensible(cfg) && BreakerInv(cfg, s)
    ensures BreakerInv(cfg, Admit(cfg, s, at))
  {
    AdmitProbes(cfg, s, at);
  }

  lemma FinishProbes(cfg: Config, s: System, id: nat, failed: bool, at: int)
    requires id in s.inFlight
    ensures Finish(cfg, s, id, failed, at).OpenProbes() == s.OpenProbes() - {id}
    ensures id in s.OpenProbes() <==> s.inFlight[id] == Some(|s.starts|)
  {
  }

  lemma FinishKeeps(cfg: Config, s: System, id: nat, failed: bool, at: int)
    requires Sensible(cfg) && BreakerInv(cfg, s) && id in s.inFlight
    ensures BreakerInv(cfg, Finish(cfg, s, id, failed, at))
  {
    FinishProbes(cfg, s, id, failed, at);
  }

  lemma StepKeeps(cfg: Config, s: System, e: Event)
    requires Sensible(cfg) && BreakerInv(cfg, s) && Enabled(s, e)
    ensures BreakerInv(cfg, Step(cfg, s, e))
  {
    match e {
      case Attempted(at) => AdmitKeeps(cfg, s, at);
      case Finished(id, failed, at) => FinishKeeps(cfg, s, id, failed, at);
      case WasReset(at) =>
    }
  }

  /**
    In every interleaving from a new breaker: Closed exactly while failures are below the
    threshold, half-open admissions between one and the maximum and zero elsewhere, and a full
    half-open window always has one of its own probes still in flight.
   */
  lemma {:induction false} BreakerInvariant(cfg: Config, clock: int, es: seq<Event>)
    requires Sensible(cfg) && ValidRun(cfg, Fresh(clock), es)
    ensures BreakerInv(cfg, Run(cfg, Fresh(clock), es))
    decreases |es|
  {
    if es != [] {
      BreakerInvariant(cfg, clock, es[..|es| - 1]);
      StepKeeps(cfg, Run(cfg, Fresh(clock), es[..|es| - 1]), es[|es| - 1]);
    }
  }

  // ---------------------------------------------------------------------------------------
  // No wedge

  /** The breaker admits a call attempted at that time. */
  predicate Admits(cfg: Config, b: Breaker, at: int) {
    Allow(cfg, b, at).1
  }

  /**
    No reachable state is stuck: either every sufficiently late call is admitted, or a probe of
    the full window is in flight and, whichever way it returns, late calls are admitted again.
   */
  lemma {:induction false} NoWedge(cfg: Config, clock: int, es: seq<Event>, late: int)
    requires Sensible(cfg) && ValidRun(cfg, Fresh(clock), es)
    requires var s := Run(cfg, Fresh(clock), es);
             late > Max(s.clock, s.breaker.lastFailure) + Max(0, cfg.resetTimeout)
    ensures var s := Run(cfg, Fresh(clock), es);
            || Admits(cfg, s.breaker, late)
            || (exists id :: id in s.OpenProbes()
                  && (forall failed :: Admits(cfg, Finish(cfg, s, id, failed, s.clock).breaker, late)))
  {
    BreakerInvariant(cfg, clock, es);
    var s := Run(cfg, Fresh(clock), es);
    if !Admits(cfg, s.breaker, late) {
      var id :| id in s.OpenProbes();
      forall failed
        ensures Admits(cfg, Finish(cfg, s, id, failed, s.clock).breaker, late)
      {
      }
    }
  }

  predicate ResetFree(es: seq<Event>) {
    forall e :: e in es ==> !e.WasReset?
  }

  /** A run without resets in which one more call is admitted. */
  predicate Reopens(cfg: Config, s: System, es: seq<Event>) {
    ResetFree(es) && ValidRun(cfg, s, es) && Run(cfg, s, es).admitted > s.admitted
  }

  /** Tripped, with no probe admitted and nothing that could still report. */
  predicate Wedged(s: System, now: System) {
    && now.inFlight == map[] && now.admitted == s.admitted
    && (now.breaker.state == Open || (now.breaker.state == HalfOpen && now.breaker.halfOpenCalls == 0))
  }

  lemma {:induction false} WedgedForever(cfg: Config, s: System, es: seq<Event>)
    requires cfg.halfOpenMaxCalls < 1 && s.breaker.state == Open && s.inFlight == map[]
    requires ResetFree(es) && ValidRun(cfg, s, es)
    ensures Wedged(s, Run(cfg, s, es))
    decreases |es|
  {
    if es != [] {
      assert es[|es| - 1] in es;
      WedgedForever(cfg, s, es[..|es| - 1]);
    }
  }

  /** The time of an attempt that finds the timeout over. */
  function Late(cfg: Config, s: System): int {
    Max(s.clock, s.breaker.lastFailure + cfg.resetTimeout + 1)
  }

  lemma {:induction false} ProbeReopens(cfg: Config, s: System) returns (es: seq<Event>)
    requires cfg.halfOpenMaxCalls >= 1 && s.breaker.state == Open
    ensures Reopens(cfg, s, es)
  {
    RunSnoc(cfg, s, [], Attempted(Late(cfg, s)));
    es := [] + [Attempted(Late(cfg, s))];
  }

  /** An attempt that is refused but leaves Open, a late success that closes, and an attempt. */
  lemma {:induction false} LateSuccessReopens(cfg: Config, s: System, id: nat) returns (es: seq<Event>)
    requires cfg.halfOpenMaxCalls < 1 && s.breaker.state == Open && id in s.inFlight
    ensures Reopens(cfg, s, es)
  {
    var at := Late(cfg, s);
    RunSnoc(cfg, s, [], Attempted(at));
    es := [] + [Attempted(at)];
    assert Run(cfg, s, es).breaker.state == HalfOpen;
    RunSnoc(cfg, s, es, Finished(id, false, at));
    es := es + [Finished(id, false, at)];
    assert Run(cfg, s, es).breaker.state == Closed;
    RunSnoc(cfg, s, es, Attempted(at));
    es := es + [Attempted(at)];
  }

  /**
    When an Open breaker recovers.  From every system with the breaker Open some run without resets
    admits a call again if and only if HalfOpenMaxCalls is positive or a call is still in flight:
    with a smaller maximum only the late success of such a call can close the breaker.
   */
  lemma {:induction false} OpensAgainIff(cfg: Config, s: System)
    requires s.breaker.state == Open
    ensures (exists es :: Reopens(cfg, s, es)) <==> cfg.halfOpenMaxCalls >= 1 || s.inFlight != map[]
  {
    if cfg.halfOpenMaxCalls >= 1 {
      var es := ProbeReopens(cfg, s);
    } else if s.inFlight != map[] {
      var id :| id in s.inFlight;
      var es := LateSuccessReopens(cfg, s, id);
    } else {
      forall es | ResetFree(es) && ValidRun(cfg, s, es)
        ensures Run(cfg, s, es).admitted == s.admitted
      {
        WedgedForever(cfg, s, es);
      }
    }
  }

  // ---------------------------------------------------------------------------------------
  // What closing certifies

  /** The step closes a half-open breaker. */
  predicate Closes(cfg: Config, s: System, id: nat, failed: bool, at: int)
    requires id in s.inFlight
  {
    s.breaker.state == HalfOpen && Finish(cfg, s, id, failed, at).breaker.state == Closed
  }

  /**
    Closing counts admissions, not successes: when a result closes the breaker, all
    HalfOpenMaxCalls probes of the window have succeeded if and only if none of them is still
    in flight.
   */
  lemma {:induction false} ClosingCertifiesIff(cfg: Config, clock: int, es: seq<Event>, id: nat, failed: bool, at: int)
    requires Sensible(cfg) && ValidRun(cfg, Fresh(clock), es)
    requires id in Run(cfg, Fresh(clock), es).inFlight && Closes(cfg, Run(cfg, Fresh(clock), es), id, failed, at)
    ensures var after := Finish(cfg, Run(cfg, Fresh(clock), es), id, failed, at);
            after.probesOk == cfg.halfOpenMaxCalls <==> after.OpenProbes() == {}
  {
    BreakerInvariant(cfg, clock, es);
    var s := Run(cfg, Fresh(clock), es);
    FinishProbes(cfg, s, id, failed, at);
    var after := Finish(cfg, s, id, failed, at);
    if after.OpenProbes() != {} {
      assert |after.OpenProbes()| > 0;
    }
  }

  /** Two overlapping probes: the first success closes the breaker while the other probe is still in flight. */
  lemma ClosesOnOneSuccessOfTwo()
    ensures var cfg, es := Config(1, 10, 2),
              [Attempted(0), Finished(0, true, 0), Attempted(20), Attempted(21), Finished(1, false, 30)];
            && ValidRun(cfg, Fresh(0), es)
            && Run(cfg, Fresh(0), es).breaker.state == Closed
            && Run(cfg, Fresh(0), es).probesOk == 1
            && Run(cfg, Fresh(0), es).OpenProbes() == {2}
  {
    var cfg := Config(1, 10, 2);
    var es := [];
    RunSnoc(cfg, Fresh(0), es, Attempted(0));
    es := es + [Attempted(0)];
    assert Run(cfg, Fresh(0), es) == System(NEW_BREAKER, 0, map[0 := None], 1, [], 0, 1);
    RunSnoc(cfg, Fresh(0), es, Finished(0, true, 0));
    es := es + [Finished(0, true, 0)];
    assert Run(cfg, Fresh(0), es) == System(Breaker(Open, 1, 0, 0), 0, map[], 1, [], 0, 1);
    RunSnoc(cfg, Fresh(0), es, Attempted(20));
    es := es + [Attempted(20)];
    assert Run(cfg, Fresh(0), es) == System(Breaker(HalfOpen, 1, 0, 1), 20, map[1 := Some(1)], 2, [20], 0, 2);
    RunSnoc(cfg, Fresh(0), es, Attempted(21));
    es := es + [Attempted(21)];
    assert Run(cfg, Fresh(0), es)
        == System(Breaker(HalfOpen, 1, 0, 2), 21, map[1 := Some(1), 2 := Some(1)], 3, [20], 0, 3);
    RunSnoc(cfg, Fresh(0), es, Finished(1, false, 30));
    es := es + [Finished(1, false, 30)];
    assert es == [Attempted(0), Finished(0, true, 0), Attempted(20), Attempted(21), Finished(1, false, 30)];
  }

  // ---------------------------------------------------------------------------------------
  // Load shedding

  /** The breaker has just opened at t0; calls admitted earlier may still be in flight. */
  predicate JustOpened(s: System, t0: int) {
    s.breaker.state == Open && s.breaker.halfOpenCalls == 0 && s.breaker.lastFailure == t0 && s.clock == t0
  }

  /** Every result that opens the breaker leaves it just opened at the time of that result. */
  lemma OpeningIsJustOpened(cfg: Config, s: System, id: nat, failed: bool, at: int)
    requires id in s.inFlight && s.breaker.state != Open
    requires Finish(cfg, s, id, failed, at).breaker.state == Open
    requires s.breaker.state == Closed ==> s.breaker.halfOpenCalls == 0
    ensures JustOpened(Finish(cfg, s, id, failed, at), at) && failed
  {
  }

  /** The run neither closes nor resets the breaker. */
  predicate StaysTripped(cfg: Config, s: System, es: seq<Event>) {
    && ResetFree(es)
    && (forall i :: 0 <= i <= |es| ==> Run(cfg, s, es[..i]).breaker.state != Closed)
  }

  predicate ShedInv(cfg: Config, s: System, now: System, t0: int) {
    var k := |now.starts| - |s.starts|;
    && k >= 0 && s.starts == now.starts[..|s.starts|]
    && (forall i :: |s.starts| <= i < |now.starts| ==> now.starts[i] > t0 + (i - |s.starts| + 1) * cfg.resetTimeout)
    && now.breaker.state != Closed
    && now.clock >= t0 + k * cfg.resetTimeout && (k > 0 ==> now.clock > t0 + k * cfg.resetTimeout)
    && (now.breaker.state == Open ==>
          && now.breaker.lastFailure >= t0 + k * cfg.resetTimeout
          && now.admitted - s.admitted <= cfg.halfOpenMaxCalls * k)
    && (now.breaker.state == HalfOpen ==>
          && k > 0 && 0 <= now.breaker.halfOpenCalls <= cfg.halfOpenMaxCalls
          && now.admitted - s.admitted <= cfg.halfOpenMaxCalls * (k - 1) + now.breaker.halfOpenCalls)
  }

  lemma MulStep(a: int, k: int)
    ensures a * (k + 1) == a * k + a && (k + 1) * a == k * a + a
  {
  }

  lemma ShedAttempt(cfg: Config, s: System, now: System, t0: int, at: int)
    requires Sensible(cfg) && cfg.resetTimeout >= 1 && ShedInv(cfg, s, now, t0) && at >= now.clock
    ensures ShedInv(cfg, s, Admit(cfg, now, at), t0)
  {
    var k := |now.starts| - |s.starts|;
    MulStep(cfg.resetTimeout, k);
    MulStep(cfg.halfOpenMaxCalls, k - 1);
    MulStep(cfg.halfOpenMaxCalls, k);
  }

  lemma ShedFinish(cfg: Config, s: System, now: System, t0: int, id: nat, failed: bool, at: int)
    requires Sensible(cfg) && cfg.resetTimeout >= 1 && ShedInv(cfg, s, now, t0) && at >= now.clock && id in now.inFlight
    requires Finish(cfg, now, id, failed, at).breaker.state != Closed
    ensures ShedInv(cfg, s, Finish(cfg, now, id, failed, at), t0)
  {
    var k := |now.starts| - |s.starts|;
    MulStep(cfg.halfOpenMaxCalls, k - 1);
  }

  lemma {:induction false} ShedInvariant(cfg: Config, s: System, es: seq<Event>, t0: int)
    requires Sensible(cfg) && cfg.resetTimeout >= 1
    requires JustOpened(s, t0) && ValidRun(cfg, s, es) && StaysTripped(cfg, s, es)
    ensures ShedInv(cfg, s, Run(cfg, s, es), t0)
    decreases |es|
  {
    if es != [] {
      var before := es[..|es| - 1];
      assert forall i :: 0 <= i <= |before| ==> before[..i] == es[..i];
      ShedInvariant(cfg, s, before, t0);
      assert es[..|es|] == es && es[|es| - 1] in es;
      match es[|es| - 1] {
        case Attempted(at) => ShedAttempt(cfg, s, Run(cfg, s, before), t0, at);
        case Finished(id, failed, at) => ShedFinish(cfg, s, Run(cfg, s, before), t0, id, failed, at);
      }
    }
  }

  lemma WindowsFit(k: nat, r: int, t: int)
    requires r >= 1 && k * r <= t
    ensures k <= t / r
  {
    var q := t / r;
    assert t == q * r + t % r;
    if k >= q + 1 {
      ScaleOrder(r, q + 1, k);
      MulStep(r, q);
      assert false;
    }
  }

  lemma ScaleOrder(h: int, p: int, q: int)
    requires h >= 0 && p <= q
    ensures h * p <= h * q
  {
    assert h * q - h * p == h * (q - p);
  }

  /**
    Load shedding.  From the moment the breaker opens at t0 until it closes or is reset, in
    every interleaving with late results, the k-th half-open window starts later than
    t0 + k * ResetTimeout, and at most HalfOpenMaxCalls calls per elapsed ResetTimeout are
    admitted.
   */
  lemma {:induction false} LoadShedding(cfg: Config, s: System, es: seq<Event>, t0: int)
    requires Sensible(cfg) && cfg.resetTimeout >= 1
    requires JustOpened(s, t0) && ValidRun(cfg, s, es) && StaysTripped(cfg, s, es)
    ensures var end := Run(cfg, s, es);
            && (forall i :: |s.starts| <= i < |end.starts| ==>
                  end.starts[i] > t0 + (i - |s.starts| + 1) * cfg.resetTimeout)
            && end.admitted - s.admitted <= cfg.halfOpenMaxCalls * ((end.clock - t0) / cfg.resetTimeout)
  {
    ShedInvariant(cfg, s, es, t0);
    AdmissionsFit(cfg, s, Run(cfg, s, es), t0);
  }

  lemma AdmissionsFit(cfg: Config, s: System, end: System, t0: int)
    requires Sensible(cfg) && cfg.resetTimeout >= 1 && ShedInv(cfg, s, end, t0)
    ensures end.admitted - s.admitted <= cfg.halfOpenMaxCalls * ((end.clock - t0) / cfg.resetTimeout)
  {
    var k := |end.starts| - |s.starts|;
    WindowsFit(k, cfg.resetTimeout, end.clock - t0);
    MulStep(cfg.halfOpenMaxCalls, k - 1);
    ScaleOrder(cfg.halfOpenMaxCalls, k, (end.clock - t0) / cfg.resetTimeout);
  }
}
