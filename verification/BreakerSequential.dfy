/**
  The circuit breaker under one caller at a time.  For calls that do not overlap it refines a
  three-mode description of the pattern, and its transitions are read off the call history.
 */
module BreakerSequential {
  import opened CircuitBreaker

  /** The breaker after a history of non-overlapping attempts. */
  function After(cfg: Config, b: Breaker, h: seq<Attempt>): Breaker
    decreases |h|
  {
    if h == [] then b else CallOnce(cfg, After(cfg, b, h[..|h| - 1]), h[|h| - 1])
  }

  // ---------------------------------------------------------------------------------------
  // The reference

  /** Counting a streak of failures, tripped since a time, or probing with a streak of successes. */
  datatype Mode = Counting(failures: nat) | Tripped(since: int) | Probing(successes: nat)

  function Failing(cfg: Config, streak: nat, at: int): Mode {
    if streak >= cfg.failureThreshold then Tripped(at) else Counting(streak)
  }

  function Succeeding(cfg: Config, streak: nat): Mode {
    if streak >= cfg.halfOpenMaxCalls then Counting(0) else Probing(streak)
  }

  function Next(cfg: Config, m: Mode, a: Attempt): Mode {
    match m
    case Counting(n) => if a.failed then Failing(cfg, n + 1, a.end) else Counting(0)
    case Tripped(since) =>
      if a.start - since <= cfg.resetTimeout then m
      else if a.failed then Tripped(a.end) else Succeeding(cfg, 1)
    case Probing(n) => if a.failed then Tripped(a.end) else Succeeding(cfg, n + 1)
  }

  function Fold(cfg: Config, m: Mode, h: seq<Attempt>): Mode
    decreases |h|
  {
    if h == [] then m else Next(cfg, Fold(cfg, m, h[..|h| - 1]), h[|h| - 1])
  }

  /** What the breaker's fields mean when no call is in flight. */
  predicate Represents(cfg: Config, b: Breaker, m: Mode) {
    match m
    case Counting(n) => b.state == Closed && b.failures == n < cfg.failureThreshold && b.halfOpenCalls == 0
    case Tripped(since) => b.state == Open && b.lastFailure == since && b.halfOpenCalls == 0
    case Probing(n) => b.state == HalfOpen && 1 <= n == b.halfOpenCalls < cfg.halfOpenMaxCalls
  }

  lemma CallRefines(cfg: Config, b: Breaker, m: Mode, a: Attempt)
    requires Sensible(cfg) && Represents(cfg, b, m)
    ensures Represents(cfg, CallOnce(cfg, b, a), Next(cfg, m, a))
  {
  }

  /** For every history of non-overlapping calls the breaker is the fold of the reference. */
  lemma {:induction false} SequentialRefinement(cfg: Config, b: Breaker, m: Mode, h: seq<Attempt>)
    requires Sensible(cfg) && Represents(cfg, b, m)
    ensures Represents(cfg, After(cfg, b, h), Fold(cfg, m, h))
    decreases |h|
  {
    if h != [] {
      SequentialRefinement(cfg, b, m, h[..|h| - 1]);
      CallRefines(cfg, After(cfg, b, h[..|h| - 1]), Fold(cfg, m, h[..|h| - 1]), h[|h| - 1]);
    }
  }

  // ---------------------------------------------------------------------------------------
  // Transitions as properties of the history

  /** How many attempts at the end of the history failed in a row. */
  function FailureStreak(h: seq<Attempt>): nat {
    if h == [] || !h[|h| - 1].failed then 0 else 1 + FailureStreak(h[..|h| - 1])
  }

  predicate ShorterStreaksBefore(cfg: Config, h: seq<Attempt>) {
    forall i :: 0 <= i < |h| ==> FailureStreak(h[..i]) < cfg.failureThreshold
  }

  /** A new breaker opens exactly when FailureThreshold attempts in a row have failed, at the last of them. */
  lemma {:induction false} OpensAtThreshold(cfg: Config, h: seq<Attempt>)
    requires Sensible(cfg) && ShorterStreaksBefore(cfg, h)
    ensures var b := After(cfg, NEW_BREAKER, h);
            && b.failures == FailureStreak(h) <= cfg.failureThreshold
            && (b.state == Open <==> FailureStreak(h) == cfg.failureThreshold)
            && (b.state == Open || b.state == Closed) && b.halfOpenCalls == 0
            && (b.state == Open ==> b.lastFailure == h[|h| - 1].end)
    decreases |h|
  {
    if h != [] {
      var before := h[..|h| - 1];
      assert forall i :: 0 <= i < |before| ==> before[..i] == h[..i];
      OpensAtThreshold(cfg, before);
      assert FailureStreak(h[..|h| - 1]) < cfg.failureThreshold;
    }
  }

  /** The attempt reaches a breaker that opened at `since` after its timeout. */
  predicate Late(cfg: Config, since: int, a: Attempt) {
    a.start - since > cfg.resetTimeout
  }

  predicate AllSucceed(h: seq<Attempt>) {
    forall i :: 0 <= i < |h| ==> !h[i].failed
  }

  /**
    An open breaker whose first attempt comes after the timeout stays half-open through fewer
    than HalfOpenMaxCalls successes in a row and closes exactly at that number.
   */
  lemma {:induction false} ClosesAfterProbes(cfg: Config, b: Breaker, h: seq<Attempt>)
    requires Sensible(cfg) && b.state == Open && 1 <= |h| <= cfg.halfOpenMaxCalls
    requires Late(cfg, b.lastFailure, h[0]) && AllSucceed(h)
    ensures if |h| == cfg.halfOpenMaxCalls then After(cfg, b, h).state == Closed && After(cfg, b, h).failures == 0
            else After(cfg, b, h).state == HalfOpen && After(cfg, b, h).halfOpenCalls == |h|
    decreases |h|
  {
    if |h| == 1 {
      assert h[..0] == [];
    } else {
      ClosesAfterProbes(cfg, b, h[..|h| - 1]);
    }
  }

  /** Any failure among the probes reopens the breaker, timed from that failure. */
  lemma {:induction false} ReopensOnFailure(cfg: Config, b: Breaker, h: seq<Attempt>, a: Attempt)
    requires Sensible(cfg) && b.state == Open && |h| < cfg.halfOpenMaxCalls && a.failed
    requires AllSucceed(h) && Late(cfg, b.lastFailure, (h + [a])[0])
    ensures After(cfg, b, h + [a]).state == Open && After(cfg, b, h + [a]).lastFailure == a.end
  {
    assert (h + [a])[..|h|] == h;
    if h != [] {
      ClosesAfterProbes(cfg, b, h);
    }
  }

  /** Attempts within the timeout never run the wrapped function and change nothing. */
  lemma {:induction false} RejectsWithinTimeout(cfg: Config, b: Breaker, h: seq<Attempt>)
    requires b.state == Open && forall i :: 0 <= i < |h| ==> !Late(cfg, b.lastFailure, h[i])
    ensures After(cfg, b, h) == b
    decreases |h|
  {
    if h != [] {
      RejectsWithinTimeout(cfg, b, h[..|h| - 1]);
    }
  }
}
