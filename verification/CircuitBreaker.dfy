/**
  The circuit breaker that protects provider calls.

  `Breaker` and its transition functions specify the mutex-protected steps; the class below
  performs them in place.  The rest of the model interleaves those steps: calls overlap, so a
  result may be recorded long after the state that admitted the call is gone.
 */
module CircuitBreaker {
  import opened Common

  datatype State = Closed | HalfOpen | Open

  /** Times and durations are nanosecond counts. */
  datatype Config = Config(failureThreshold: int, resetTimeout: int, halfOpenMaxCalls: int)

  const DEFAULT_CONFIG := Config(10, 60_000_000_000, 3)

  /** A configuration under which the breaker can open and can be probed. */
  predicate Sensible(cfg: Config) {
    cfg.failureThreshold >= 1 && cfg.halfOpenMaxCalls >= 1
  }

  datatype Breaker = Breaker(state: State, failures: int, lastFailure: int, halfOpenCalls: int)

  const NEW_BREAKER := Breaker(Closed, 0, 0, 0)

  // ---------------------------------------------------------------------------------------
  // The atomic steps

  function ToClosed(b: Breaker): Breaker {
    b.(state := Closed, failures := 0, halfOpenCalls := 0)
  }

  function ToOpen(b: Breaker): Breaker {
    b.(state := Open, halfOpenCalls := 0)
  }

  function Probe(cfg: Config, b: Breaker): (Breaker, bool) {
    if b.halfOpenCalls < cfg.halfOpenMaxCalls then (b.(halfOpenCalls := b.halfOpenCalls + 1), true) else (b, false)
  }

  function Allow(cfg: Config, b: Breaker, now: int): (Breaker, bool) {
    match b.state
    case Closed => (b, true)
    case Open =>
      if now - b.lastFailure <= cfg.resetTimeout then (b, false)
      else Probe(cfg, b.(state := HalfOpen, halfOpenCalls := 0))
    case HalfOpen => Probe(cfg, b)
  }

  function RecordFailure(cfg: Config, b: Breaker, now: int): Breaker {
    var counted := b.(failures := b.failures + 1, lastFailure := now);
    match b.state
    case Closed => if counted.failures >= cfg.failureThreshold then ToOpen(counted) else counted
    case HalfOpen => ToOpen(counted)
    case Open => counted
  }

  function RecordSuccess(cfg: Config, b: Breaker): Breaker {
    match b.state
    case HalfOpen => if b.halfOpenCalls >= cfg.halfOpenMaxCalls then ToClosed(b) else b
    case Closed => b.(failures := 0)
    case Open => b
  }

  function Record(cfg: Config, b: Breaker, failed: bool, now: int): Breaker {
    if failed then RecordFailure(cfg, b, now) else RecordSuccess(cfg, b)
  }

  /** The breaker object: every method is one critical section. */
  class CircuitBreaker {
    const config: Config
    var state: State
    var failures: int
    var lastFailureTime: int
    var halfOpenCalls: int

    function View(): Breaker
      reads this
    {
      Breaker(state, failures, lastFailureTime, halfOpenCalls)
    }

    constructor (config: Option<Config>)
      ensures this.config == (if config.Some? then config.value else DEFAULT_CONFIG)
      ensures View() == NEW_BREAKER
    {
      this.config := if config.Some? then config.value else DEFAULT_CONFIG;
      state, failures, lastFailureTime, halfOpenCalls := Closed, 0, 0, 0;
    }

    method AllowCall(now: int) returns (allowed: bool)
      modifies this
      ensures (View(), allowed) == Allow(config, old(View()), now)
    {
      if state == Closed {
        return true;
      }
      if state == Open {
        if now - lastFailureTime <= config.resetTimeout {
          return false;
        }
        TransitionToHalfOpen();
      }
      if halfOpenCalls < config.halfOpenMaxCalls {
        halfOpenCalls := halfOpenCalls + 1;
        return true;
      }
      return false;
    }

    method RecordResult(failed: bool, now: int)
      modifies this
      ensures View() == Record(config, old(View()), failed, now)
    {
      if failed {
        failures := failures + 1;
        lastFailureTime := now;
        match state {
          case Closed =>
            if failures >= config.failureThreshold {
              TransitionToOpen();
            }
          case HalfOpen => TransitionToOpen();
          case Open =>
        }
      } else {
        match state {
          case HalfOpen =>
            if halfOpenCalls >= config.halfOpenMaxCalls {
              TransitionToClosed();
            }
          case Closed => failures := 0;
          case Open =>
        }
      }
    }

    method TransitionToClosed()
      modifies this
      ensures View() == ToClosed(old(View()))
    {
      state, failures, halfOpenCalls := Closed, 0, 0;
    }

    method TransitionToOpen()
      modifies this
      ensures View() == ToOpen(old(View()))
    {
      state, halfOpenCalls := Open, 0;
    }

    method TransitionToHalfOpen()
      modifies this
      ensures View() == old(View()).(state := HalfOpen, halfOpenCalls := 0)
    {
      state, halfOpenCalls := HalfOpen, 0;
    }

    method Reset()
      modifies this
      ensures View() == ToClosed(old(View()))
    {
      TransitionToClosed();
    }

    /** A call that does not overlap any other: it starts, runs the wrapped function and records its result. */
    method Call(failed: bool, start: int, end: int) returns (executed: bool)
      modifies this
      ensures View() == CallOnce(config, old(View()), Attempt(start, end, failed))
      ensures executed == Allow(config, old(View()), start).1
    {
      executed := AllowCall(start);
      if executed {
        RecordResult(failed, end);
      }
    }
  }

  /** One attempt of a caller: when it starts, when its function returns, and whether that fails. */
  datatype Attempt = Attempt(start: int, end: int, failed: bool)

  function CallOnce(cfg: Config, b: Breaker, a: Attempt): Breaker {
    var (admitted, ok) := Allow(cfg, b, a.start);
    if ok then Record(cfg, admitted, a.failed, a.end) else admitted
  }
}
