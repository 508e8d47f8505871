/** The circuit breaker (infrastructure/resilience.py). */
module Resilience {

  datatype CircuitState = Closed | Open | HalfOpen

  /** `failure_threshold` and `recovery_timeout_seconds`. */
  datatype Config = Config(failureThreshold: int, recoveryTimeout: real)

  /** `_state`, `_consecutive_failures` and `_opened_at`. */
  datatype Fields = Fields(state: CircuitState, failures: int, openedAt: real)

  const INITIAL := Fields(Closed, 0, 0.0)

  // ----- What each critical section does to the fields -----

  /** `_maybe_transition_to_half_open` at time `now`. */
  function Refreshed(c: Config, f: Fields, now: real): Fields {
    if f.state.Open? && now - f.openedAt >= c.recoveryTimeout then f.(state := HalfOpen) else f
  }

  /** The `except Exception` branch of `call`. */
  function Failed(c: Config, f: Fields, now: real): Fields {
    var n := f.failures + 1;
    if n >= c.failureThreshold then Fields(Open, n, now) else f.(failures := n)
  }

  /** The `else` branch of `call`. */
  function Succeeded(f: Fields): Fields {
    f.(state := Closed, failures := 0)
  }

  /** How `fn` ends: with a value, an `Exception`, or another `BaseException` that `call` does not catch. */
  datatype FnOutcome = Returns(value: int) | Raises(error: int) | Aborts

  /** How `call` ends. */
  datatype CallResult = Value(value: int) | FnError(error: int) | OpenError | Aborted

  /** One whole `call` with nothing running beside it: entered at `now`, `fn` ending at `end`. */
  function Called(c: Config, f: Fields, now: real, fn: FnOutcome, end: real): (Fields, CallResult) {
    var entered := Refreshed(c, f, now);
    if entered.state.Open? then (entered, OpenError)
    else
      match fn
      case Returns(v) => (Succeeded(entered), Value(v))
      case Raises(e) => (Failed(c, entered, end), FnError(e))
      case Aborts => (entered, Aborted)
  }

  /** The class itself. The lock makes each method below one step; overlapping calls interleave them. */
  class CircuitBreaker {
    const config: Config
    var state: CircuitState
    var consecutiveFailures: int
    var openedAt: real

    function View(): Fields
      reads this
    {
      Fields(state, consecutiveFailures, openedAt)
    }

    constructor (config: Config)
      ensures this.config == config && View() == INITIAL
    {
      this.config := config;
      state, consecutiveFailures, openedAt := Closed, 0, 0.0;
    }

    method MaybeTransitionToHalfOpen(now: real)
      modifies this
      ensures View() == Refreshed(config, old(View()), now)
    {
      if state == Open {
        var elapsed := now - openedAt;
        if elapsed >= config.recoveryTimeout {
          state := HalfOpen;
        }
      }
    }

    /** The first critical section of `call`: whether `fn` may run. */
    method Enter(now: real) returns (admitted: bool)
      modifies this
      ensures View() == Refreshed(config, old(View()), now)
      ensures admitted <==> !View().state.Open?
    {
      MaybeTransitionToHalfOpen(now);
      admitted := state != Open;
    }

    /** The second critical section, after an `Exception`. */
    method OnFailure(now: real)
      modifies this
      ensures View() == Failed(config, old(View()), now)
    {
      consecutiveFailures := consecutiveFailures + 1;
      if consecutiveFailures >= config.failureThreshold {
        state := Open;
        openedAt := now;
      }
    }

    /** The second critical section, after a normal return. */
    method OnSuccess()
      modifies this
      ensures View() == Succeeded(old(View()))
    {
      consecutiveFailures := 0;
      state := Closed;
    }

    /** The `state` property. */
    method State(now: real) returns (s: CircuitState)
      modifies this
      ensures View() == Refreshed(config, old(View()), now)
      ensures s == View().state
    {
      MaybeTransitionToHalfOpen(now);
      s := state;
    }

    /** `call`, when no other call overlaps it. */
    method Call(now: real, fn: FnOutcome, end: real) returns (r: CallResult)
      modifies this
      ensures (View(), r) == Called(config, old(View()), now, fn, end)
    {
      var admitted := Enter(now);
      if !admitted {
        return OpenError;
      }
      match fn {
        case Raises(e) =>
          OnFailure(end);
          r := FnError(e);
        case Returns(v) =>
          OnSuccess();
          r := Value(v);
        case Aborts =>
          r := Aborted;
      }
    }
  }
}
