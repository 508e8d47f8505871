/**
 The breaker under every interleaving of overlapping calls, state reads, aborts and clock
 ticks: it behaves exactly like a function of the completions so far and the clock.
 */
module Interleavings {
  import opened Resilience

  // ----- The field machine -----

  /** A scheduler step. `Enter` is the first critical section of a call, the next three end it. */
  datatype Event =
    | Enter(thread: nat)
    | Succeed(thread: nat)
    | Fail(thread: nat)
    | Abort(thread: nat)
    | Read
    | Tick(dt: real)

  /** What a step shows to the outside. */
  datatype Shown = Nothing | Admitted | Rejected | Saw(s: CircuitState)

  /** The breaker, the calls whose `fn` is running, and the clock. */
  datatype System = System(fields: Fields, running: set<nat>, now: real)

  /** A thread is in at most one call, only a running call ends, and the clock does not go back. */
  predicate Possible(running: set<nat>, e: Event) {
    match e
    case Enter(t) => t !in running
    case Succeed(t) => t in running
    case Fail(t) => t in running
    case Abort(t) => t in running
    case Read => true
    case Tick(dt) => dt >= 0.0
  }

  /** One step; an impossible event does nothing. */
  function Step(c: Config, s: System, e: Event): (System, Shown) {
    if !Possible(s.running, e) then (s, Nothing)
    else
      match e
      case Enter(t) =>
        var f := Refreshed(c, s.fields, s.now);
        if f.state.Open? then (s.(fields := f), Rejected)
        else (s.(fields := f, running := s.running + {t}), Admitted)
      case Succeed(t) => (s.(fields := Succeeded(s.fields), running := s.running - {t}), Nothing)
      case Fail(t) => (s.(fields := Failed(c, s.fields, s.now), running := s.running - {t}), Nothing)
      case Abort(t) => (s.(running := s.running - {t}), Nothing)
      case Read =>
        var f := Refreshed(c, s.fields, s.now);
        (s.(fields := f), Saw(f.state))
      case Tick(dt) => (s.(now := s.now + dt), Nothing)
  }

  /** A run from `s`, with what it shows step by step. */
  function Run(c: Config, s: System, es: seq<Event>): (r: (System, seq<Shown>))
    decreases |es|
  {
    if es == [] then (s, [])
    else
      var (s', o) := Step(c, s, es[0]);
      var (end, os) := Run(c, s', es[1..]);
      (end, [o] + os)
  }

  lemma {:induction false} RunCons(c: Config, s: System, e: Event, es: seq<Event>)
    ensures var (s', o) := Step(c, s, e);
            && Run(c, s, [e] + es).0 == Run(c, s', es).0
            && Run(c, s, [e] + es).1 == [o] + Run(c, s', es).1
  {
    hide Step;
    assert ([e] + es)[1..] == es;
  }

  /** A run is a run of its first part followed by one of its second. */
  lemma {:induction false} RunConcat(c: Config, s: System, a: seq<Event>, b: seq<Event>)
    ensures Run(c, s, a + b).0 == Run(c, Run(c, s, a).0, b).0
    ensures Run(c, s, a + b).1 == Run(c, s, a).1 + Run(c, Run(c, s, a).0, b).1
    decreases |a|
  {
    hide Step;
    if a == [] {
      assert a + b == b;
    } else {
      assert (a + b)[1..] == a[1..] + b;
      RunConcat(c, Step(c, s, a[0]).0, a[1..], b);
    }
  }

  // ----- The specification: a function of history and clock -----

  /** A completed call: whether `fn` returned, and when. */
  datatype Completion = Completion(ok: bool, at: real)

  function TrailingFailures(h: seq<Completion>): nat {
    if h == [] || h[|h| - 1].ok then 0 else 1 + TrailingFailures(h[..|h| - 1])
  }

  /** At least one failure has to have happened, even for a threshold below one. */
  predicate Tripped(c: Config, h: seq<Completion>) {
    TrailingFailures(h) >= 1 && TrailingFailures(h) >= c.failureThreshold
  }

  /** Less than the recovery timeout has passed since the last completion. */
  predicate CoolingDown(c: Config, h: seq<Completion>, now: real) {
    h != [] && now - h[|h| - 1].at < c.recoveryTimeout
  }

  /** The state anyone looking at the breaker sees. */
  function Visible(c: Config, h: seq<Completion>, now: real): CircuitState {
    if !Tripped(c, h) then Closed else if CoolingDown(c, h, now) then Open else HalfOpen
  }

  datatype Ideal = Ideal(history: seq<Completion>, running: set<nat>, now: real)

  function IdealStep(c: Config, s: Ideal, e: Event): (Ideal, Shown) {
    if !Possible(s.running, e) then (s, Nothing)
    else
      match e
      case Enter(t) =>
        if Visible(c, s.history, s.now).Open? then (s, Rejected)
        else (s.(running := s.running + {t}), Admitted)
      case Succeed(t) =>
        (s.(history := s.history + [Completion(true, s.now)], running := s.running - {t}), Nothing)
      case Fail(t) =>
        (s.(history := s.history + [Completion(false, s.now)], running := s.running - {t}), Nothing)
      case Abort(t) => (s.(running := s.running - {t}), Nothing)
      case Read => (s, Saw(Visible(c, s.history, s.now)))
      case Tick(dt) => (s.(now := s.now + dt), Nothing)
  }

  function IdealRun(c: Config, s: Ideal, es: seq<Event>): (Ideal, seq<Shown>)
    decreases |es|
  {
    if es == [] then (s, [])
    else
      var (s', o) := IdealStep(c, s, es[0]);
      var (end, os) := IdealRun(c, s', es[1..]);
      (end, [o] + os)
  }

  // ----- Refinement -----

  /** The fields are what the history and the clock call for. */
  ghost predicate Refines(c: Config, s: System, i: Ideal) {
    var h := i.history;
    && s.running == i.running
    && s.now == i.now
    && s.fields.failures == TrailingFailures(h)
    && (if Tripped(c, h) then
          && s.fields.openedAt == h[|h| - 1].at
          && (s.fields.state.Open? || (s.fields.state.HalfOpen? && !CoolingDown(c, h, i.now)))
        else s.fields.state.Closed?)
  }

  lemma {:induction false} StepRefines(c: Config, s: System, i: Ideal, e: Event)
    requires Refines(c, s, i)
    ensures Refines(c, Step(c, s, e).0, IdealStep(c, i, e).0)
    ensures Step(c, s, e).1 == IdealStep(c, i, e).1
  {
    var h := i.history;
    if Possible(i.running, e) && (e.Succeed? || e.Fail?) {
      var done := Completion(e.Succeed?, i.now);
      assert (h + [done])[..|h|] == h;
      assert TrailingFailures(h + [done]) == if done.ok then 0 else 1 + TrailingFailures(h);
    }
  }

  /** A fresh breaker, at whatever reading the monotonic clock has. */
  function Start(now: real): System { System(INITIAL, {}, now) }

  function IdealStart(now: real): Ideal { Ideal([], {}, now) }

  lemma {:induction false} RunRefinesFrom(c: Config, s: System, i: Ideal, es: seq<Event>)
    requires Refines(c, s, i)
    ensures Refines(c, Run(c, s, es).0, IdealRun(c, i, es).0)
    ensures Run(c, s, es).1 == IdealRun(c, i, es).1
    decreases |es|
  {
    hide Refines, Step, IdealStep;
    if es != [] {
      StepRefines(c, s, i, es[0]);
      RunRefinesFrom(c, Step(c, s, es[0]).0, IdealStep(c, i, es[0]).0, es[1..]);
    }
  }

  /**
   For every configuration and every interleaving, the breaker admits, rejects and shows exactly
   what the stateless function of completion history and clock says.
   */
  lemma {:induction false} BreakerIsAFunctionOfHistory(c: Config, now: real, es: seq<Event>)
    ensures Run(c, Start(now), es).1 == IdealRun(c, IdealStart(now), es).1
    ensures Refines(c, Run(c, Start(now), es).0, IdealRun(c, IdealStart(now), es).0)
  {
    RunRefinesFrom(c, Start(now), IdealStart(now), es);
  }

  /** A system some interleaving leads to, with the history on the way. */
  ghost predicate Reachable(c: Config, s: System, h: seq<Completion>) {
    exists now: real, es: seq<Event> :: Run(c, Start(now), es).0 == s && IdealRun(c, IdealStart(now), es).0.history == h
  }

  /**
   In every reachable system: not CLOSED if and only if enough trailing completions failed; a call
   entering now is rejected if and only if, besides, the timeout has not passed since the last failure.
   */
  lemma {:induction false} ReachableBreaker(c: Config, s: System, h: seq<Completion>, thread: nat)
    requires c.failureThreshold >= 1 && Reachable(c, s, h) && thread !in s.running
    ensures !s.fields.state.Closed? <==> TrailingFailures(h) >= c.failureThreshold
    ensures Step(c, s, Enter(thread)).1.Rejected? <==>
            TrailingFailures(h) >= c.failureThreshold && s.now - h[|h| - 1].at < c.recoveryTimeout
  {
    var now: real, es: seq<Event> :| Run(c, Start(now), es).0 == s && IdealRun(c, IdealStart(now), es).0.history == h;
    hide Run, IdealRun;
    BreakerIsAFunctionOfHistory(c, now, es);
    StepRefines(c, s, IdealRun(c, IdealStart(now), es).0, Enter(thread));
  }
}
