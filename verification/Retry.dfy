/**
 The bounded retry loop around the breaker, as `ResilientChatModel.invoke` and
 `get_credit_report` use it, with calls that do not overlap. The retry decorator is used by its
 contract: at most `max_attempts` attempts, waits between 0 and `max_wait_seconds`, every
 `Exception` retried (a breaker-open rejection is one), the last error re-raised.
 */
module Retry {
  import opened Resilience

  /** One attempt: how long `fn` runs if it is started, how it ends, and the wait should it be retried. */
  datatype Attempt = Attempt(takes: real, fn: FnOutcome, wait: real)

  /** The fields afterwards, the time, how the wrapped call ends, and how often `fn` ran. */
  datatype Outcome = Outcome(fields: Fields, now: real, result: CallResult, ran: nat)

  predicate Final(r: CallResult) { r.Value? || r.Aborted? }

  function AttemptOnce(c: Config, f: Fields, now: real, a: Attempt): Outcome {
    var (f', r) := Called(c, f, now, a.fn, now + a.takes);
    if r.OpenError? then Outcome(f', now, r, 0) else Outcome(f', now + a.takes, r, 1)
  }

  /** A wrapped call with `|script|` attempts. */
  function Wrapped(c: Config, f: Fields, now: real, script: seq<Attempt>): Outcome
    requires script != []
    decreases |script|
  {
    var one := AttemptOnce(c, f, now, script[0]);
    if Final(one.result) || |script| == 1 then one
    else
      var rest := Wrapped(c, one.fields, one.now + script[0].wait, script[1..]);
      rest.(ran := one.ran + rest.ran)
  }

  /** The loop, on the breaker object. */
  method InvokeWithRetry(b: CircuitBreaker, start: real, script: seq<Attempt>)
    returns (result: CallResult, now: real, ran: nat)
    requires script != []
    modifies b
    ensures Outcome(b.View(), now, result, ran) == Wrapped(b.config, old(b.View()), start, script)
  {
    hide Called;
    now, ran, result := start, 0, OpenError;
    var n := 0;
    while true
      invariant 0 <= n < |script|
      invariant var rest := Wrapped(b.config, b.View(), now, script[n..]);
                rest.(ran := ran + rest.ran) == Wrapped(b.config, old(b.View()), start, script)
      decreases |script| - n
    {
      var a := script[n];
      assert script[n..][1..] == script[n + 1..];
      ghost var one := AttemptOnce(b.config, b.View(), now, a);
      result := b.Call(now, a.fn, now + a.takes);
      if !result.OpenError? {
        now, ran := now + a.takes, ran + 1;
      }
      assert b.View() == one.fields && now == one.now && result == one.result;
      if Final(result) || n + 1 == |script| {
        return;
      }
      now := now + a.wait;
      n := n + 1;
    }
  }

  /** Times are not negative and waits are bounded. */
  predicate Timely(script: seq<Attempt>, maxWait: real) {
    forall k | 0 <= k < |script| :: script[k].takes >= 0.0 && 0.0 <= script[k].wait <= maxWait
  }

  /** Attempt `k` is aborted, and all attempts before it raise. */
  predicate AbortsAt(script: seq<Attempt>, k: nat) {
    && k < |script|
    && script[k].fn.Aborts?
    && forall j | 0 <= j < k :: script[j].fn.Raises?
  }

  /** `fn` raises at least once and is then aborted by a BaseException. */
  ghost predicate LateAbort(script: seq<Attempt>) { exists k :: k >= 1 && AbortsAt(script, k) }

  lemma {:induction false} FirstDecides(script: seq<Attempt>, k: nat)
    requires script != []
    ensures AbortsAt(script, k) ==> if k == 0 then script[0].fn.Aborts? else |script| > 1 && script[0].fn.Raises?
  {
  }

  /** What the attempts after the first one make of it. */
  lemma {:induction false} AbortsLater(script: seq<Attempt>, k: nat)
    requires |script| > 1
    ensures AbortsAt(script, k + 1) <==> script[0].fn.Raises? && AbortsAt(script[1..], k)
  {
    var rest := script[1..];
    if script[0].fn.Raises? && AbortsAt(rest, k) {
      forall j | 0 <= j < k + 1 ensures script[j].fn.Raises? {
        if j > 0 { assert rest[j - 1].fn.Raises?; }
      }
    }
    if AbortsAt(script, k + 1) {
      forall j | 0 <= j < k ensures rest[j].fn.Raises? { assert script[j + 1].fn.Raises?; }
    }
  }

  /** `k` whole waits. */
  function Waits(k: nat, maxWait: real): real { if k == 0 then 0.0 else maxWait + Waits(k - 1, maxWait) }

  lemma {:induction false} WaitsAreNonnegative(k: nat, maxWait: real)
    requires maxWait >= 0.0
    ensures Waits(k, maxWait) >= 0.0
  {
    if k > 0 { WaitsAreNonnegative(k - 1, maxWait); }
  }

  /**
   The wiring the source uses: as many attempts as the threshold, and all waits of one wrapped call
   together shorter than the recovery timeout.
   */
  predicate Matched(c: Config, attempts: nat, maxWait: real) {
    && attempts >= 1 && c.failureThreshold == attempts
    && maxWait >= 0.0 && Waits(attempts - 1, maxWait) < c.recoveryTimeout
  }

  const LLM := Config(3, 15.0)
  const LLM_MAX_WAIT := 4.0
  const BUREAU := Config(3, 10.0)
  const BUREAU_MAX_WAIT := 1.0

  /** The shipped constants of the model wrapper and of the credit bureau are matched. */
  lemma {:induction false} ShippedConstantsMatch()
    ensures Matched(LLM, 3, LLM_MAX_WAIT) && Matched(BUREAU, 3, BUREAU_MAX_WAIT)
  {
    assert Waits(2, LLM_MAX_WAIT) == 8.0 && Waits(2, BUREAU_MAX_WAIT) == 2.0 by {
      assert Waits(1, LLM_MAX_WAIT) == 4.0 && Waits(1, BUREAU_MAX_WAIT) == 1.0;
    }
  }

  /** The breaker between wrapped calls: closed with a clean count, or not closed with a full one. */
  predicate Settled(c: Config, f: Fields) {
    if f.state.Closed? then f.failures == 0 else f.failures >= c.failureThreshold
  }

  /** What the last attempt of `fn` itself raised. */
  predicate IsLastError(r: CallResult, script: seq<Attempt>)
    requires script != []
  {
    script[|script| - 1].fn.Raises? && r == FnError(script[|script| - 1].fn.error)
  }

  // ----- A call that starts closed -----

  /**
   A call on a closed breaker with `|script|` failures missing to the threshold. It returns a value,
   or is aborted at attempt `k` with `k` failures counted, or fails in all attempts and trips.
   */
  lemma {:induction false} ClosedRun(c: Config, f: Fields, now: real, script: seq<Attempt>, maxWait: real)
    requires script != [] && Timely(script, maxWait)
    requires f.state.Closed? && f.failures + |script| == c.failureThreshold
    ensures var o := Wrapped(c, f, now, script);
            match o.result
            case Value(_) => o.fields.state.Closed? && o.fields.failures == 0 && forall k :: !AbortsAt(script, k)
            case Aborted =>
              o.ran >= 1 && AbortsAt(script, o.ran - 1) && o.fields == f.(failures := f.failures + o.ran - 1)
            case _ =>
              && o.ran == |script|
              && o.fields.state.Open? && o.fields.failures == c.failureThreshold
              && IsLastError(o.result, script)
              && forall k :: !AbortsAt(script, k)
    decreases |script|
  {
    var one := AttemptOnce(c, f, now, script[0]);
    if !Final(one.result) && |script| > 1 {
      ClosedRun(c, one.fields, one.now + script[0].wait, script[1..], maxWait);
      forall k: nat { AbortsLater(script, k); }
      assert forall k: nat | k >= 1 :: AbortsAt(script, k) ==> AbortsAt(script[1..], k - 1) by {
        forall k: nat | k >= 1 && AbortsAt(script, k) ensures AbortsAt(script[1..], k - 1) {
          AbortsLater(script, k - 1);
        }
      }
    } else {
      forall k: nat { FirstDecides(script, k); }
    }
  }

  // ----- A call that starts open or half-open -----

  /** While the breaker cools down for longer than all remaining waits, every attempt is rejected. */
  lemma {:induction false} AllRejected(c: Config, f: Fields, now: real, script: seq<Attempt>, maxWait: real)
    requires script != [] && Timely(script, maxWait) && maxWait >= 0.0
    requires f.state.Open? && now - f.openedAt + Waits(|script| - 1, maxWait) < c.recoveryTimeout
    ensures var o := Wrapped(c, f, now, script);
            o.fields == f && o.ran == 0 && o.result == OpenError
    decreases |script|
  {
    WaitsAreNonnegative(|script| - 1, maxWait);
    assert script[0].wait <= maxWait;
    if |script| > 1 {
      AllRejected(c, f, now + script[0].wait, script[1..], maxWait);
    }
  }

  lemma {:induction false} WaitsGrow(j: nat, k: nat, maxWait: real)
    requires j <= k && maxWait >= 0.0
    ensures Waits(j, maxWait) <= Waits(k, maxWait)
  {
    if j < k { WaitsGrow(j, k - 1, maxWait); }
  }

  lemma {:induction false} OpenRun(c: Config, f: Fields, now: real, script: seq<Attempt>, maxWait: real)
    requires script != [] && Timely(script, maxWait) && maxWait >= 0.0
    requires Waits(|script| - 1, maxWait) < c.recoveryTimeout
    requires !f.state.Closed? && f.failures >= c.failureThreshold
    ensures var o := Wrapped(c, f, now, script);
            && o.ran <= 1
            && (if o.result.Value? then o.ran == 1 && o.fields.state.Closed? && o.fields.failures == 0
                else !o.fields.state.Closed? && o.fields.failures >= c.failureThreshold)
            && (o.result.FnError? ==> o.ran == 1 && IsLastError(o.result, script))
    decreases |script|
  {
    var a := script[0];
    var one := AttemptOnce(c, f, now, a);
    assert a.wait <= maxWait;
    if !Final(one.result) && |script| > 1 {
      var next := one.now + a.wait;
      if one.result.FnError? {
        assert one.fields.openedAt == one.now;
        AllRejected(c, one.fields, next, script[1..], maxWait);
      } else {
        WaitsGrow(|script| - 2, |script| - 1, maxWait);
        OpenRun(c, one.fields, next, script[1..], maxWait);
      }
    }
  }

  // ----- Whose answer it is -----

  /** The call ends with attempt `k`, and with what `fn` did in it, unless that one was rejected. */
  predicate EndsWith(script: seq<Attempt>, k: nat, r: CallResult) {
    && k < |script|
    && match r
       case Value(v) => script[k].fn == Returns(v)
       case Aborted => script[k].fn.Aborts?
       case FnError(e) => k == |script| - 1 && script[k].fn == Raises(e)
       case OpenError => k == |script| - 1
  }

  /**
   From any state of the breaker: the value of a wrapped call is the value `fn` returned, its error the one `fn`
   raised in the last attempt, and an abort is an abort of `fn`; else the last attempt was rejected.
   */
  lemma {:induction false} AnswersAreThoseOfFn(c: Config, f: Fields, now: real, script: seq<Attempt>)
    requires script != []
    ensures exists k: nat :: EndsWith(script, k, Wrapped(c, f, now, script).result)
    decreases |script|
  {
    var one := AttemptOnce(c, f, now, script[0]);
    if Final(one.result) || |script| == 1 {
      assert EndsWith(script, 0, Wrapped(c, f, now, script).result);
    } else {
      var next := one.now + script[0].wait;
      AnswersAreThoseOfFn(c, one.fields, next, script[1..]);
      var k: nat :| EndsWith(script[1..], k, Wrapped(c, one.fields, next, script[1..]).result);
      assert EndsWith(script, k + 1, Wrapped(c, f, now, script).result);
    }
  }

  // ----- What a breaker that is already open does to a call -----

  /** The time between the first attempt and the last, if no attempt gets to run. */
  function WaitsBeforeLast(script: seq<Attempt>): real
    requires script != []
    decreases |script|
  {
    if |script| == 1 then 0.0 else script[0].wait + WaitsBeforeLast(script[1..])
  }

  /** The breaker is open, and the last attempt still comes before the timeout. */
  predicate ShutOut(c: Config, f: Fields, now: real, script: seq<Attempt>)
    requires script != []
  {
    f.state.Open? && now + WaitsBeforeLast(script) - f.openedAt < c.recoveryTimeout
  }

  lemma {:induction false} WaitsBeforeLastAreBounded(script: seq<Attempt>, maxWait: real)
    requires script != [] && Timely(script, maxWait)
    ensures 0.0 <= WaitsBeforeLast(script) <= Waits(|script| - 1, maxWait)
    decreases |script|
  {
    assert 0.0 <= script[0].wait <= maxWait;
    if |script| > 1 { WaitsBeforeLastAreBounded(script[1..], maxWait); }
  }

  /** A wrapped call never gets to run `fn` exactly when it is shut out, and then changes nothing. */
  lemma {:induction false} RunsUnlessShutOut(c: Config, f: Fields, now: real, script: seq<Attempt>, maxWait: real)
    requires script != [] && Timely(script, maxWait)
    ensures var o := Wrapped(c, f, now, script);
            && (o.ran == 0 <==> ShutOut(c, f, now, script))
            && (o.ran == 0 ==> o == Outcome(f, now + WaitsBeforeLast(script), OpenError, 0))
    decreases |script|
  {
    WaitsBeforeLastAreBounded(script, maxWait);
    assert 0.0 <= script[0].wait;
    if |script| > 1 { RunsUnlessShutOut(c, f, now + script[0].wait, script[1..], maxWait); }
  }

  /** If `fn` always returns, the call fails exactly when it is shut out; else it leaves the breaker closed. */
  lemma {:induction false} ReturningCall(c: Config, f: Fields, now: real, script: seq<Attempt>, maxWait: real)
    requires script != [] && Timely(script, maxWait) && forall k | 0 <= k < |script| :: script[k].fn.Returns?
    ensures var o := Wrapped(c, f, now, script);
            && (o.result.Value? <==> !ShutOut(c, f, now, script))
            && o.fields == if o.result.Value? then Fields(Closed, 0, f.openedAt) else f
    decreases |script|
  {
    hide ShutOut;
    RunsUnlessShutOut(c, f, now, script, maxWait);
    var one := AttemptOnce(c, f, now, script[0]);
    if one.result.OpenError? && |script| > 1 {
      RunsUnlessShutOut(c, f, now + script[0].wait, script[1..], maxWait);
      ReturningCall(c, f, now + script[0].wait, script[1..], maxWait);
    }
  }

  /** Open, with a full count, and rejecting at time `now`. */
  predicate Tripped(c: Config, f: Fields, now: real) {
    f.state.Open? && f.failures >= c.failureThreshold && now - f.openedAt < c.recoveryTimeout
  }

  /**
   If `fn` always raises, the call fails, and leaves a breaker that is tripped, just now if it was closed, unless
   it is shut out.
   */
  lemma {:induction false} RaisingCall(c: Config, f: Fields, now: real, script: seq<Attempt>, maxWait: real)
    requires script != [] && Timely(script, maxWait) && forall k | 0 <= k < |script| :: script[k].fn.Raises?
    requires maxWait >= 0.0 && Waits(|script| - 1, maxWait) < c.recoveryTimeout
    requires if f.state.Closed? then f.failures + |script| == c.failureThreshold else f.failures >= c.failureThreshold
    ensures var o := Wrapped(c, f, now, script);
            && !o.result.Value?
            && (!ShutOut(c, f, now, script) ==> Tripped(c, o.fields, o.now))
            && (f.state.Closed? ==> o.fields.openedAt == o.now)
    decreases |script|
  {
    RunsUnlessShutOut(c, f, now, script, maxWait);
    var a := script[0];
    var one := AttemptOnce(c, f, now, a);
    assert 0.0 <= a.wait <= maxWait;
    if |script| > 1 {
      var rest, next := script[1..], one.now + a.wait;
      WaitsGrow(|script| - 2, |script| - 1, maxWait);
      RaisingCall(c, one.fields, next, rest, maxWait);
      RunsUnlessShutOut(c, one.fields, next, rest, maxWait);
      WaitsBeforeLastAreBounded(script, maxWait);
    }
  }

  // ----- Main results -----

  lemma {:induction false} OneAbort(script: seq<Attempt>, k: nat, m: nat)
    requires AbortsAt(script, k) && AbortsAt(script, m)
    ensures k == m
  {
  }

  /**
   One wrapped call from a settled breaker, aborts included. Started closed, it returns a value, is
   aborted, or ran `fn` exactly `max_attempts` times and re-raises the last error of `fn` itself. Started
   not closed, it runs `fn` at most once. The breaker is settled again exactly unless the call started
   closed and was aborted after a failure.
   */
  lemma {:induction false} WrappedCall(c: Config, f: Fields, now: real, script: seq<Attempt>, maxWait: real)
    requires script != [] && Matched(c, |script|, maxWait) && Timely(script, maxWait) && Settled(c, f)
    ensures var o := Wrapped(c, f, now, script);
            && (Settled(c, o.fields) <==> !(f.state.Closed? && LateAbort(script)))
            && (o.fields.state.Closed? <==> o.result.Value? || (f.state.Closed? && o.result.Aborted?))
            && (f.state.Closed? ==> (o.result.Aborted? <==> exists k :: AbortsAt(script, k)))
            && (f.state.Closed? && !o.result.Value? && !o.result.Aborted? ==>
                  o.ran == |script| && IsLastError(o.result, script))
            && (!f.state.Closed? ==> o.ran <= 1)
  {
    hide AbortsAt;
    if f.state.Closed? {
      ClosedRun(c, f, now, script, maxWait);
      var o := Wrapped(c, f, now, script);
      if o.result.Aborted? {
        forall k: nat | AbortsAt(script, k) ensures k == o.ran - 1 { OneAbort(script, k, o.ran - 1); }
      }
    } else {
      OpenRun(c, f, now, script, maxWait);
    }
  }

  /** A wrapped call after some idle time. */
  datatype Request = Request(idle: real, script: seq<Attempt>)

  /** The requests all use this many attempts and bounded waits. */
  predicate AllTimely(rs: seq<Request>, attempts: nat, maxWait: real) {
    forall k | 0 <= k < |rs| :: |rs[k].script| == attempts && Timely(rs[k].script, maxWait)
  }

  /** The breaker is settled before the first of the calls, between any two, and after the last. */
  predicate SettledThroughout(c: Config, f: Fields, now: real, rs: seq<Request>)
    requires forall k | 0 <= k < |rs| :: rs[k].script != []
    decreases |rs|
  {
    && Settled(c, f)
    && (rs == [] ||
        var o := Wrapped(c, f, now + rs[0].idle, rs[0].script);
        SettledThroughout(c, o.fields, o.now, rs[1..]))
  }

  /** No call that starts closed is aborted after a failure. */
  ghost predicate NoHarmfulAbort(c: Config, f: Fields, now: real, rs: seq<Request>)
    requires forall k | 0 <= k < |rs| :: rs[k].script != []
    decreases |rs|
  {
    rs == [] ||
    var o := Wrapped(c, f, now + rs[0].idle, rs[0].script);
    !(f.state.Closed? && LateAbort(rs[0].script)) && NoHarmfulAbort(c, o.fields, o.now, rs[1..])
  }

  /**
   At every boundary between wrapped calls the failure count is 0 with the breaker closed, or at least
   the threshold with the breaker not closed, if and only if no call that starts closed is aborted
   after a failure.
   */
  lemma {:induction false} BoundariesAreSettled(
      c: Config, f: Fields, now: real, rs: seq<Request>, attempts: nat, maxWait: real)
    requires Matched(c, attempts, maxWait) && AllTimely(rs, attempts, maxWait) && Settled(c, f)
    ensures SettledThroughout(c, f, now, rs) <==> NoHarmfulAbort(c, f, now, rs)
    decreases |rs|
  {
    hide Settled, LateAbort, Wrapped;
    if rs != [] {
      var o := Wrapped(c, f, now + rs[0].idle, rs[0].script);
      WrappedCall(c, f, now + rs[0].idle, rs[0].script, maxWait);
      if Settled(c, o.fields) {
        BoundariesAreSettled(c, o.fields, o.now, rs[1..], attempts, maxWait);
      } else {
        UnsettledAtOnce(c, o.fields, o.now, rs[1..]);
      }
    }
  }

  lemma {:induction false} UnsettledAtOnce(c: Config, f: Fields, now: real, rs: seq<Request>)
    requires !Settled(c, f) && forall k | 0 <= k < |rs| :: rs[k].script != []
    ensures !SettledThroughout(c, f, now, rs)
  {
  }

  /**
   What the harm is: two failures and an abort leave a closed breaker with a count of two, and the
   next wrapped call then trips after one more failure and re-raises the breaker's error, not `fn`'s.
   */
  lemma {:induction false} AbortUnsettles()
    ensures var fail, abort := Attempt(0.0, Raises(7), 0.0), Attempt(0.0, Aborts, 0.0);
            var o := Wrapped(LLM, INITIAL, 0.0, [fail, fail, abort]);
            && !Settled(LLM, o.fields)
            && var p := Wrapped(LLM, o.fields, o.now, [fail, fail, fail]); p.ran == 1 && p.result == OpenError
  {
    var fail, abort := Attempt(0.0, Raises(7), 0.0), Attempt(0.0, Aborts, 0.0);
    var one, two, open := Fields(Closed, 1, 0.0), Fields(Closed, 2, 0.0), Fields(Open, 3, 0.0);
    var a, b := [fail, fail, abort], [fail, fail, fail];
    assert a[1..] == [fail, abort] && [fail, abort][1..] == [abort];
    assert b[1..] == [fail, fail] && [fail, fail][1..] == [fail];
    assert Wrapped(LLM, two, 0.0, [abort]) == Outcome(two, 0.0, Aborted, 1);
    assert Wrapped(LLM, one, 0.0, [fail, abort]) == Outcome(two, 0.0, Aborted, 2);
    assert Wrapped(LLM, INITIAL, 0.0, a) == Outcome(two, 0.0, Aborted, 3);
    assert Wrapped(LLM, open, 0.0, [fail]) == Outcome(open, 0.0, OpenError, 0);
    assert Wrapped(LLM, open, 0.0, [fail, fail]) == Outcome(open, 0.0, OpenError, 0);
    assert Wrapped(LLM, two, 0.0, b) == Outcome(open, 0.0, OpenError, 1);
  }
}
