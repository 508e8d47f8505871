/**
 What the breaker's documentation promises about an open breaker: exactly when it is true,
 the spacing of probes when calls do not overlap, and what overlapping calls can do.
 */
module Probing {
  import opened Resilience
  import opened Interleavings
  import opened Rounding

  function CountAdmitted(os: seq<Shown>): nat {
    if os == [] then 0 else (if os[0].Admitted? then 1 else 0) + CountAdmitted(os[1..])
  }

  // ----- "stays OPEN for recovery_timeout_seconds" -----

  /** With no call in flight, an open breaker stays open and starts nothing until the timeout. */
  lemma {:induction false} StaysOpenWhenIdle(c: Config, s: System, es: seq<Event>)
    requires s.fields.state.Open? && s.running == {}
    requires Run(c, s, es).0.now - s.fields.openedAt < c.recoveryTimeout
    ensures Run(c, s, es).0.fields == s.fields && Run(c, s, es).0.running == {}
    ensures CountAdmitted(Run(c, s, es).1) == 0
    decreases |es|
  {
    if es != [] {
      var (s', o) := Step(c, s, es[0]);
      ClockAdvances(c, s', es[1..]);
      StaysOpenWhenIdle(c, s', es[1..]);
      assert Run(c, s, es).1 == [o] + Run(c, s', es[1..]).1;
    }
  }

  lemma {:induction false} ClockAdvances(c: Config, s: System, es: seq<Event>)
    ensures Run(c, s, es).0.now >= s.now
    decreases |es|
  {
    if es != [] { ClockAdvances(c, Step(c, s, es[0]).0, es[1..]); }
  }

  /** Whatever happens before the timeout is over, the breaker is open. */
  ghost predicate StaysOpen(c: Config, s: System) {
    forall es :: Run(c, s, es).0.now - s.fields.openedAt < c.recoveryTimeout
                 ==> Run(c, s, es).0.fields.state.Open?
  }

  /**
   The documented promise holds exactly of the breakers that trip with no other call in flight:
   a call that was in flight closes the breaker when it succeeds, however early.
   */
  lemma {:induction false} StaysOpenIffNothingInFlight(c: Config, s: System)
    requires s.fields.state.Open? && s.now - s.fields.openedAt < c.recoveryTimeout
    ensures StaysOpen(c, s) <==> s.running == {}
  {
    if s.running == {} {
      forall es | Run(c, s, es).0.now - s.fields.openedAt < c.recoveryTimeout
        ensures Run(c, s, es).0.fields.state.Open?
      {
        StaysOpenWhenIdle(c, s, es);
      }
    } else {
      var t :| t in s.running;
      var es := [Succeed(t)];
      assert Run(c, s, es).0 == Step(c, s, Succeed(t)).0 by {
        assert es[1..] == [];
      }
      assert !Run(c, s, es).0.fields.state.Open?;
    }
  }

  /** Thread 1 calls `n` times and fails each time. */
  function FailTimes(n: nat): seq<Event> {
    if n == 0 then [] else [Enter(1), Fail(1)] + FailTimes(n - 1)
  }

  lemma {:induction false} OneFailure(c: Config, s: System)
    requires s.fields.state.Closed? && 1 !in s.running
    ensures Run(c, s, [Enter(1), Fail(1)]).0 == s.(fields := Failed(c, s.fields, s.now))
  {
    var entered := Step(c, s, Enter(1)).0;
    assert entered.running - {1} == s.running;
    RunCons(c, s, Enter(1), [Fail(1)]);
    RunCons(c, entered, Fail(1), []);
    assert [Enter(1)] + [Fail(1)] == [Enter(1), Fail(1)] && [Fail(1)] + [] == [Fail(1)];
  }

  /** As many failures in a row as are missing to the threshold trip a closed breaker. */
  lemma {:induction false} FailuresTrip(c: Config, s: System, n: nat)
    requires s.fields.state.Closed? && 1 !in s.running
    requires n >= 1 && s.fields.failures + n == c.failureThreshold
    ensures Run(c, s, FailTimes(n)).0 == s.(fields := Fields(Open, c.failureThreshold, s.now))
    decreases n
  {
    hide Run, Step;
    var s' := s.(fields := Failed(c, s.fields, s.now));
    OneFailure(c, s);
    RunConcat(c, s, [Enter(1), Fail(1)], FailTimes(n - 1));
    if n == 1 {
      RunEnds(c, s');
    } else {
      FailuresTrip(c, s', n - 1);
    }
  }

  lemma {:induction false} RunEnds(c: Config, s: System)
    ensures Run(c, s, FailTimes(0)) == (s, []) && Run(c, s, []) == (s, [])
  {
  }

  /**
   Overlap makes the promise fail in an actual run, whatever the threshold: one slow call, and as many
   failures beside it as it takes. The breaker has just tripped and rejects, the slow call succeeds,
   and the next call is admitted.
   */
  lemma {:induction false} InFlightSuccessCloses(c: Config, now: real)
    requires c.failureThreshold >= 1 && c.recoveryTimeout > 0.0
    ensures var s := Run(c, Start(now), [Enter(0)] + FailTimes(c.failureThreshold)).0;
            && s.fields.state.Open? && s.fields.openedAt == s.now
            && Step(c, s, Enter(2)).1.Rejected?
            && Step(c, Step(c, s, Succeed(0)).0, Enter(2)).1.Admitted?
  {
    hide Run;
    var slow := Step(c, Start(now), Enter(0)).0;
    RunCons(c, Start(now), Enter(0), FailTimes(c.failureThreshold));
    FailuresTrip(c, slow, c.failureThreshold);
  }

  // ----- "allows a single HALF_OPEN probe call" -----

  function Enters(ts: seq<nat>): seq<Event> {
    if ts == [] then [] else [Enter(ts[0])] + Enters(ts[1..])
  }

  predicate Distinct(ts: seq<nat>) { forall i, j | 0 <= i < j < |ts| :: ts[i] != ts[j] }

  /** A breaker that is, or on entry becomes, half-open admits everyone who enters before the first probe ends. */
  lemma {:induction false} HalfOpenAdmitsEveryone(c: Config, s: System, ts: seq<nat>)
    requires Refreshed(c, s.fields, s.now).state.HalfOpen?
    requires Distinct(ts) && forall i | 0 <= i < |ts| :: ts[i] !in s.running
    ensures CountAdmitted(Run(c, s, Enters(ts)).1) == |ts|
    ensures Run(c, s, Enters(ts)).0.running == s.running + set t | t in ts
    decreases |ts|
  {
    if ts != [] {
      var (s', o) := Step(c, s, Enter(ts[0]));
      assert Enters(ts)[1..] == Enters(ts[1..]);
      HalfOpenAdmitsEveryone(c, s', ts[1..]);
      assert ts == [ts[0]] + ts[1..];
      assert Run(c, s, Enters(ts)).1 == [o] + Run(c, s', Enters(ts[1..])).1;
    }
  }

  /** A run from a fresh breaker to any number of probes in flight at once. */
  lemma {:induction false} ManyProbesAtOnce(c: Config, now: real, ts: seq<nat>)
    requires c.failureThreshold >= 1 && c.recoveryTimeout >= 0.0 && Distinct(ts)
    ensures var tripped := FailTimes(c.failureThreshold) + [Tick(c.recoveryTimeout)];
            var s := Run(c, Start(now), tripped).0;
            && s.fields.state.Open? && s.running == {}
            && CountAdmitted(Run(c, s, Enters(ts)).1) == |ts|
            && Run(c, Start(now), tripped + Enters(ts)).0.running == set t | t in ts
  {
    hide Run, Enters;
    var tick := Tick(c.recoveryTimeout);
    var open := Start(now).(fields := Fields(Open, c.failureThreshold, now));
    FailuresTrip(c, Start(now), c.failureThreshold);
    RunConcat(c, Start(now), FailTimes(c.failureThreshold), [tick]);
    RunCons(c, open, tick, []);
    assert [tick] + [] == [tick];
    var s := Step(c, open, tick).0;
    RunEnds(c, s);
    HalfOpenAdmitsEveryone(c, s, ts);
    RunConcat(c, Start(now), FailTimes(c.failureThreshold) + [tick], Enters(ts));
  }

  // ----- Probes when calls do not overlap -----

  /** A call enters only when none is running. */
  predicate Sequential(c: Config, s: System, es: seq<Event>)
    decreases |es|
  {
    es == []
    || ((es[0].Enter? ==> s.running == {}) && Sequential(c, Step(c, s, es[0]).0, es[1..]))
  }

  predicate NoSuccess(es: seq<Event>) { forall k | 0 <= k < |es| :: !es[k].Succeed? }

  predicate NoAbort(es: seq<Event>) { forall k | 0 <= k < |es| :: !es[k].Abort? }

  /** How many running calls are aborted in a run. */
  function Aborts(c: Config, s: System, es: seq<Event>): nat
    decreases |es|
  {
    if es == [] then 0
    else (if AbortsCall(s, es[0]) then 1 else 0) + Aborts(c, Step(c, s, es[0]).0, es[1..])
  }

  predicate AbortsCall(s: System, e: Event) { e.Abort? && e.thread in s.running }

  /** `n` probes have started since the trip at `trip` and were not aborted, at most one per timeout. */
  ghost predicate Spaced(c: Config, s: System, n: int, trip: real) {
    && s.fields.failures >= c.failureThreshold
    && !s.fields.state.Closed?
    && s.fields.openedAt <= s.now
    && (s.fields.state.HalfOpen? ==> s.now - s.fields.openedAt >= c.recoveryTimeout)
    && (s.running != {} ==> |s.running| == 1 && s.fields.state.HalfOpen?)
    && (if s.running == {} then n else n - 1) as real * c.recoveryTimeout <= s.fields.openedAt - trip
  }

  /** By how much a step changes the number of probes started and not aborted. */
  function Net(s: System, e: Event, o: Shown): int {
    if o.Admitted? then 1 else if AbortsCall(s, e) then -1 else 0
  }

  lemma {:induction false} SpacedStep(c: Config, s: System, e: Event, n: int, trip: real)
    requires Spaced(c, s, n, trip) && !e.Succeed? && (e.Enter? ==> s.running == {})
    ensures var (s', o) := Step(c, s, e); Spaced(c, s', n + Net(s, e, o), trip)
  {
    var to := c.recoveryTimeout;
    assert (n - 1) as real * to == n as real * to - to;
    if (e.Fail? || e.Abort?) && e.thread in s.running {
      assert s.running == {e.thread} by {
        assert |s.running - {e.thread}| == 0;
      }
    }
  }

  lemma {:induction false} SpacedRun(c: Config, s: System, es: seq<Event>, n: int, trip: real)
    requires Spaced(c, s, n, trip) && NoSuccess(es) && Sequential(c, s, es)
    ensures Spaced(c, Run(c, s, es).0, n + CountAdmitted(Run(c, s, es).1) - Aborts(c, s, es), trip)
    decreases |es|
  {
    hide Spaced, Step, AbortsCall;
    if es != [] {
      var (s', o) := Step(c, s, es[0]);
      SpacedStep(c, s, es[0], n, trip);
      AdmittedIsNoAbort(c, s, es[0]);
      SpacedRun(c, s', es[1..], n + Net(s, es[0], o), trip);
      assert Run(c, s, es).1 == [o] + Run(c, s', es[1..]).1;
    }
  }

  lemma {:induction false} AdmittedIsNoAbort(c: Config, s: System, e: Event)
    ensures !(Step(c, s, e).1.Admitted? && AbortsCall(s, e))
  {
  }

  /** How often `fn` is started in a run, and how long the run takes. */
  function Starts(c: Config, s: System, es: seq<Event>): nat { CountAdmitted(Run(c, s, es).1) }

  function Elapsed(c: Config, s: System, es: seq<Event>): real { Run(c, s, es).0.now - s.now }

  /** A breaker that has just tripped, with no call in flight. */
  predicate JustTripped(c: Config, s: System) {
    && s.fields.state.Open?
    && s.fields.failures >= c.failureThreshold
    && s.fields.openedAt == s.now
    && s.running == {}
  }

  /**
   After a trip, while calls do not overlap and none succeeds: of the starts of `fn` that are not
   aborted there is at most one per recovery timeout.
   */
  lemma {:induction false} AtMostOneUnabortedProbePerTimeout(c: Config, s: System, es: seq<Event>)
    requires JustTripped(c, s) && NoSuccess(es) && Sequential(c, s, es)
    ensures (Starts(c, s, es) - Aborts(c, s, es)) as real * c.recoveryTimeout <= Elapsed(c, s, es)
    ensures c.recoveryTimeout > 0.0 ==>
              Starts(c, s, es) - Aborts(c, s, es) <= (Elapsed(c, s, es) / c.recoveryTimeout).Floor
  {
    hide Starts, Elapsed, Aborts, Run, Sequential, JustTripped;
    UnabortedProbes(c, s, es);
    DivideOut(Starts(c, s, es) - Aborts(c, s, es), c.recoveryTimeout, Elapsed(c, s, es));
  }

  lemma {:induction false} UnabortedProbes(c: Config, s: System, es: seq<Event>)
    requires JustTripped(c, s) && NoSuccess(es) && Sequential(c, s, es)
    ensures (Starts(c, s, es) - Aborts(c, s, es)) as real * c.recoveryTimeout <= Elapsed(c, s, es)
  {
    assert Spaced(c, s, 0, s.now);
    hide Spaced, Run, Sequential, Aborts;
    SpacedRun(c, s, es, 0, s.now);
    SpacedSince(c, Run(c, s, es).0, Starts(c, s, es) - Aborts(c, s, es), s.now);
  }

  /** Without aborts that is at most one start per recovery timeout. */
  lemma {:induction false} AtMostOneProbePerTimeout(c: Config, s: System, es: seq<Event>)
    requires JustTripped(c, s) && NoSuccess(es) && NoAbort(es) && Sequential(c, s, es)
    ensures Starts(c, s, es) as real * c.recoveryTimeout <= Elapsed(c, s, es)
    ensures c.recoveryTimeout > 0.0 ==> Starts(c, s, es) <= (Elapsed(c, s, es) / c.recoveryTimeout).Floor
  {
    hide Starts, Elapsed, JustTripped;
    AtMostOneUnabortedProbePerTimeout(c, s, es);
    NothingAborted(c, s, es);
  }

  lemma {:induction false} NothingAborted(c: Config, s: System, es: seq<Event>)
    requires NoAbort(es)
    ensures Aborts(c, s, es) == 0
    decreases |es|
  {
    hide Step;
    if es != [] { NothingAborted(c, Step(c, s, es[0]).0, es[1..]); }
  }

  /** The counts of a run, one step at a time. */
  lemma {:induction false} CountsCons(c: Config, s: System, e: Event, es: seq<Event>)
    ensures var (s', o) := Step(c, s, e);
            && Starts(c, s, [e] + es) == (if o.Admitted? then 1 else 0) + Starts(c, s', es)
            && Aborts(c, s, [e] + es) == (if AbortsCall(s, e) then 1 else 0) + Aborts(c, s', es)
            && Run(c, s, [e] + es).0 == Run(c, s', es).0
            && (Sequential(c, s, [e] + es) <==> (e.Enter? ==> s.running == {}) && Sequential(c, s', es))
  {
    hide Step, AbortsCall;
    var (s', o) := Step(c, s, e);
    assert ([e] + es)[1..] == es;
    assert ([o] + Run(c, s', es).1)[1..] == Run(c, s', es).1;
  }

  /** With an abort it is not: an aborted probe leaves the breaker half-open, and the next one starts at once. */
  lemma {:induction false} AbortedProbesAreFree(c: Config, s: System)
    requires JustTripped(c, s) && c.recoveryTimeout > 0.0
    ensures var es := [Tick(c.recoveryTimeout), Enter(0), Abort(0), Enter(1)];
            && NoSuccess(es) && Sequential(c, s, es)
            && Starts(c, s, es) == 2 && Aborts(c, s, es) == 1 && Elapsed(c, s, es) == c.recoveryTimeout
  {
    var tick := Tick(c.recoveryTimeout);
    var s1 := Step(c, s, tick).0;
    var s2 := Step(c, s1, Enter(0)).0;
    var s3 := Step(c, s2, Abort(0)).0;
    assert s2.running == {0} && s3.running == {};
    assert Step(c, s1, Enter(0)).1.Admitted? && Step(c, s3, Enter(1)).1.Admitted?;
    assert Step(c, s3, Enter(1)).0.now == s.now + c.recoveryTimeout;
    hide Step, Starts, Sequential;
    assert [tick, Enter(0), Abort(0), Enter(1)] == [tick] + ([Enter(0)] + ([Abort(0)] + ([Enter(1)] + [])));
    CountsCons(c, s, tick, [Enter(0)] + ([Abort(0)] + ([Enter(1)] + [])));
    CountsCons(c, s1, Enter(0), [Abort(0)] + ([Enter(1)] + []));
    CountsCons(c, s2, Abort(0), [Enter(1)] + []);
    CountsCons(c, s3, Enter(1), []);
    NothingHappens(c, Step(c, s3, Enter(1)).0);
    TickShowsNothing(c, s, c.recoveryTimeout);
    AdmittedIsNoAbort(c, s1, Enter(0));
  }

  lemma {:induction false} NothingHappens(c: Config, s: System)
    ensures Run(c, s, []) == (s, []) && Starts(c, s, []) == 0 && Aborts(c, s, []) == 0 && Sequential(c, s, [])
  {
  }

  lemma {:induction false} TickShowsNothing(c: Config, s: System, dt: real)
    ensures Step(c, s, Tick(dt)).1 == Nothing
    ensures forall t :: !Step(c, s, Abort(t)).1.Admitted?
  {
  }

  lemma {:induction false} SpacedSince(c: Config, s: System, n: int, trip: real)
    requires Spaced(c, s, n, trip)
    ensures n as real * c.recoveryTimeout <= s.now - trip
  {
    assert (n - 1) as real * c.recoveryTimeout == n as real * c.recoveryTimeout - c.recoveryTimeout;
  }

  lemma {:induction false} DivideOut(n: int, to: real, w: real)
    requires n as real * to <= w
    ensures to > 0.0 ==> n <= (w / to).Floor
  {
    if to > 0.0 {
      var x := n as real * to;
      DivUndoes(n as real, x, to);
      DivMonotone(x, w, to);
    }
  }

  // ----- The same spacing, read off the history -----

  /** Whatever completes after a tripping history completes at least the timeout later. */
  ghost predicate FailuresApart(c: Config, h: seq<Completion>) {
    forall k | 0 < k < |h| :: Tripped(c, h[..k]) ==> h[k].at - h[k - 1].at >= c.recoveryTimeout
  }

  predicate IdealSequential(c: Config, s: Ideal, es: seq<Event>)
    decreases |es|
  {
    es == []
    || ((es[0].Enter? ==> s.running == {}) && IdealSequential(c, IdealStep(c, s, es[0]).0, es[1..]))
  }

  /** A running call was admitted, and nothing has completed since. */
  ghost predicate Apart(c: Config, s: Ideal) {
    && FailuresApart(c, s.history)
    && (s.running != {} ==> !(Tripped(c, s.history) && CoolingDown(c, s.history, s.now)))
    && |s.running| <= 1
  }

  lemma {:induction false} ApartStep(c: Config, s: Ideal, e: Event)
    requires Apart(c, s) && (e.Enter? ==> s.running == {})
    ensures Apart(c, IdealStep(c, s, e).0)
  {
    var h, s' := s.history, IdealStep(c, s, e).0;
    if e.Enter? && s'.running != {} {
      assert s'.running == {e.thread};
    } else if Possible(s.running, e) && !e.Enter? && !e.Read? && !e.Tick? {
      assert s.running - {e.thread} == {} by { assert |s.running - {e.thread}| == 0; }
      if !e.Abort? {
        var done := Completion(e.Succeed?, s.now);
        forall k | 0 < k < |h| + 1 && Tripped(c, (h + [done])[..k])
          ensures (h + [done])[k].at - (h + [done])[k - 1].at >= c.recoveryTimeout
        {
          if k < |h| { assert (h + [done])[..k] == h[..k]; } else { assert (h + [done])[..k] == h; }
        }
      }
    }
  }

  /** With non-overlapping calls, probes that fail, or succeed, are at least the timeout apart. */
  lemma {:induction false} ProbesAreApart(c: Config, s: Ideal, es: seq<Event>)
    requires Apart(c, s) && IdealSequential(c, s, es)
    ensures FailuresApart(c, IdealRun(c, s, es).0.history)
    decreases |es|
  {
    hide FailuresApart, Tripped, CoolingDown, IdealStep;
    if es != [] {
      ApartStep(c, s, es[0]);
      ProbesAreApart(c, IdealStep(c, s, es[0]).0, es[1..]);
    }
  }

  /** The calls that complete in a run, read off the events and the clock. */
  function Completions(c: Config, s: System, es: seq<Event>): seq<Completion>
    decreases |es|
  {
    if es == [] then []
    else
      (if (es[0].Succeed? || es[0].Fail?) && es[0].thread in s.running then [Completion(es[0].Succeed?, s.now)] else [])
      + Completions(c, Step(c, s, es[0]).0, es[1..])
  }

  /** Along a run of the field machine the history is that of its completions, and calls overlap alike. */
  lemma {:induction false} SameHistory(c: Config, s: System, i: Ideal, es: seq<Event>)
    requires Refines(c, s, i)
    ensures IdealRun(c, i, es).0.history == i.history + Completions(c, s, es)
    ensures IdealSequential(c, i, es) <==> Sequential(c, s, es)
    decreases |es|
  {
    if es != [] {
      var s', i' := Step(c, s, es[0]).0, IdealStep(c, i, es[0]).0;
      StepRefines(c, s, i, es[0]);
      hide Refines;
      SameHistory(c, s', i', es[1..]);
    }
  }

  /**
   In every run of a fresh breaker in which calls do not overlap: whatever completes while the calls before it
   have tripped the breaker completes at least the timeout after the last of them.
   */
  lemma {:induction false} RunProbesAreApart(c: Config, now: real, es: seq<Event>)
    requires Sequential(c, Start(now), es)
    ensures FailuresApart(c, Completions(c, Start(now), es))
  {
    hide Sequential, IdealSequential, IdealRun, Completions;
    SameHistory(c, Start(now), IdealStart(now), es);
    assert [] + Completions(c, Start(now), es) == Completions(c, Start(now), es);
    ProbesAreApart(c, IdealStart(now), es);
  }
}
