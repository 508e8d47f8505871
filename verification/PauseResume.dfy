/**
 The durable pause. A run that pauses, restarts any number of times and is then answered ends
 like one in which `interrupt` returned the answer at once, although the node's body runs again:
 the request is logged at every attempt and committed once.
 */
module PauseResume {
  import opened Wrappers
  import opened Domain
  import opened Underwriting
  import opened Audit
  import opened Workflow
  import opened WorkflowRuns

  /** A checkpoint at the pause, with what the reviewer is shown. */
  predicate AtPause(c: Checkpoint) {
    && c.next == Some(HumanEscalation)
    && c.values.risk.Some? && c.values.policy.Some?
    && c.interrupts == [PayloadOf(c.values)]
  }

  lemma {:induction false} StepShape(w: World, sv: Services, c: Checkpoint, resume: Option<Resolution>)
    ensures var t := Superstep(w, sv, c, resume);
            && (t.how.Moved? ==> t.c.values.audit == c.values.audit + t.log)
            && (t.how.Paused? ==>
                  && Stage(c.next) == 4 && AtPause(t.c) && t.c.values == c.values && resume.None?
                  && t.log == [RequestEvent(w, c.values)])
            && (t.how.Raised? ==> t.c == c)
            && (Stage(c.next) == 4 && resume.None? ==> !t.how.Moved?)
  {
    hide Validated, ValidExtracted, ValidRisk, ValidResolution, Assess, PolicyOf, DetermineOutcome, Causes,
      RequestEvent;
  }

  /** Everything logged on the way to the end or to a pause is committed, except the pending request. */
  lemma {:induction false} InvokeLogs(w: World, sv: Services, c: Checkpoint, resume: Option<Resolution>)
    ensures var t := Invoke(w, sv, c, resume);
            && (t.how.Moved? ==> t.c.next.None? && t.c.values.audit == c.values.audit + t.log)
            && (t.how.Paused? ==>
                  && AtPause(t.c) && resume.None?
                  && t.c.values.audit + [RequestEvent(w, t.c.values)] == c.values.audit + t.log)
    decreases 7 - Stage(c.next)
  {
    hide Superstep, AtPause, RequestEvent;
    var t := Superstep(w, sv, c, resume);
    StepShape(w, sv, c, resume);
    MovingAdvances(w, sv, c, resume);
    if c.next.Some? && t.how.Moved? {
      InvokeLogs(w, sv, t.c, resume);
      var rest := Invoke(w, sv, t.c, resume);
      assert c.values.audit + (t.log + rest.log) == t.c.values.audit + rest.log;
    }
  }

  // ----- Restarts -----

  /** The process is restarted and the paused run invoked again without an answer, once per element. */
  function Restarts(w: World, c: Checkpoint, svs: seq<Services>): Turn
    decreases |svs|
  {
    if svs == [] then Turn(c, [], Paused)
    else
      var t := Invoke(w, svs[0], c, None);
      var rest := Restarts(w, t.c, svs[1..]);
      Turn(rest.c, t.log + rest.log, rest.how)
  }

  /** Restarts change nothing that is stored; each one logs the request again. */
  lemma {:induction false} RestartsChangeNothing(w: World, c: Checkpoint, svs: seq<Services>)
    requires AtPause(c)
    ensures Restarts(w, c, svs) == Turn(c, seq(|svs|, k => RequestEvent(w, c.values)), Paused)
    decreases |svs|
  {
    hide RequestEvent, PayloadOf;
    if svs != [] {
      RestartsChangeNothing(w, c, svs[1..]);
      var e := RequestEvent(w, c.values);
      assert Invoke(w, svs[0], c, None) == Turn(c, [e], Paused);
      assert [e] + seq(|svs| - 1, k => e) == seq(|svs|, k => e);
    }
  }

  // ----- Resuming -----

  /** The services in force: `first` before the pause, `second` after it. */
  function Handover(first: Services, second: Services): Services {
    Services(first.extract, first.bureau, second.explain)
  }

  /** Before the pause only extraction and the bureau are consulted, after it only the explainer. */
  lemma {:induction false} HandoverIsInvisible(
      w: World, first: Services, second: Services, c: Checkpoint, resume: Option<Resolution>)
    ensures Stage(c.next) < 4 ==>
              Superstep(w, Handover(first, second), c, resume) == Superstep(w, first, c, None)
    ensures Stage(c.next) >= 4 ==>
              Superstep(w, Handover(first, second), c, resume) == Superstep(w, second, c, resume)
  {
    hide Validated, ValidExtracted, ValidRisk, ValidResolution, Assess, PolicyOf, DetermineOutcome, Causes,
      RequestEvent;
  }

  lemma {:induction false} LateRunsDoNotPause(w: World, sv: Services, c: Checkpoint)
    requires Stage(c.next) > 4
    ensures !Invoke(w, sv, c, None).how.Paused?
    decreases 7 - Stage(c.next)
  {
    hide Superstep;
    StepShape(w, sv, c, None);
    MovingAdvances(w, sv, c, None);
    var t := Superstep(w, sv, c, None);
    if c.next.Some? && t.how.Moved? { LateRunsDoNotPause(w, sv, t.c); }
  }

  lemma {:induction false} HandoverAfter(w: World, first: Services, second: Services, c: Checkpoint,
                                         resume: Option<Resolution>)
    requires Stage(c.next) >= 4
    ensures Invoke(w, Handover(first, second), c, resume) == Invoke(w, second, c, resume)
    decreases 7 - Stage(c.next)
  {
    hide Superstep, Handover;
    HandoverIsInvisible(w, first, second, c, resume);
    MovingAdvances(w, second, c, resume);
    var t := Superstep(w, second, c, resume);
    if c.next.Some? && t.how.Moved? { HandoverAfter(w, first, second, t.c, resume); }
  }

  /** The pending interrupt plays no part in what an answered node does. */
  lemma {:induction false} AnswerIgnoresInterrupts(w: World, sv: Services, c: Checkpoint, d: Checkpoint, r: Resolution)
    requires c.values == d.values && c.next == d.next == Some(HumanEscalation)
    ensures var t, v := Invoke(w, sv, c, Some(r)), Invoke(w, sv, d, Some(r));
            t.c.values == v.c.values && t.c.next == v.c.next && t.log == v.log && t.how == v.how
  {
    hide PayloadOf, RequestEvent, ValidResolution;
    var t, v := Superstep(w, sv, c, Some(r)), Superstep(w, sv, d, Some(r));
    MovingAdvances(w, sv, c, Some(r));
  }

  /**
   `straight` ends as `resumed` does, with the same values, and logs what the two halves log but for
   the request at the end of the first half, with which the second half starts again.
   */
  predicate JoinsUp(w: World, paused: Turn, resumed: Turn, straight: Turn) {
    && AtPause(paused.c)
    && resumed.c.values == straight.c.values
    && resumed.c.next == straight.c.next
    && resumed.how == straight.how
    && paused.log != [] && resumed.log != []
    && paused.log[|paused.log| - 1] == RequestEvent(w, paused.c.values) == resumed.log[0]
    && straight.log == paused.log[..|paused.log| - 1] + resumed.log
  }

  lemma {:induction false} JoinsUpAtOnce(w: World, paused: Turn, resumed: Turn, straight: Turn)
    requires AtPause(paused.c) && paused.log == [RequestEvent(w, paused.c.values)]
    requires resumed.log != [] && resumed.log[0] == RequestEvent(w, paused.c.values)
    requires resumed.(c := straight.c) == straight
    requires resumed.c.values == straight.c.values && resumed.c.next == straight.c.next
    ensures JoinsUp(w, paused, resumed, straight)
  {
    hide RequestEvent;
    assert paused.log[..0] + resumed.log == resumed.log;
  }

  lemma {:induction false} JoinsUpEarlier(w: World, log: seq<AuditEvent>, paused: Turn, resumed: Turn, straight: Turn)
    requires JoinsUp(w, paused, resumed, straight)
    ensures JoinsUp(w, Turn(paused.c, log + paused.log, paused.how), resumed,
                    Turn(straight.c, log + straight.log, straight.how))
  {
    hide RequestEvent, PayloadOf;
    var longer := log + paused.log;
    assert longer[|longer| - 1] == paused.log[|paused.log| - 1];
    assert longer[..|longer| - 1] == log + paused.log[..|paused.log| - 1];
  }

  lemma {:induction false} AnswerStartsOver(w: World, sv: Services, c: Checkpoint, r: Resolution)
    requires AtPause(c)
    ensures var t := Invoke(w, sv, c, Some(r)); t.log != [] && t.log[0] == RequestEvent(w, c.values)
  {
    hide PayloadOf, RequestEvent, ValidResolution;
    MovingAdvances(w, sv, c, Some(r));
  }

  /**
   Pausing and resuming is one uninterrupted run, whatever services are in force before the pause
   and after it.
   */
  lemma {:induction false} PauseThenResume(w: World, first: Services, second: Services, c: Checkpoint, r: Resolution)
    requires Invoke(w, first, c, None).how.Paused?
    ensures var paused := Invoke(w, first, c, None);
            var resumed := Invoke(w, second, paused.c, Some(r));
            JoinsUp(w, paused, resumed, Invoke(w, Handover(first, second), c, Some(r)))
    decreases 7 - Stage(c.next)
  {
    hide Superstep, JoinsUp, AtPause, RequestEvent, Handover;
    StepShape(w, first, c, None);
    MovingAdvances(w, first, c, None);
    HandoverIsInvisible(w, first, second, c, Some(r));
    if Stage(c.next) > 4 { LateRunsDoNotPause(w, first, c); }
    var t := Superstep(w, first, c, None);
    if t.how.Paused? {
      HandoverAfter(w, first, second, c, Some(r));
      AnswerIgnoresInterrupts(w, second, c, t.c, r);
      AnswerStartsOver(w, second, t.c, r);
      JoinsUpAtOnce(w, t, Invoke(w, second, t.c, Some(r)), Invoke(w, second, c, Some(r)));
    } else {
      PauseThenResume(w, first, second, t.c, r);
      var later := Invoke(w, first, t.c, None);
      JoinsUpEarlier(w, t.log, later, Invoke(w, second, later.c, Some(r)),
                     Invoke(w, Handover(first, second), t.c, Some(r)));
    }
  }

  // ----- An escalated run from start to end -----

  lemma {:induction false} AnswerIsRecorded(w: World, sv: Services, c: Checkpoint, r: Resolution)
    requires Sound(w, c) && AtPause(c) && !Invoke(w, sv, c, Some(r)).how.Raised?
    ensures Invoke(w, sv, c, Some(r)).c.values.resolution == Some(r)
  {
    hide Sound, PayloadOf, RequestEvent;
    StepKeepsSound(w, sv, c, Some(r));
    var t := Superstep(w, sv, c, Some(r));
    assert t.c.values.resolution == Some(r);
    InvokeKeepsSound(w, sv, t.c, Some(r));
  }

  /** What the reviewer is shown is what is committed as the request, whatever happens in between. */
  lemma {:induction false} ShownIsCommitted(
      w: World, a: Application, correlationId: string, c: Checkpoint, inputs: seq<Input>)
    requires Reachable(w, a, correlationId, c) && AtPause(c)
    ensures var d := RunFrom(w, c, inputs);
            d.values.resolution.Some? ==> d.values.request == Some(c.interrupts[0])
  {
    hide GoodTrail, RunFrom, Causes, ValidExtracted, ValidRisk, PolicyOf, Assess, DecisionFollows, Validated,
      Reachable;
    ReachableIsSound(w, a, correlationId, c);
    RunsKeepSound(w, c, inputs);
  }

  /**
   From the start over the pause, any number of restarts and the answer to the end: four events
   are committed before the pause and four after it. The request is committed once and logged
   once at the pause, once at every restart and once more at the end. The run ends with the values
   of the uninterrupted one.
   */
  lemma {:induction false} RequestedOnceLoggedAgain(w: World, first: Services, svs: seq<Services>, second: Services,
                                 a: Application, correlationId: string, r: Resolution)
    requires Invoke(w, first, Fresh(a, correlationId), None).how.Paused?
    requires var paused := Invoke(w, first, Fresh(a, correlationId), None);
             Invoke(w, second, Restarts(w, paused.c, svs).c, Some(r)).how.Moved?
    ensures var paused := Invoke(w, first, Fresh(a, correlationId), None);
            var restarted := Restarts(w, paused.c, svs);
            var ended := Invoke(w, second, restarted.c, Some(r));
            var before, after := paused.c.values, ended.c.values;
            && AtPause(paused.c)
            && paused.log == before.audit + [RequestEvent(w, before)]
            && restarted.log == seq(|svs|, k => RequestEvent(w, before))
            && after.audit == before.audit + ended.log
            && |before.audit| == |ended.log| == 4
            && ended.log[0] == RequestEvent(w, before)
            && ended.log[1].action.EscalationResolved? && ended.log[1].actor == HumanReviewer(r.reviewer)
            && ended.log[2].action.RationaleGenerated? && ended.log[3].action.DecisionFinalized?
            && after.request == Some(paused.c.interrupts[0]) && after.resolution == Some(r)
            && after == Invoke(w, Handover(first, second), Fresh(a, correlationId), Some(r)).c.values
  {
    hide Superstep, Invoke, PayloadOf, RequestEvent, GoodEvent, Restarts;
    var c := Fresh(a, correlationId);
    var paused := Invoke(w, first, c, None);
    FreshIsSound(w, a, correlationId);
    InvokeKeepsSound(w, first, c, None);
    InvokeLogs(w, first, c, None);
    RestartsChangeNothing(w, paused.c, svs);
    var ended := Invoke(w, second, paused.c, Some(r));
    EndOfEscalation(w, second, paused.c, r);
    PauseThenResume(w, first, second, c, r);
    assert [] + paused.log == paused.log;
  }

  lemma {:induction false} EndOfEscalation(w: World, sv: Services, c: Checkpoint, r: Resolution)
    requires Sound(w, c) && AtPause(c) && Invoke(w, sv, c, Some(r)).how.Moved?
    ensures var ended := Invoke(w, sv, c, Some(r));
            && ended.c.values.audit == c.values.audit + ended.log
            && |c.values.audit| == |ended.log| == 4
            && ended.log[0] == RequestEvent(w, c.values)
            && ended.log[1].action.EscalationResolved? && ended.log[1].actor == HumanReviewer(r.reviewer)
            && ended.log[2].action.RationaleGenerated? && ended.log[3].action.DecisionFinalized?
            && ended.c.values.request == Some(c.interrupts[0])
            && ended.c.values.resolution == Some(r)
  {
    hide Superstep, Invoke, PayloadOf, RequestEvent, Causes, ValidExtracted, ValidRisk,
      PolicyOf, Assess, DecisionFollows, Validated;
    var ended := Invoke(w, sv, c, Some(r));
    InvokeKeepsSound(w, sv, c, Some(r));
    InvokeLogs(w, sv, c, Some(r));
    AnswerStartsOver(w, sv, c, r);
    AnswerIsRecorded(w, sv, c, r);
    var all := ended.c.values.audit;
    assert |all| == 8;
    assert GoodEvent(ended.c.values, all[5], FullTrail(true)[5]);
    assert GoodEvent(ended.c.values, all[6], FullTrail(true)[6]);
    assert GoodEvent(ended.c.values, all[7], FullTrail(true)[7]);
    SamePayload(c.values, ended.c.values);
  }

  lemma {:induction false} SamePayload(s: State, t: State)
    requires s.risk.Some? && s.policy.Some? && Extends(s, t)
    ensures t.risk.Some? && t.policy.Some? && PayloadOf(s) == PayloadOf(t)
  {
  }

  lemma {:induction false} AnswerMoves(w: World, sv: Services, c: Checkpoint, r: Resolution)
    requires Sound(w, c) && AtPause(c)
    ensures var t := Superstep(w, sv, c, Some(r));
            if 1 <= |r.reviewer| <= 100 && |r.notes| <= 2000
            then t.how.Moved? && t.c.values.resolution == Some(r)
            else t.how.Raised? && t.c == c
  {
    hide PayloadOf, RequestEvent, Sound, Event;
  }

  /**
   A reviewer's answer is recorded exactly if the id has 1 to 100 characters and the notes have at most 2000,
   whatever becomes of the run after it; if not, the run stays at the pause.
   */
  lemma {:induction false} AnswerIsTakenIff(w: World, sv: Services, c: Checkpoint, r: Resolution)
    requires Sound(w, c) && AtPause(c)
    ensures var t := Invoke(w, sv, c, Some(r));
            if 1 <= |r.reviewer| <= 100 && |r.notes| <= 2000 then t.c.values.resolution == Some(r) else t.c == c
  {
    hide Sound, Superstep, PayloadOf;
    AnswerMoves(w, sv, c, r);
    StepKeepsSound(w, sv, c, Some(r));
    MovingAdvances(w, sv, c, Some(r));
    var t := Superstep(w, sv, c, Some(r));
    if t.how.Moved? { InvokeKeepsSound(w, sv, t.c, Some(r)); }
  }
}
