/** What holds at every checkpoint a run can reach, however its nodes pause, fail and run again. */
module WorkflowRuns {
  import opened Wrappers
  import opened CharTable
  import opened Domain
  import opened Underwriting
  import opened Audit
  import opened Workflow
  import JsonRedaction
  import PiiRedaction
  import Substitution

  // ----- The trail a run leaves -----

  /** The six events of a straight-through run, or the eight of an escalated one. */
  function FullTrail(escalated: bool): seq<Action> {
    [ApplicationReceived, FinancialsExtracted, RiskScored, PolicyEvaluated]
    + (if escalated then [EscalationRequested, EscalationResolved] else [])
    + [RationaleGenerated, DecisionFinalized]
  }

  function FullSpans(escalated: bool): seq<Span> {
    [NodeSpan(Intake), NodeSpan(DocumentExtraction), NodeSpan(RiskScoring), NodeSpan(PolicyCompliance)]
    + (if escalated then [RequestSpan, ResumeSpan] else [])
    + [NodeSpan(Explainability), NodeSpan(DecisionOutput)]
  }

  /** How many of those events are committed when `next` is to run. */
  function Reached(next: Option<Node>, escalated: bool): nat {
    match Stage(next)
    case 5 => if escalated then 6 else 4
    case 6 => if escalated then 7 else 5
    case 7 => if escalated then 8 else 6
    case n => n
  }

  /** Who acts in an event: the reviewer resolves, everything else is done by an agent. */
  function ActorOf(action: Action, resolution: Option<Resolution>): Actor {
    match action
    case ApplicationReceived => Agent(Intake)
    case FinancialsExtracted => Agent(DocumentExtraction)
    case RiskScored => Agent(RiskScoring)
    case PolicyEvaluated => Agent(PolicyCompliance)
    case EscalationRequested => Agent(HumanEscalation)
    case EscalationResolved =>
      if resolution.Some? then HumanReviewer(resolution.value.reviewer) else Agent(HumanEscalation)
    case RationaleGenerated => Agent(Explainability)
    case DecisionFinalized => Agent(DecisionOutput)
  }

  predicate GoodEvent(s: State, e: AuditEvent, action: Action) {
    && e.action == action
    && e.actor == ActorOf(action, s.resolution)
    && e.applicationId == s.applicationId
    && e.correlationId == s.correlationId
  }

  predicate GoodTrail(s: State, count: nat) {
    var escalated := s.resolution.Some?;
    && count <= |FullTrail(escalated)|
    && |s.audit| == count
    && s.spans == FullSpans(escalated)[..count]
    && forall k | 0 <= k < count :: GoodEvent(s, s.audit[k], FullTrail(escalated)[k])
  }

  // ----- The values a run holds -----

  /** Which parts are present when `next` is to run. */
  predicate Present(c: Checkpoint) {
    var s, stage := c.values, Stage(c.next);
    && (s.extracted.Some? <==> stage > 1)
    && (s.risk.Some? <==> stage > 2)
    && (s.policy.Some? <==> stage > 3)
    && (s.decision.Some? <==> stage > 5)
    && (s.request.Some? <==> s.resolution.Some?)
    && (stage <= 4 ==> s.resolution.None?)
    && s.status == (if stage == 7 then Completed else if s.resolution.Some? then Resolved else InProgress)
  }

  /** What a decision says, apart from its wording. */
  predicate DecisionFollows(s: State)
    requires s.decision.Some? && s.risk.Some? && s.policy.Some?
  {
    var d := s.decision.value;
    && Verdict(d.outcome, d.amount, d.reasons)
       == DetermineOutcome(s.application, s.risk.value, s.policy.value, s.resolution)
    && d.decidedBy == DecidedBy(s.resolution)
    && d.rationale != ""
  }

  /** The parts that are present follow from one another by the rules. */
  predicate Derived(w: World, c: Checkpoint)
    requires Present(c)
  {
    var s, stage := c.values, Stage(c.next);
    && (stage > 0 ==> Validated(w.u, s.application) == Some(s.application))
    && (stage > 1 ==> ValidExtracted(s.extracted.value))
    && (stage > 2 ==>
          && ValidRisk(s.risk.value)
          && s.risk.value == Assess(w.settings, s.application, s.extracted.value, s.risk.value.report))
    && (stage > 3 ==> s.policy.value == PolicyOf(s.application, s.extracted.value))
    && (stage == 4 ==> NeedsHuman(s))
    && (stage > 4 ==> (s.resolution.Some? <==> NeedsHuman(s)))
    && (s.resolution.Some? ==> ValidResolution(s.resolution.value) && s.request.value == PayloadOf(s))
    && (stage > 5 ==> DecisionFollows(s))
    && (c.interrupts == [] || (stage == 4 && c.interrupts == [PayloadOf(s)]))
  }

  predicate Sound(w: World, c: Checkpoint) {
    && Present(c)
    && Derived(w, c)
    && GoodTrail(c.values, Reached(c.next, c.values.resolution.Some?))
  }

  // ----- Every step keeps this -----

  lemma {:induction false} FreshIsSound(w: World, a: Application, correlationId: string)
    ensures Sound(w, Fresh(a, correlationId))
  {
  }

  /** The events of a committed step extend the trail. */
  lemma {:induction false} TrailGrows(s: State, t: State, n: nat, m: nat)
    requires GoodTrail(s, n) && n <= m <= |FullTrail(t.resolution.Some?)| && |t.audit| == m
    requires t.applicationId == s.applicationId && t.correlationId == s.correlationId
    requires t.resolution == s.resolution || (s.resolution.None? && n <= 4)
    requires t.audit[..n] == s.audit
    requires t.spans == s.spans + FullSpans(t.resolution.Some?)[n..m]
    requires forall k | n <= k < m :: GoodEvent(t, t.audit[k], FullTrail(t.resolution.Some?)[k])
    ensures GoodTrail(t, m)
  {
    var escalated := t.resolution.Some?;
    assert FullSpans(escalated)[..n] + FullSpans(escalated)[n..m] == FullSpans(escalated)[..m];
    assert s.spans == FullSpans(escalated)[..n];
    forall k | 0 <= k < n ensures GoodEvent(t, t.audit[k], FullTrail(escalated)[k]) {
      assert t.audit[k] == t.audit[..n][k];
      assert GoodEvent(s, s.audit[k], FullTrail(s.resolution.Some?)[k]);
    }
  }

  lemma {:induction false} EventIsGood(
      w: World, s: State, t: State, action: Action, details: seq<JsonRedaction.Field>)
    requires t.applicationId == s.applicationId && t.correlationId == s.correlationId
    ensures GoodEvent(t, Event(w, s, ActorOf(action, t.resolution), action, details), action)
  {
  }

  /** A step that records one event, next in line, extends the trail by it. */
  lemma {:induction false} OneMore(
      w: World, s: State, t: State, n: nat, action: Action, details: seq<JsonRedaction.Field>, span: Span)
    requires GoodTrail(s, n)
    requires t.applicationId == s.applicationId && t.correlationId == s.correlationId && t.resolution == s.resolution
    requires InLine(s.resolution.Some?, n, action, span)
    requires t.audit == s.audit + [Event(w, s, ActorOf(action, s.resolution), action, details)]
    requires t.spans == s.spans + [span]
    ensures GoodTrail(t, n + 1)
  {
    hide GoodEvent, ActorOf, FullTrail, FullSpans, Event;
    EventIsGood(w, s, t, action, details);
    var all := FullSpans(s.resolution.Some?);
    assert all[n..n + 1] == [all[n]];
    assert t.audit[..n] == s.audit;
    TrailGrows(s, t, n, n + 1);
  }

  /** The `n`-th event of a run and the span it comes with. */
  predicate InLine(escalated: bool, n: nat, action: Action, span: Span) {
    && n < |FullTrail(escalated)| == |FullSpans(escalated)|
    && FullTrail(escalated)[n] == action
    && FullSpans(escalated)[n] == span
  }

  lemma {:induction false} Lines(escalated: bool)
    ensures InLine(escalated, 0, ApplicationReceived, NodeSpan(Intake))
    ensures InLine(escalated, 1, FinancialsExtracted, NodeSpan(DocumentExtraction))
    ensures InLine(escalated, 2, RiskScored, NodeSpan(RiskScoring))
    ensures InLine(escalated, 3, PolicyEvaluated, NodeSpan(PolicyCompliance))
    ensures InLine(escalated, if escalated then 6 else 4, RationaleGenerated, NodeSpan(Explainability))
    ensures InLine(escalated, if escalated then 7 else 5, DecisionFinalized, NodeSpan(DecisionOutput))
  {
  }

  lemma {:induction false} IntakeKeepsSound(w: World, sv: Services, c: Checkpoint, resume: Option<Resolution>)
    requires Sound(w, c) && c.next == Some(Intake)
    ensures Sound(w, Superstep(w, sv, c, resume).c)
  {
    hide Validated;
    hide GoodTrail, InLine;
    var s, t := c.values, Superstep(w, sv, c, resume).c.values;
    Lines(false);
    if Validated(w.u, s.application).Some? {
      ValidatedIsStable(w.u, s.application);
      OneMore(w, s, t, 0, ApplicationReceived, ReceivedDetails(t.application), NodeSpan(Intake));
    }
  }

  lemma {:induction false} DocumentExtractionKeepsSound(
      w: World, sv: Services, c: Checkpoint, resume: Option<Resolution>)
    requires Sound(w, c) && c.next == Some(DocumentExtraction)
    ensures Sound(w, Superstep(w, sv, c, resume).c)
  {
    hide Validated, ValidExtracted;
    hide GoodTrail, InLine;
    var s, t := c.values, Superstep(w, sv, c, resume).c.values;
    Lines(false);
    if t.extracted.Some? {
      OneMore(w, s, t, 1, FinancialsExtracted, ExtractedDetails(t.extracted.value), NodeSpan(DocumentExtraction));
    }
  }

  lemma {:induction false} RiskScoringKeepsSound(w: World, sv: Services, c: Checkpoint, resume: Option<Resolution>)
    requires Sound(w, c) && c.next == Some(RiskScoring)
    ensures Sound(w, Superstep(w, sv, c, resume).c)
  {
    hide Validated, ValidExtracted, ValidRisk, DebtToIncome, ClassifyRiskTier;
    hide GoodTrail, InLine;
    var s, t := c.values, Superstep(w, sv, c, resume).c.values;
    Lines(false);
    if t.risk.Some? {
      OneMore(w, s, t, 2, RiskScored, ScoredDetails(t.risk.value), NodeSpan(RiskScoring));
    }
  }

  lemma {:induction false} PolicyComplianceKeepsSound(w: World, sv: Services, c: Checkpoint, resume: Option<Resolution>)
    requires Sound(w, c) && c.next == Some(PolicyCompliance)
    ensures Sound(w, Superstep(w, sv, c, resume).c)
  {
    hide Validated, ValidExtracted, ValidRisk, Assess, PolicyOf;
    hide GoodTrail, InLine;
    var s, t := c.values, Superstep(w, sv, c, resume).c.values;
    Lines(false);
    if t.policy.Some? {
      OneMore(w, s, t, 3, PolicyEvaluated, PolicyDetails(t.policy.value), NodeSpan(PolicyCompliance));
    }
  }

  lemma {:induction false} HumanEscalationKeepsSound(w: World, sv: Services, c: Checkpoint, resume: Option<Resolution>)
    requires Sound(w, c) && c.next == Some(HumanEscalation)
    ensures Sound(w, Superstep(w, sv, c, resume).c)
  {
    hide Validated, ValidExtracted, ValidRisk, Assess, PolicyOf, ValidResolution,
      Causes, RequestDetails, ResolvedDetails;
    var s, t := c.values, Superstep(w, sv, c, resume).c.values;
    if t.resolution.Some? {
      EventIsGood(w, s, t, EscalationRequested, RequestDetails(w, PayloadOf(s)));
      EventIsGood(w, s, t, EscalationResolved, ResolvedDetails(t.resolution.value));
      TrailGrows(s, t, 4, 6);
    }
  }

  lemma {:induction false} ExplainabilityKeepsSound(w: World, sv: Services, c: Checkpoint, resume: Option<Resolution>)
    requires Sound(w, c) && c.next == Some(Explainability)
    ensures Sound(w, Superstep(w, sv, c, resume).c)
  {
    hide Validated, ValidExtracted, ValidRisk, Assess, PolicyOf, ValidResolution,
      Causes, DetermineOutcome;
    hide GoodTrail, InLine;
    var s, t := c.values, Superstep(w, sv, c, resume).c.values;
    Lines(s.resolution.Some?);
    if t.decision.Some? {
      var d := t.decision.value;
      var n := if s.resolution.Some? then 6 else 4;
      OneMore(w, s, t, n, RationaleGenerated, RationaleDetails(d.outcome, d.decidedBy), NodeSpan(Explainability));
    }
  }

  lemma {:induction false} DecisionOutputKeepsSound(w: World, sv: Services, c: Checkpoint, resume: Option<Resolution>)
    requires Sound(w, c) && c.next == Some(DecisionOutput)
    ensures Sound(w, Superstep(w, sv, c, resume).c)
  {
    hide Validated, ValidExtracted, ValidRisk, Assess, PolicyOf, ValidResolution,
      Causes, DetermineOutcome;
    hide GoodTrail, InLine;
    var s, t := c.values, Superstep(w, sv, c, resume).c.values;
    Lines(s.resolution.Some?);
    var outcome := s.decision.value.outcome;
    var n := if s.resolution.Some? then 7 else 5;
    OneMore(w, s, t, n, DecisionFinalized, FinalDetails(outcome), NodeSpan(DecisionOutput));
  }

  /** Whatever the services answer and whatever a reviewer sends, a step keeps a run sound. */
  lemma {:induction false} StepKeepsSound(w: World, sv: Services, c: Checkpoint, resume: Option<Resolution>)
    requires Sound(w, c)
    ensures Sound(w, Superstep(w, sv, c, resume).c)
  {
    hide Sound, RunNode;
    match c.next
    case None =>
    case Some(Intake) => IntakeKeepsSound(w, sv, c, resume);
    case Some(DocumentExtraction) => DocumentExtractionKeepsSound(w, sv, c, resume);
    case Some(RiskScoring) => RiskScoringKeepsSound(w, sv, c, resume);
    case Some(PolicyCompliance) => PolicyComplianceKeepsSound(w, sv, c, resume);
    case Some(HumanEscalation) => HumanEscalationKeepsSound(w, sv, c, resume);
    case Some(Explainability) => ExplainabilityKeepsSound(w, sv, c, resume);
    case Some(DecisionOutput) => DecisionOutputKeepsSound(w, sv, c, resume);
  }

  // ----- Whole runs -----

  /** One turn of the scheduler: how the services answer, and what a reviewer sent, if anything. */
  datatype Input = Input(sv: Services, resume: Option<Resolution>)

  /** The checkpoint after any number of turns, be they steps, restarts, failures or answers. */
  function RunFrom(w: World, c: Checkpoint, inputs: seq<Input>): Checkpoint
    decreases |inputs|
  {
    if inputs == [] then c
    else RunFrom(w, Superstep(w, inputs[0].sv, c, inputs[0].resume).c, inputs[1..])
  }

  ghost predicate Reachable(w: World, a: Application, correlationId: string, c: Checkpoint) {
    exists inputs :: c == RunFrom(w, Fresh(a, correlationId), inputs)
  }

  /** Trails are extended at the end, and what was written is never written again. */
  ghost predicate Extends(s: State, t: State) {
    && t.applicationId == s.applicationId
    && t.correlationId == s.correlationId
    && s.audit <= t.audit
    && s.spans <= t.spans
    && (s.extracted.Some? ==> t.extracted == s.extracted && t.application == s.application)
    && (s.risk.Some? ==> t.risk == s.risk)
    && (s.policy.Some? ==> t.policy == s.policy)
    && (s.decision.Some? ==> t.decision == s.decision)
    && (s.request.Some? ==> t.request == s.request)
    && (s.resolution.Some? ==> t.resolution == s.resolution)
  }

  lemma {:induction false} StepExtends(w: World, sv: Services, c: Checkpoint, resume: Option<Resolution>)
    requires Sound(w, c)
    ensures Extends(c.values, Superstep(w, sv, c, resume).c.values)
  {
    hide GoodTrail, Derived, Validated, ValidExtracted, ValidRisk,
      Assess, PolicyOf, DetermineOutcome, Causes, RequestDetails;
  }

  lemma {:induction false} ExtendsChains(s: State, t: State, v: State)
    requires Extends(s, t) && Extends(t, v)
    ensures Extends(s, v)
  {
  }

  /** From a sound checkpoint, every later checkpoint is sound and extends it. */
  lemma {:induction false} RunsKeepSound(w: World, c: Checkpoint, inputs: seq<Input>)
    requires Sound(w, c)
    ensures Sound(w, RunFrom(w, c, inputs)) && Extends(c.values, RunFrom(w, c, inputs).values)
    decreases |inputs|
  {
    hide Sound, Superstep, Extends;
    if inputs == [] {
      assert Extends(c.values, c.values) by { ExtendsItself(c.values); }
    } else {
      var d := Superstep(w, inputs[0].sv, c, inputs[0].resume).c;
      StepKeepsSound(w, inputs[0].sv, c, inputs[0].resume);
      StepExtends(w, inputs[0].sv, c, inputs[0].resume);
      RunsKeepSound(w, d, inputs[1..]);
      ExtendsChains(c.values, d.values, RunFrom(w, c, inputs).values);
    }
  }

  /** So does running to the end, a pause or an exception. */
  lemma {:induction false} InvokeKeepsSound(w: World, sv: Services, c: Checkpoint, resume: Option<Resolution>)
    requires Sound(w, c)
    ensures Sound(w, Invoke(w, sv, c, resume).c) && Extends(c.values, Invoke(w, sv, c, resume).c.values)
    decreases 7 - Stage(c.next)
  {
    hide Sound, Superstep, Extends;
    StepKeepsSound(w, sv, c, resume);
    StepExtends(w, sv, c, resume);
    MovingAdvances(w, sv, c, resume);
    var t := Superstep(w, sv, c, resume);
    if c.next.Some? && t.how.Moved? {
      InvokeKeepsSound(w, sv, t.c, resume);
      ExtendsChains(c.values, t.c.values, Invoke(w, sv, t.c, resume).c.values);
    }
  }

  lemma {:induction false} ExtendsItself(s: State)
    ensures Extends(s, s)
  {
  }

  /** The invariant holds at every reachable checkpoint, which belongs to the run that was started. */
  lemma {:induction false} ReachableIsSound(w: World, a: Application, correlationId: string, c: Checkpoint)
    requires Reachable(w, a, correlationId, c)
    ensures Sound(w, c)
    ensures c.values.applicationId == a.id && c.values.correlationId == correlationId
  {
    hide Sound, Superstep, RunFrom;
    var inputs :| c == RunFrom(w, Fresh(a, correlationId), inputs);
    FreshIsSound(w, a, correlationId);
    RunsKeepSound(w, Fresh(a, correlationId), inputs);
  }

  lemma {:induction false} StepTakesTheAnswer(w: World, sv: Services, c: Checkpoint, resume: Option<Resolution>)
    ensures var t := Superstep(w, sv, c, resume);
            t.c.values.resolution == c.values.resolution || (resume.Some? && t.c.values.resolution == resume)
  {
    hide Validated, ValidExtracted, ValidRisk, ValidResolution, Assess, PolicyOf,
      DetermineOutcome, Causes, RequestDetails;
  }

  lemma {:induction false} ResolutionWasSentFrom(w: World, c: Checkpoint, inputs: seq<Input>)
    requires Sound(w, c) && c.values.resolution.None?
    requires RunFrom(w, c, inputs).values.resolution.Some?
    ensures exists k :: 0 <= k < |inputs| && inputs[k].resume == RunFrom(w, c, inputs).values.resolution
    decreases |inputs|
  {
    hide Superstep, Sound;
    var d := Superstep(w, inputs[0].sv, c, inputs[0].resume).c;
    StepTakesTheAnswer(w, inputs[0].sv, c, inputs[0].resume);
    StepKeepsSound(w, inputs[0].sv, c, inputs[0].resume);
    if d.values.resolution.None? {
      ResolutionWasSentFrom(w, d, inputs[1..]);
      var k :| 0 <= k < |inputs| - 1 && inputs[1..][k].resume == RunFrom(w, d, inputs[1..]).values.resolution;
      assert inputs[k + 1].resume == RunFrom(w, c, inputs).values.resolution;
    } else {
      RunsKeepSound(w, d, inputs[1..]);
      assert inputs[0].resume == RunFrom(w, c, inputs).values.resolution;
    }
  }

  /** No resolution is invented: a run that holds one was sent it by somebody. */
  lemma {:induction false} ResolutionWasSent(w: World, a: Application, correlationId: string, inputs: seq<Input>)
    requires RunFrom(w, Fresh(a, correlationId), inputs).values.resolution.Some?
    ensures exists k :: 0 <= k < |inputs|
                        && inputs[k].resume == RunFrom(w, Fresh(a, correlationId), inputs).values.resolution
  {
    hide Superstep, Sound, RunFrom;
    FreshIsSound(w, a, correlationId);
    ResolutionWasSentFrom(w, Fresh(a, correlationId), inputs);
  }

  // ----- Redaction of the trail -----

  ghost predicate AllScrubbed(u: Table, events: seq<AuditEvent>) {
    forall k | 0 <= k < |events| :: AreScrubbed(u, events[k].details)
  }

  /** The events a node logs, whether it commits them or not. */
  function Logged(r: NodeResult): seq<AuditEvent> {
    match r
    case Commit(p) => p.audit
    case Pause(_, log) => log
    case Raise(log) => log
  }

  /** Details that `redact_mapping` scrubs completely, seen through the helper in use. */
  lemma {:induction false} EventIsScrubbed(
      w: World, s: State, actor: Actor, action: Action, details: seq<JsonRedaction.Field>)
    requires w.Shipped() && Flat(details)
    ensures AreScrubbed(w.u, Event(w, s, actor, action, details).details)
  {
    hide Flat, AreScrubbed, Redact;
    FlatIsScrubbed(w.u, details);
  }

  lemma {:induction false} NodesLogScrubbed(
      w: World, sv: Services, n: Node, s: State, resume: Option<Resolution>)
    requires w.Shipped()
    ensures AllScrubbed(w.u, Logged(RunNode(w, sv, n, s, resume)))
  {
    hide World.Shipped, AreScrubbed, Validated, ValidExtracted, ValidRisk, ValidResolution, Assess, PolicyOf,
      DetermineOutcome, Event, PayloadOf;
    var events := Logged(RunNode(w, sv, n, s, resume));
    forall actor, action, details | Flat(details)
      ensures AreScrubbed(w.u, Event(w, s, actor, action, details).details)
    {
      EventIsScrubbed(w, s, actor, action, details);
    }
  }

  /** Every event that is logged or committed on a run has scrubbed details, whatever a reviewer types. */
  lemma {:induction false} InvokeLogsScrubbed(w: World, sv: Services, c: Checkpoint, resume: Option<Resolution>)
    requires w.Shipped() && AllScrubbed(w.u, c.values.audit)
    ensures var t := Invoke(w, sv, c, resume);
            AllScrubbed(w.u, t.log) && AllScrubbed(w.u, t.c.values.audit)
    decreases 7 - Stage(c.next)
  {
    hide World.Shipped, AreScrubbed, RunNode;
    var t := Superstep(w, sv, c, resume);
    if c.next.Some? { NodesLogScrubbed(w, sv, c.next.value, c.values, resume); }
    MovingAdvances(w, sv, c, resume);
    if c.next.Some? && t.how.Moved? { InvokeLogsScrubbed(w, sv, t.c, resume); }
  }

  // ----- What redaction of the trail leaves out: the actor -----

  const REVIEWER_PREFIX := "human_reviewer:"

  /**
   The actor of the resolution event names the reviewer as typed; to redact it would change it exactly
   when one of the patterns matches it.
   */
  lemma {:induction false} ReviewerIsNamedVerbatim(w: World, a: Application, correlationId: string, c: Checkpoint)
    requires w.u.Valid() && Reachable(w, a, correlationId, c) && c.values.resolution.Some?
    ensures |c.values.audit| > 5 && c.values.audit[5].action.EscalationResolved?
    ensures var name := ActorName(c.values.audit[5].actor);
            && name == REVIEWER_PREFIX + c.values.resolution.value.reviewer
            && (PiiRedaction.Redacted(w.u, name) == name
                <==> Substitution.AllClean(w.u, PiiRedaction.Patterns(w.u), name))
  {
    hide Derived, Reachable, PiiRedaction.Redacted, PiiRedaction.Patterns, Substitution.AllClean;
    ReachableIsSound(w, a, correlationId, c);
    var s := c.values;
    assert GoodEvent(s, s.audit[5], FullTrail(true)[5]);
    PiiRedaction.UnchangedIffNothingMatches(w.u, ActorName(s.audit[5].actor));
  }

  /** A reviewer who is identified by an SSN, as every escalated run can have one. */
  const NUMBERED := Resolution(PiiRedaction.SSN, true, "")

  /** On every run that reaches the pause, that SSN can get into the committed trail in the clear. */
  lemma {:induction false} ReviewerIdLeaks(
      w: World, a: Application, correlationId: string, c: Checkpoint, sv: Services)
    requires w.u.Valid() && Reachable(w, a, correlationId, c) && c.next == Some(HumanEscalation)
    ensures var t := Superstep(w, sv, c, Some(NUMBERED));
            && t.how.Moved? && |t.c.values.audit| == 6
            && var name := ActorName(t.c.values.audit[5].actor);
               name == REVIEWER_PREFIX + PiiRedaction.SSN && PiiRedaction.Redacted(w.u, name) != name
  {
    hide Reachable, PiiRedaction.Redacted, Causes, RequestDetails, ResolvedDetails, Assess, PolicyOf, Validated,
      ValidRisk, ValidExtracted;
    ReachableIsSound(w, a, correlationId, c);
    SsnIsLong();
    PrefixedSsn(w.u);
  }

  lemma {:induction false} SsnIsLong()
    ensures ValidResolution(NUMBERED)
  {
  }

  lemma {:induction false} PrefixedSsn(u: Table)
    requires u.Valid()
    ensures PiiRedaction.Redacted(u, REVIEWER_PREFIX + PiiRedaction.SSN) != REVIEWER_PREFIX + PiiRedaction.SSN
  {
    hide PiiRedaction.Redacted;
    var name := REVIEWER_PREFIX + PiiRedaction.SSN;
    PiiRedaction.SsnShape();
    assert |REVIEWER_PREFIX| == 15 && name[14] == ':' && IsAscii(':');
    assert name[15..26] == PiiRedaction.SSN;
    PiiRedaction.SsnIsRedacted(u, name, 15);
  }
}
