/**
 The underwriting graph: the shared state (service/state.py), the seven nodes and the route
 (service/nodes.py), and the edges (service/graph.py), run one node at a time. A node's update is
 committed only when the node returns; a node that pauses or raises leaves the stored state as it
 was and runs again from its first line.
 */
module Workflow {
  import opened Wrappers
  import opened CharTable
  import opened Domain
  import opened Extraction
  import opened Underwriting
  import opened Audit
  import PromptGuard
  import JsonRedaction

  // ----- The shared state -----

  /** Why a run was escalated; the wording is a parameter of the model. */
  datatype Cause = BorderlineTier(tier: RiskTier) | BlockFlags(codes: seq<FlagCode>)

  /** What `interrupt` shows the reviewer. */
  datatype Payload = Payload(
    causes: seq<Cause>, dti: real, band: CreditBand, tier: RiskTier, applicationId: string)

  datatype Decision = Decision(
    outcome: Outcome, amount: Option<real>, rationale: string, reasons: seq<Reason>, decidedBy: Actor)

  datatype Status = InProgress | Resolved | Completed

  datatype Span = NodeSpan(node: Node) | RequestSpan | ResumeSpan

  datatype State = State(
    applicationId: string,
    correlationId: string,
    application: Application,
    extracted: Option<Extracted>,
    risk: Option<Risk>,
    policy: Option<Policy>,
    decision: Option<Decision>,
    request: Option<Payload>,
    resolution: Option<Resolution>,
    audit: seq<AuditEvent>,
    spans: seq<Span>,
    status: Status)

  /** A partial update: fields that are present overwrite, the two trails append. */
  datatype Update = Update(
    application: Option<Application>,
    extracted: Option<Extracted>,
    risk: Option<Risk>,
    policy: Option<Policy>,
    decision: Option<Decision>,
    request: Option<Payload>,
    resolution: Option<Resolution>,
    audit: seq<AuditEvent>,
    spans: seq<Span>,
    status: Option<Status>)

  const NOTHING := Update(None, None, None, None, None, None, None, [], [], None)

  function Or<T>(update: Option<T>, present: Option<T>): Option<T> {
    if update.Some? then update else present
  }

  function Merge(s: State, p: Update): State {
    State(
      s.applicationId,
      s.correlationId,
      if p.application.Some? then p.application.value else s.application,
      Or(p.extracted, s.extracted),
      Or(p.risk, s.risk),
      Or(p.policy, s.policy),
      Or(p.decision, s.decision),
      Or(p.request, s.request),
      Or(p.resolution, s.resolution),
      s.audit + p.audit,
      s.spans + p.spans,
      if p.status.Some? then p.status.value else s.status)
  }

  // ----- What a run depends on -----

  /**
   What stays fixed: the character tables, the thresholds, the two helpers that rewrite text, and
   the wording of the pause. How runs proceed does not depend on what the helpers do; what does
   says that they are the `Shipped` ones.
   */
  datatype World = World(
    u: Table,
    settings: Settings,
    sanitize: string -> string,
    redact: seq<JsonRedaction.Field> -> seq<JsonRedaction.Field>,
    reasonText: seq<Cause> -> string,
    summaryText: (real, CreditBand, RiskTier) -> string)
  {
    /** `sanitize_untrusted_text` and `redact_mapping`. */
    ghost predicate Shipped() {
      && u.Valid()
      && (forall text :: sanitize(text) == PromptGuard.Sanitized(u, text))
      && (forall details :: redact(details) == Redact(u, details))
    }
  }

  /** What the explaining model is shown. */
  datatype Facts = Facts(
    verdict: Verdict, risk: Risk, requested: real, flags: seq<Flag>, resolution: Option<Resolution>)

  /** The calls that leave the process, as they answer now; None is an exception after all retries. */
  datatype Services = Services(
    extract: string -> Option<Extracted>,
    bureau: string -> Option<Report>,
    explain: Facts -> Option<string>)

  /**
   How a node ends. `Commit` returns an update, whose events are also what the node logged.
   `Pause` and `Raise` commit nothing, but what was logged before stays logged.
   */
  datatype NodeResult =
    | Commit(update: Update)
    | Pause(payload: Payload, logged: seq<AuditEvent>)
    | Raise(logged: seq<AuditEvent>)

  // ----- The nodes -----

  function Event(w: World, s: State, actor: Actor, action: Action, details: seq<JsonRedaction.Field>): AuditEvent {
    AuditEvent(s.applicationId, s.correlationId, actor, action, w.redact(details))
  }

  function RunIntake(w: World, s: State): NodeResult {
    match Validated(w.u, s.application)
    case None => Raise([])
    case Some(a) =>
      Commit(NOTHING.(
        application := Some(a),
        status := Some(InProgress),
        audit := [Event(w, s, Agent(Intake), ApplicationReceived, ReceivedDetails(a))],
        spans := [NodeSpan(Intake)]))
  }

  function RunDocumentExtraction(w: World, sv: Services, s: State): NodeResult {
    match Validated(w.u, s.application)
    case None => Raise([])
    case Some(a) =>
      match sv.extract(w.sanitize(a.document))
      case None => Raise([])
      case Some(x) =>
        if !ValidExtracted(x) then Raise([])
        else Commit(NOTHING.(
          extracted := Some(x),
          audit := [Event(w, s, Agent(DocumentExtraction), FinancialsExtracted, ExtractedDetails(x))],
          spans := [NodeSpan(DocumentExtraction)]))
  }

  function RunRiskScoring(w: World, sv: Services, s: State): NodeResult {
    if s.extracted.None? || !ValidExtracted(s.extracted.value) then Raise([])
    else
      match Validated(w.u, s.application)
      case None => Raise([])
      case Some(a) =>
        match sv.bureau(a.name)
        case None => Raise([])
        case Some(report) =>
          var risk := Assess(w.settings, a, s.extracted.value, report);
          if !ValidRisk(risk) then Raise([])
          else Commit(NOTHING.(
            risk := Some(risk),
            audit := [Event(w, s, Agent(RiskScoring), RiskScored, ScoredDetails(risk))],
            spans := [NodeSpan(RiskScoring)]))
  }

  function RunPolicyCompliance(w: World, s: State): NodeResult {
    if s.extracted.None? || !ValidExtracted(s.extracted.value) then Raise([])
    else if s.risk.None? || !ValidRisk(s.risk.value) then Raise([])
    else
      match Validated(w.u, s.application)
      case None => Raise([])
      case Some(a) =>
        var policy := PolicyOf(a, s.extracted.value);
        Commit(NOTHING.(
          policy := Some(policy),
          audit := [Event(w, s, Agent(PolicyCompliance), PolicyEvaluated, PolicyDetails(policy))],
          spans := [NodeSpan(PolicyCompliance)]))
  }

  function BlockCodes(flags: seq<Flag>): seq<FlagCode> {
    if flags == [] then []
    else (if flags[0].severity.Block? then [flags[0].code] else []) + BlockCodes(flags[1..])
  }

  function Causes(risk: Risk, policy: Policy): seq<Cause> {
    (if risk.escalate then [BorderlineTier(risk.tier)] else [])
    + (if policy.passed then [] else [BlockFlags(BlockCodes(policy.flags))])
  }

  /** The escalation payload of a state that has been scored and checked. */
  function PayloadOf(s: State): Payload
    requires s.risk.Some? && s.policy.Some?
  {
    var risk := s.risk.value;
    Payload(Causes(risk, s.policy.value), risk.dti, risk.report.band, risk.tier, s.applicationId)
  }

  function RequestDetails(w: World, p: Payload): seq<JsonRedaction.Field> {
    [JsonRedaction.Field("reason", JsonRedaction.Str(
       if p.causes == [] then "escalation routing triggered" else w.reasonText(p.causes))),
     JsonRedaction.Field("risk_summary", JsonRedaction.Str(w.summaryText(p.dti, p.band, p.tier))),
     JsonRedaction.Field("application_id", JsonRedaction.Str(p.applicationId))]
  }

  function RequestEvent(w: World, s: State): AuditEvent
    requires s.risk.Some? && s.policy.Some?
  {
    Event(w, s, Agent(HumanEscalation), EscalationRequested, RequestDetails(w, PayloadOf(s)))
  }

  /** `resume` is what `interrupt` returns; without one it pauses the run. */
  function RunHumanEscalation(w: World, s: State, resume: Option<Resolution>): NodeResult {
    if s.risk.None? || s.policy.None? then Raise([])
    else
      var payload := PayloadOf(s);
      var requested := RequestEvent(w, s);
      match resume
      case None => Pause(payload, [requested])
      case Some(r) =>
        if !ValidResolution(r) then Raise([requested])
        else
          var resolved := Event(w, s, HumanReviewer(r.reviewer), EscalationResolved, ResolvedDetails(r));
          Commit(NOTHING.(
            request := Some(payload),
            resolution := Some(r),
            status := Some(Resolved),
            audit := [requested, resolved],
            spans := [RequestSpan, ResumeSpan]))
  }

  function DecidedBy(resolution: Option<Resolution>): Actor {
    if resolution.Some? then HumanReviewer(resolution.value.reviewer) else Agent(Explainability)
  }

  /** What the explaining model is told about an outcome. */
  function FactsOf(a: Application, risk: Risk, policy: Policy, resolution: Option<Resolution>): Facts {
    Facts(DetermineOutcome(a, risk, policy, resolution), risk, a.requested, policy.flags, resolution)
  }

  function RunExplainability(w: World, sv: Services, s: State): NodeResult {
    if s.risk.None? || !ValidRisk(s.risk.value) || s.policy.None? then Raise([])
    else if s.resolution.Some? && !ValidResolution(s.resolution.value) then Raise([])
    else
      match Validated(w.u, s.application)
      case None => Raise([])
      case Some(a) =>
        var v := DetermineOutcome(a, s.risk.value, s.policy.value, s.resolution);
        match sv.explain(FactsOf(a, s.risk.value, s.policy.value, s.resolution))
        case None => Raise([])
        case Some(rationale) =>
          if rationale == "" then Raise([])
          else
            var decider := DecidedBy(s.resolution);
            Commit(NOTHING.(
              decision := Some(Decision(v.outcome, v.amount, rationale, v.reasons, decider)),
              audit := [Event(w, s, Agent(Explainability), RationaleGenerated, RationaleDetails(v.outcome, decider))],
              spans := [NodeSpan(Explainability)]))
  }

  function RunDecisionOutput(w: World, s: State): NodeResult {
    match s.decision
    case None => Raise([])
    case Some(d) =>
      Commit(NOTHING.(
        status := Some(Completed),
        audit := [Event(w, s, Agent(DecisionOutput), DecisionFinalized, FinalDetails(d.outcome))],
        spans := [NodeSpan(DecisionOutput)]))
  }

  function RunNode(w: World, sv: Services, n: Node, s: State, resume: Option<Resolution>): NodeResult {
    match n
    case Intake => RunIntake(w, s)
    case DocumentExtraction => RunDocumentExtraction(w, sv, s)
    case RiskScoring => RunRiskScoring(w, sv, s)
    case PolicyCompliance => RunPolicyCompliance(w, s)
    case HumanEscalation => RunHumanEscalation(w, s, resume)
    case Explainability => RunExplainability(w, sv, s)
    case DecisionOutput => RunDecisionOutput(w, s)
  }

  // ----- The graph -----

  /** `route_after_policy` goes to the reviewer. */
  predicate NeedsHuman(s: State)
    requires s.risk.Some? && s.policy.Some?
  {
    s.risk.value.escalate || !s.policy.value.passed
  }

  /** The edges of the graph; None is END. */
  function After(n: Node, s: State): Option<Node>
    requires n.PolicyCompliance? ==> s.risk.Some? && s.policy.Some?
  {
    match n
    case Intake => Some(DocumentExtraction)
    case DocumentExtraction => Some(RiskScoring)
    case RiskScoring => Some(PolicyCompliance)
    case PolicyCompliance => if NeedsHuman(s) then Some(HumanEscalation) else Some(Explainability)
    case HumanEscalation => Some(Explainability)
    case Explainability => Some(DecisionOutput)
    case DecisionOutput => None
  }

  /** What the checkpointer stores for a run: the values, the node to run, what it waits with. */
  datatype Checkpoint = Checkpoint(values: State, next: Option<Node>, interrupts: seq<Payload>)

  datatype How = Moved | Paused | Raised

  /** The outcome of running one or more nodes: what is stored, what was logged, how it ended. */
  datatype Turn = Turn(c: Checkpoint, log: seq<AuditEvent>, how: How)

  function Superstep(w: World, sv: Services, c: Checkpoint, resume: Option<Resolution>): Turn {
    match c.next
    case None => Turn(c, [], Moved)
    case Some(n) =>
      match RunNode(w, sv, n, c.values, resume)
      case Commit(p) =>
        var s := Merge(c.values, p);
        Turn(Checkpoint(s, After(n, s), []), p.audit, Moved)
      case Pause(payload, log) => Turn(c.(interrupts := [payload]), log, Paused)
      case Raise(log) => Turn(c, log, Raised)
  }

  /** How far along a run is; a step that commits gets strictly further. */
  function Stage(next: Option<Node>): nat {
    match next
    case Some(Intake) => 0
    case Some(DocumentExtraction) => 1
    case Some(RiskScoring) => 2
    case Some(PolicyCompliance) => 3
    case Some(HumanEscalation) => 4
    case Some(Explainability) => 5
    case Some(DecisionOutput) => 6
    case None => 7
  }

  lemma {:induction false} MovingAdvances(w: World, sv: Services, c: Checkpoint, resume: Option<Resolution>)
    ensures var t := Superstep(w, sv, c, resume);
            if t.how.Moved? && c.next.Some? then Stage(c.next) < Stage(t.c.next)
            else t.c.values == c.values && t.c.next == c.next
  {
    hide Validated, ValidExtracted, ValidRisk, ValidResolution, Assess, PolicyOf, DetermineOutcome, Causes,
      RequestDetails;
  }

  /** `graph.invoke`: nodes run until the end, a pause or an exception. */
  function Invoke(w: World, sv: Services, c: Checkpoint, resume: Option<Resolution>): Turn
    decreases 7 - Stage(c.next)
  {
    var t := Superstep(w, sv, c, resume);
    if c.next.None? || !t.how.Moved? then t
    else
      MovingAdvances(w, sv, c, resume);
      var rest := Invoke(w, sv, t.c, resume);
      Turn(rest.c, t.log + rest.log, rest.how)
  }

  /** A run that has just been started. */
  function Fresh(a: Application, correlationId: string): Checkpoint {
    Checkpoint(
      State(a.id, correlationId, a, None, None, None, None, None, None, [], [], InProgress),
      Some(Intake), [])
  }
}
