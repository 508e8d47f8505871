/** Audit events (infrastructure/audit_log.py) and the payloads the nodes put in them. */
module Audit {
  import opened CharTable
  import opened Domain
  import opened JsonRedaction
  import opened Extraction

  datatype Node =
    | Intake
    | DocumentExtraction
    | RiskScoring
    | PolicyCompliance
    | HumanEscalation
    | Explainability
    | DecisionOutput

  /** A node's name, or `human_reviewer:{id}`. */
  datatype Actor = Agent(node: Node) | HumanReviewer(id: string)

  datatype Action =
    | ApplicationReceived
    | FinancialsExtracted
    | RiskScored
    | PolicyEvaluated
    | EscalationRequested
    | EscalationResolved
    | RationaleGenerated
    | DecisionFinalized

  datatype AuditEvent = AuditEvent(
    applicationId: string, correlationId: string, actor: Actor, action: Action, details: seq<Field>)

  /** `redact_mapping(details)`, as `record_audit_event` applies it to the details and to nothing else. */
  function Redact(u: Table, details: seq<Field>): seq<Field> { Fields(Rules(u, {}), details) }

  /** Every sensitive key is masked and every string is a fixpoint of `redact_text`. */
  ghost predicate AreScrubbed(u: Table, details: seq<Field>) {
    Scrubbed(Rules(u, {}), Dict(details))
  }

  /** No lists but lists of strings: the shape of every payload the nodes record. */
  predicate Flat(details: seq<Field>) {
    forall k | 0 <= k < |details| ::
      match details[k].value
      case List(items) => forall i | 0 <= i < |items| :: items[i].Str?
      case Dict(_) => false
      case _ => true
  }

  /** What the nodes record is scrubbed, whatever text it carries. */
  lemma {:induction false} FlatIsScrubbed(u: Table, details: seq<Field>)
    requires u.Valid() && Flat(details)
    ensures AreScrubbed(u, Redact(u, details))
  {
    hide Rules.Sensitive, Fields;
    var r := Rules(u, {});
    forall k | 0 <= k < |details| ensures NestedListsAreScrubbed(r, details[k].value) {
      assert match details[k].value
             case List(items) => forall i | 0 <= i < |items| :: items[i].Str?
             case Dict(_) => false
             case _ => true;
    }
    ScrubbedIff(r, details);
  }

  // ----- The values of the source's enumerations -----

  function PurposeName(p: LoanPurpose): string {
    match p
    case Auto => "auto"
    case HomeImprovement => "home_improvement"
    case DebtConsolidation => "debt_consolidation"
    case Personal => "personal"
    case SmallBusiness => "small_business"
  }

  function EmploymentName(e: EmploymentStatus): string {
    match e
    case EmployedFullTime => "employed_full_time"
    case EmployedPartTime => "employed_part_time"
    case SelfEmployed => "self_employed"
    case Unemployed => "unemployed"
    case Retired => "retired"
  }

  function BandName(b: CreditBand): string {
    match b
    case Excellent => "excellent"
    case Good => "good"
    case Fair => "fair"
    case Poor => "poor"
  }

  function TierName(t: RiskTier): string {
    match t
    case Low => "low"
    case Medium => "medium"
    case Borderline => "borderline"
    case High => "high"
  }

  function CodeName(c: FlagCode): string {
    match c
    case OverLeveragedRequest => "OVER_LEVERAGED_REQUEST"
    case LowExtractionConfidence => "LOW_EXTRACTION_CONFIDENCE"
    case DebtStatementInconsistency => "DEBT_STATEMENT_INCONSISTENCY"
    case UnemployedApplicant => "UNEMPLOYED_APPLICANT"
    case SelfEmployedIncomeVariability => "SELF_EMPLOYED_INCOME_VARIABILITY"
  }

  function OutcomeName(o: Outcome): string {
    match o
    case Approved => "approved"
    case Denied => "denied"
  }

  function NodeName(n: Node): string {
    match n
    case Intake => "intake"
    case DocumentExtraction => "document_extraction_agent"
    case RiskScoring => "risk_scoring_agent"
    case PolicyCompliance => "policy_compliance_agent"
    case HumanEscalation => "human_escalation"
    case Explainability => "explainability_agent"
    case DecisionOutput => "decision_output"
  }

  function ActorName(a: Actor): string {
    match a
    case Agent(n) => NodeName(n)
    case HumanReviewer(id) => "human_reviewer:" + id
  }

  // ----- The details of each event -----

  function ReceivedDetails(a: Application): seq<Field> {
    [Field("loan_purpose", Str(PurposeName(a.purpose))),
     Field("requested_amount", Number(a.requested)),
     Field("employment_status", Str(EmploymentName(a.employment)))]
  }

  function ExtractedDetails(x: Extracted): seq<Field> {
    [Field("extraction_confidence", Number(x.confidence)),
     Field("monthly_gross_income", Number(x.gross)),
     Field("existing_monthly_debt_payments", Number(x.debt))]
  }

  function ScoredDetails(risk: Risk): seq<Field> {
    [Field("debt_to_income_ratio", Number(risk.dti)),
     Field("risk_tier", Str(TierName(risk.tier))),
     Field("credit_band", Str(BandName(risk.report.band))),
     Field("credit_score", Number(risk.report.score as real))]
  }

  function PolicyDetails(policy: Policy): seq<Field> {
    [Field("passed", Bool(policy.passed)),
     Field("flag_codes", List(seq(|policy.flags|, k requires 0 <= k < |policy.flags| =>
       Str(CodeName(policy.flags[k].code)))))]
  }

  function ResolvedDetails(r: Resolution): seq<Field> {
    [Field("approve", Bool(r.approve)), Field("notes", Str(r.notes))]
  }

  function RationaleDetails(outcome: Outcome, decidedBy: Actor): seq<Field> {
    [Field("outcome", Str(OutcomeName(outcome))), Field("decided_by", Str(ActorName(decidedBy)))]
  }

  function FinalDetails(outcome: Outcome): seq<Field> {
    [Field("outcome", Str(OutcomeName(outcome)))]
  }
}
