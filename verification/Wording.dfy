/**
 What the chat model can and cannot change. The explaining call only words the decision. The
 extracting call feeds the rules, so what it answers does change decisions.
 */
module Wording {
  import opened Wrappers
  import opened CharTable
  import opened Domain
  import opened Extraction
  import opened Underwriting
  import opened Audit
  import opened Workflow
  import opened Adjudication
  import opened Rounding

  /** Equal but for the rationale of the decision. */
  predicate SameButWording(c: Checkpoint, d: Checkpoint) {
    && c.(values := c.values.(decision := None)) == d.(values := d.values.(decision := None))
    && (c.values.decision.Some? <==> d.values.decision.Some?)
    && (c.values.decision.Some? ==>
          c.values.decision.value.(rationale := "") == d.values.decision.value.(rationale := ""))
  }

  lemma {:induction false} ReadingIgnoresWording(w: World, sv: Services, explain: Facts -> Option<string>,
                 c: Checkpoint, d: Checkpoint, resume: Option<Resolution>)
    requires SameButWording(c, d) && Stage(c.next) < 2
    requires !Superstep(w, sv, c, resume).how.Raised?
    requires !Superstep(w, sv.(explain := explain), d, resume).how.Raised?
    ensures var t, v := Superstep(w, sv, c, resume), Superstep(w, sv.(explain := explain), d, resume);
            SameButWording(t.c, v.c) && t.log == v.log && t.how == v.how
  {
    hide Validated, ValidExtracted, ReceivedDetails, ExtractedDetails, RunRiskScoring, RunPolicyCompliance,
      RunHumanEscalation, RunExplainability, RunDecisionOutput;
  }

  lemma {:induction false} RulesIgnoreWording(w: World, sv: Services, explain: Facts -> Option<string>,
                 c: Checkpoint, d: Checkpoint, resume: Option<Resolution>)
    requires SameButWording(c, d) && 2 <= Stage(c.next) < 4
    requires !Superstep(w, sv, c, resume).how.Raised?
    requires !Superstep(w, sv.(explain := explain), d, resume).how.Raised?
    ensures var t, v := Superstep(w, sv, c, resume), Superstep(w, sv.(explain := explain), d, resume);
            SameButWording(t.c, v.c) && t.log == v.log && t.how == v.how
  {
    hide Validated, ValidExtracted, ValidRisk, Assess, PolicyOf, ScoredDetails, PolicyDetails, RunIntake,
      RunDocumentExtraction, RunHumanEscalation, RunExplainability, RunDecisionOutput;
  }

  lemma {:induction false} ReviewIgnoresWording(w: World, sv: Services, explain: Facts -> Option<string>,
                 c: Checkpoint, d: Checkpoint, resume: Option<Resolution>)
    requires SameButWording(c, d) && Stage(c.next) == 4
    requires !Superstep(w, sv, c, resume).how.Raised?
    requires !Superstep(w, sv.(explain := explain), d, resume).how.Raised?
    ensures var t, v := Superstep(w, sv, c, resume), Superstep(w, sv.(explain := explain), d, resume);
            SameButWording(t.c, v.c) && t.log == v.log && t.how == v.how
  {
    hide Validated, ValidExtracted, ValidRisk, ValidResolution, Assess, PolicyOf,
      DetermineOutcome, Causes, RequestDetails, ReceivedDetails, ScoredDetails,
      PolicyDetails, ResolvedDetails, RationaleDetails, FinalDetails, ExtractedDetails;
  }

  lemma {:induction false} ExplanationIgnoresWording(w: World, sv: Services, explain: Facts -> Option<string>,
                 c: Checkpoint, d: Checkpoint, resume: Option<Resolution>)
    requires SameButWording(c, d) && c.next == Some(Explainability)
    requires !Superstep(w, sv, c, resume).how.Raised?
    requires !Superstep(w, sv.(explain := explain), d, resume).how.Raised?
    ensures var t, v := Superstep(w, sv, c, resume), Superstep(w, sv.(explain := explain), d, resume);
            SameButWording(t.c, v.c) && t.log == v.log && t.how == v.how
  {
    hide Validated, ValidRisk, ValidResolution, DetermineOutcome, FactsOf, RationaleDetails, RunDecisionOutput,
      RunIntake, RunDocumentExtraction, RunRiskScoring, RunPolicyCompliance, RunHumanEscalation;
  }

  lemma {:induction false} OutputIgnoresWording(w: World, sv: Services, explain: Facts -> Option<string>,
                 c: Checkpoint, d: Checkpoint, resume: Option<Resolution>)
    requires SameButWording(c, d) && Stage(c.next) > 5
    requires !Superstep(w, sv, c, resume).how.Raised?
    requires !Superstep(w, sv.(explain := explain), d, resume).how.Raised?
    ensures var t, v := Superstep(w, sv, c, resume), Superstep(w, sv.(explain := explain), d, resume);
            SameButWording(t.c, v.c) && t.log == v.log && t.how == v.how
  {
    hide FinalDetails, RunExplainability,
      RunIntake, RunDocumentExtraction, RunRiskScoring, RunPolicyCompliance, RunHumanEscalation;
  }

  lemma {:induction false} StepIgnoresWording(w: World, sv: Services, explain: Facts -> Option<string>,
                 c: Checkpoint, d: Checkpoint, resume: Option<Resolution>)
    requires SameButWording(c, d)
    requires !Superstep(w, sv, c, resume).how.Raised?
    requires !Superstep(w, sv.(explain := explain), d, resume).how.Raised?
    ensures var t, v := Superstep(w, sv, c, resume), Superstep(w, sv.(explain := explain), d, resume);
            SameButWording(t.c, v.c) && t.log == v.log && t.how == v.how
  {
    hide Superstep, SameButWording;
    if Stage(c.next) < 2 { ReadingIgnoresWording(w, sv, explain, c, d, resume); }
    else if Stage(c.next) < 4 { RulesIgnoreWording(w, sv, explain, c, d, resume); }
    else if Stage(c.next) == 4 { ReviewIgnoresWording(w, sv, explain, c, d, resume); }
    else if Stage(c.next) == 5 { ExplanationIgnoresWording(w, sv, explain, c, d, resume); }
    else { OutputIgnoresWording(w, sv, explain, c, d, resume); }
  }

  /**
   Two runs that differ only in the model that explains end alike, with the same outcome, amount,
   reasons, routing, trail and log: the model that explains decides nothing.
   */
  lemma {:induction false} ExplainingDecidesNothing(
      w: World, sv: Services, explain: Facts -> Option<string>,
      c: Checkpoint, d: Checkpoint, resume: Option<Resolution>)
    requires SameButWording(c, d)
    requires !Invoke(w, sv, c, resume).how.Raised?
    requires !Invoke(w, sv.(explain := explain), d, resume).how.Raised?
    ensures var t, v := Invoke(w, sv, c, resume), Invoke(w, sv.(explain := explain), d, resume);
            SameButWording(t.c, v.c) && t.log == v.log && t.how == v.how
    decreases 7 - Stage(c.next)
  {
    hide Superstep;
    MovingAdvances(w, sv, c, resume);
    MovingAdvances(w, sv.(explain := explain), d, resume);
    StepIgnoresWording(w, sv, explain, c, d, resume);
    var t, v := Superstep(w, sv, c, resume), Superstep(w, sv.(explain := explain), d, resume);
    if c.next.Some? && t.how.Moved? {
      ExplainingDecidesNothing(w, sv, explain, t.c, v.c, resume);
    }
  }

  // ----- The extracting call does decide -----

  const APPLICANT := Application("app", "A", 1000.0, Auto, EmployedFullTime, 60000.0, 0.0, "stub")

  const LOW_DEBT := Extracted(5000.0, 4000.0, 0.0, None, "monthly", 0.95)

  const HIGH_DEBT := LOW_DEBT.(debt := 5000.0)

  function Answering(x: Extracted): Services {
    Services(
      (text: string) => Some(x),
      (name: string) => Some(Report(800, Excellent, 3, 0)),
      (facts: Facts) => Some("ok"))
  }

  lemma {:induction false} ApplicantIsValid(u: Table)
    requires u.Valid()
    ensures Validated(u, APPLICANT) == Some(APPLICANT)
  {
    assert IsAscii('A') && 'A' !in u.spaces;
    assert Strip(u, "A") == "A";
  }

  lemma {:induction false} DecisionFor(w: World, x: Extracted)
    requires w.u.Valid() && w.settings == DEFAULTS && x in {LOW_DEBT, HIGH_DEBT}
    ensures var t := Invoke(w, Answering(x), Fresh(APPLICANT, "corr"), None);
            !t.how.Raised? && Disposed(t) == Some(if x == LOW_DEBT then Approve else Deny)
  {
    hide Invoke, Validated, Expected, Disposed, Fresh;
    var t := Invoke(w, Answering(x), Fresh(APPLICANT, "corr"), None);
    ApplicantIsValid(w.u);
    RunsThroughIff(w, Answering(x), APPLICANT, "corr", None);
    ThreeWaySplit(w, Answering(x), APPLICANT, "corr");
    ExpectedFor(t.c.values.risk.value.dti, x);
  }

  lemma {:induction false} ExpectedFor(dti: real, x: Extracted)
    requires x in {LOW_DEBT, HIGH_DEBT} && IsScore(dti, x.gross, 60000.0, x.debt)
    ensures Expected(DEFAULTS, dti, Excellent, APPLICANT, x.confidence) == if x == LOW_DEBT then Approve else Deny
  {
    hide OnGrid;
    assert x.debt / x.gross == if x == LOW_DEBT then 0.0 else 1.0;
  }

  /**
   The same application, the same bureau report, the same explaining model: one extraction gets it
   approved and another gets it denied, both without a reviewer.
   */
  lemma {:induction false} ExtractingDecides(w: World)
    requires w.u.Valid() && w.settings == DEFAULTS
    ensures Disposed(Invoke(w, Answering(LOW_DEBT), Fresh(APPLICANT, "corr"), None)) == Some(Approve)
    ensures Disposed(Invoke(w, Answering(HIGH_DEBT), Fresh(APPLICANT, "corr"), None)) == Some(Deny)
  {
    hide Invoke, Disposed, Fresh;
    DecisionFor(w, LOW_DEBT);
    DecisionFor(w, HIGH_DEBT);
  }
}
