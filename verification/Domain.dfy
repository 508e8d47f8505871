/** The domain models (domain/models.py) with their validators, and the settings (config.py). */
module Domain {
  import opened Wrappers
  import opened CharTable
  import opened Extraction

  datatype EmploymentStatus = EmployedFullTime | EmployedPartTime | SelfEmployed | Unemployed | Retired

  datatype LoanPurpose = Auto | HomeImprovement | DebtConsolidation | Personal | SmallBusiness

  datatype CreditBand = Excellent | Good | Fair | Poor

  datatype RiskTier = Low | Medium | Borderline | High

  datatype Severity = Info | Warn | Block

  datatype FlagCode =
    | OverLeveragedRequest
    | LowExtractionConfidence
    | DebtStatementInconsistency
    | UnemployedApplicant
    | SelfEmployedIncomeVariability

  datatype Application = Application(
    id: string, name: string, requested: real, purpose: LoanPurpose, employment: EmploymentStatus,
    annualIncome: real, statedDebt: real, document: string)

  datatype Report = Report(score: int, band: CreditBand, tradelines: int, delinquencies: int)

  datatype Risk = Risk(dti: real, report: Report, tier: RiskTier, escalate: bool)

  datatype Flag = Flag(code: FlagCode, severity: Severity)

  datatype Policy = Policy(passed: bool, flags: seq<Flag>)

  datatype Resolution = Resolution(reviewer: string, approve: bool, notes: string)

  datatype Outcome = Approved | Denied

  /** An adverse action reason; the wording is not modelled. */
  datatype Reason =
    | DtiExceedsThreshold(dti: real)
    | PoorCreditBand(score: int)
    | FlagRaised(flag: Flag)
    | ReviewerDecided

  datatype Settings = Settings(borderlineLow: real, borderlineHigh: real, hardDecline: real) {
    predicate Ordered() { 0.0 <= borderlineLow <= borderlineHigh <= hardDecline }
  }

  const DEFAULTS := Settings(0.36, 0.45, 0.55)

  /** `LoanApplication.model_validate`: the field constraints, then the name is stripped. */
  function Validated(u: Table, a: Application): Option<Application> {
    var name := Strip(u, a.name);
    if && 1 <= |a.name| <= 200
       && 0.0 < a.requested <= 1000000.0
       && 0.0 <= a.annualIncome <= 10000000.0
       && 0.0 <= a.statedDebt <= 1000000.0
       && 1 <= |a.document| <= 20000
       && name != ""
    then Some(a.(name := name))
    else None
  }

  predicate ValidExtracted(x: Extracted) {
    x.gross >= 0.0 && x.net >= 0.0 && x.debt >= 0.0 && 0.0 <= x.confidence <= 1.0
  }

  predicate ValidReport(r: Report) {
    300 <= r.score <= 850 && r.tradelines >= 0 && r.delinquencies >= 0
  }

  predicate ValidRisk(r: Risk) { r.dti >= 0.0 && ValidReport(r.report) }

  predicate ValidResolution(r: Resolution) { 1 <= |r.reviewer| <= 100 && |r.notes| <= 2000 }

  // ----- Validating twice is validating once -----

  lemma {:induction false} StripLeftFacts(u: Table, s: string)
    ensures var t := StripLeft(u, s); |t| <= |s| && (t != "" ==> t[0] !in u.spaces)
  {
    if s != "" && s[0] in u.spaces { StripLeftFacts(u, s[1..]); }
  }

  lemma {:induction false} StripRightFacts(u: Table, s: string)
    ensures var t := StripRight(u, s); |t| <= |s| && t == s[..|t|] && (t != "" ==> t[|t| - 1] !in u.spaces)
  {
    if s != "" && s[|s| - 1] in u.spaces { StripRightFacts(u, s[..|s| - 1]); }
  }

  lemma {:induction false} StripIsIdempotent(u: Table, s: string)
    ensures |Strip(u, s)| <= |s| && Strip(u, Strip(u, s)) == Strip(u, s)
  {
    StripLeftFacts(u, s);
    StripRightFacts(u, StripLeft(u, s));
  }

  /** A validated application passes the same validation again, unchanged. */
  lemma {:induction false} ValidatedIsStable(u: Table, a: Application)
    requires Validated(u, a).Some?
    ensures Validated(u, Validated(u, a).value) == Validated(u, a)
  {
    hide Strip;
    StripIsIdempotent(u, a.name);
  }

  // ----- What is accepted -----

  lemma {:induction false} StripLeftEmpty(u: Table, s: string)
    ensures StripLeft(u, s) == "" <==> forall c | c in s :: c in u.spaces
  {
    if s != "" {
      StripLeftEmpty(u, s[1..]);
      assert s == [s[0]] + s[1..];
    }
  }

  lemma {:induction false} StripRightEmpty(u: Table, s: string)
    ensures StripRight(u, s) == "" <==> forall c | c in s :: c in u.spaces
  {
    if s != "" {
      StripRightEmpty(u, s[..|s| - 1]);
      assert s == s[..|s| - 1] + [s[|s| - 1]];
    }
  }

  /** A name is blank exactly when it has white space only. */
  lemma {:induction false} BlankIffSpaces(u: Table, s: string)
    ensures Strip(u, s) == "" <==> forall c | c in s :: c in u.spaces
  {
    StripLeftEmpty(u, s);
    StripRightEmpty(u, StripLeft(u, s));
    StripLeftFacts(u, s);
    var t := StripLeft(u, s);
    if t != "" { assert t[0] in t; }
  }

  /**
   An application is accepted exactly if its name is not blank and of at most 200 characters, its document is of 1
   to 20,000, the request is positive and at most a million, and income and debt are not negative and bounded.
   */
  lemma {:induction false} AcceptedIff(u: Table, a: Application)
    ensures Validated(u, a).Some? <==>
            && (exists k :: 0 <= k < |a.name| && a.name[k] !in u.spaces) && |a.name| <= 200
            && 0 < |a.document| <= 20000
            && a.requested > 0.0 && a.requested <= 1000000.0
            && a.annualIncome >= 0.0 && a.annualIncome <= 10000000.0
            && a.statedDebt >= 0.0 && a.statedDebt <= 1000000.0
  {
    hide Strip;
    BlankIffSpaces(u, a.name);
  }
}
