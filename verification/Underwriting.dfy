/**
 The decision rules: risk scoring (domain/risk.py), the mock bureau
 (infrastructure/credit_bureau.py), the policy rules (domain/policy.py) and the outcome
 (domain/decisioning.py).
 */
module Underwriting {
  import opened Wrappers
  import opened CharTable
  import opened Extraction
  import opened Domain
  import opened Rounding

  // ----- Risk -----

  /** `compute_debt_to_income_ratio` */
  function DebtToIncome(income: real, debt: real): real {
    if income <= 0.0 then 1.0 else RoundTo(debt / income, 10000.0)
  }

  /** `classify_risk_tier` */
  function ClassifyRiskTier(dti: real, band: CreditBand, settings: Settings): RiskTier {
    if dti >= settings.hardDecline || band.Poor? then High
    else if settings.borderlineLow <= dti < settings.borderlineHigh || band.Fair? then Borderline
    else if dti < settings.borderlineLow && (band.Excellent? || band.Good?) then Low
    else Medium
  }

  // ----- The bureau -----

  /** `_score_from_name`; `digest` is the number read from the SHA-256 of the normalised name. */
  function Score(u: Table, digest: string -> nat, name: string): int {
    300 + digest(u.Lower(Strip(u, name))) % 551
  }

  /** `_band_from_score` */
  function BandFromScore(score: int): CreditBand {
    if score >= 740 then Excellent
    else if score >= 670 then Good
    else if score >= 580 then Fair
    else Poor
  }

  /** `_fetch_report_uncached` */
  function CreditReport(u: Table, digest: string -> nat, name: string): Report {
    var score := Score(u, digest, name);
    var late := (850 - score) / 150;
    Report(score, BandFromScore(score), 3 + score % 7, if late < 0 then 0 else late)
  }

  lemma {:induction false} ReportIsValid(u: Table, digest: string -> nat, name: string)
    ensures ValidReport(CreditReport(u, digest, name))
    ensures CreditReport(u, digest, name).delinquencies <= 3
  {
  }

  /**
   What a report says of an applicant, by the number `n` the digest gives: 551 scores from 300 on, cut into bands of
   280, 90, 70 and 111 scores, and one delinquency less for every 150 points, down to none.
   */
  lemma {:induction false} ReportMeans(u: Table, digest: string -> nat, name: string)
    ensures var r, n := CreditReport(u, digest, name), digest(u.Lower(Strip(u, name))) % 551;
            && r.score == 300 + n
            && (r.band.Poor? <==> n < 280) && (r.band.Fair? <==> 280 <= n < 370)
            && (r.band.Good? <==> 370 <= n < 440) && (r.band.Excellent? <==> n >= 440)
            && r.delinquencies == (if n <= 100 then 3 else if n <= 250 then 2 else if n <= 400 then 1 else 0)
            && 3 <= r.tradelines <= 9 && (r.tradelines - r.score - 3) % 7 == 0
  {
    hide Strip;
  }

  /** The income used: the extracted one, or the stated one when extraction found none. */
  function MonthlyIncome(a: Application, x: Extracted): real {
    if x.gross != 0.0 then x.gross else a.annualIncome / 12.0
  }

  /** What `risk_scoring_agent` computes. */
  function Assess(settings: Settings, a: Application, x: Extracted, report: Report): Risk {
    var dti := DebtToIncome(MonthlyIncome(a, x), x.debt);
    var tier := ClassifyRiskTier(dti, report.band, settings);
    Risk(dti, report, tier, tier.Borderline?)
  }

  // ----- Policy -----

  const MAX_REQUEST_TO_INCOME := 5.0
  const MIN_CONFIDENCE := 0.50
  const MAX_DEBT_DELTA := 0.25

  /** The request is more than the permitted multiple of the income. */
  predicate OverLeveraged(a: Application) {
    a.annualIncome <= 0.0 || a.requested > MAX_REQUEST_TO_INCOME * a.annualIncome
  }

  function Larger(x: real, y: real): real { if x >= y then x else y }

  function Distance(x: real, y: real): real { if x >= y then x - y else y - x }

  /** Stated and extracted debt differ by more than the permitted fraction of the stated one. */
  predicate DebtsDisagree(a: Application, x: Extracted) {
    Distance(a.statedDebt, x.debt) > MAX_DEBT_DELTA * Larger(a.statedDebt, 1.0)
  }

  function FlagIf(condition: bool, code: FlagCode, severity: Severity): seq<Flag> {
    if condition then [Flag(code, severity)] else []
  }

  /** The flags of an application, in the order the rules are checked. */
  function FlagsOf(a: Application, x: Extracted): seq<Flag> {
    FlagIf(OverLeveraged(a), OverLeveragedRequest, Block)
    + FlagIf(x.confidence < MIN_CONFIDENCE, LowExtractionConfidence, Block)
    + FlagIf(DebtsDisagree(a, x), DebtStatementInconsistency, Warn)
    + FlagIf(a.employment.Unemployed? && a.requested > 0.0, UnemployedApplicant, Warn)
    + FlagIf(a.employment.SelfEmployed?, SelfEmployedIncomeVariability, Info)
  }

  predicate Blocked(flags: seq<Flag>) {
    exists k :: 0 <= k < |flags| && flags[k].severity.Block?
  }

  function PolicyOf(a: Application, x: Extracted): Policy {
    Policy(!Blocked(FlagsOf(a, x)), FlagsOf(a, x))
  }

  lemma {:induction false} QuotientExceeds(d: real, m: real, t: real)
    requires m > 0.0
    ensures d / m > t <==> d > t * m
  {
    if d > t * m {
      DivMonotone(t * m, d, m);
      DivUndoes(t, t * m, m);
      DivCancels(d, m);
      assert d / m != t;
    } else {
      DivMonotone(d, t * m, m);
      DivUndoes(t, t * m, m);
    }
  }

  lemma {:induction false} BlockedPrefix(flags: seq<Flag>, n: nat)
    requires n < |flags|
    ensures Blocked(flags[..n + 1]) <==> Blocked(flags[..n]) || flags[n].severity.Block?
  {
    var shorter, longer := flags[..n], flags[..n + 1];
    assert forall k | 0 <= k < n :: shorter[k] == longer[k];
    assert longer[n] == flags[n];
    if Blocked(shorter) {
      var k :| 0 <= k < n && shorter[k].severity.Block?;
      assert longer[k].severity.Block?;
    }
  }

  /** `any(f.severity == BLOCK for f in flags)` */
  method AnyBlock(flags: seq<Flag>) returns (found: bool)
    ensures found <==> Blocked(flags)
  {
    hide Blocked;
    found := false;
    assert !Blocked(flags[..0]) by { NothingBlocks(flags[..0]); }
    for n := 0 to |flags|
      invariant found <==> Blocked(flags[..n])
    {
      BlockedPrefix(flags, n);
      if flags[n].severity == Block { found := true; }
    }
    assert flags[..|flags|] == flags;
  }

  lemma {:induction false} NothingBlocks(flags: seq<Flag>)
    requires flags == []
    ensures !Blocked(flags)
  {
  }

  /** `evaluate_policy`, appending flag after flag. */
  method EvaluatePolicy(a: Application, x: Extracted) returns (result: Policy)
    ensures result == PolicyOf(a, x)
  {
    hide Blocked;
    var flags: seq<Flag> := [];
    var overLeveraged := true;
    if a.annualIncome > 0.0 {
      var requestToIncome := a.requested / a.annualIncome;
      overLeveraged := requestToIncome > MAX_REQUEST_TO_INCOME;
      QuotientExceeds(a.requested, a.annualIncome, MAX_REQUEST_TO_INCOME);
    }
    if overLeveraged {
      flags := flags + [Flag(OverLeveragedRequest, Block)];
    }
    assert flags == FlagIf(OverLeveraged(a), OverLeveragedRequest, Block);
    hide OverLeveraged;
    if x.confidence < MIN_CONFIDENCE {
      flags := flags + [Flag(LowExtractionConfidence, Block)];
    }
    var denominator := Larger(a.statedDebt, 1.0);
    var deltaFraction := Distance(a.statedDebt, x.debt) / denominator;
    QuotientExceeds(Distance(a.statedDebt, x.debt), denominator, MAX_DEBT_DELTA);
    if deltaFraction > MAX_DEBT_DELTA {
      flags := flags + [Flag(DebtStatementInconsistency, Warn)];
    }
    assert DebtsDisagree(a, x) <==> deltaFraction > MAX_DEBT_DELTA;
    hide DebtsDisagree;
    if a.employment == Unemployed && a.requested > 0.0 {
      flags := flags + [Flag(UnemployedApplicant, Warn)];
    }
    if a.employment == SelfEmployed {
      flags := flags + [Flag(SelfEmployedIncomeVariability, Info)];
    }
    assert flags == FlagsOf(a, x);
    var blocked := AnyBlock(flags);
    result := Policy(!blocked, flags);
  }

  // ----- Outcome -----

  function FlagReasons(flags: seq<Flag>): seq<Reason> {
    if flags == [] then []
    else (if flags[0].severity.Info? then [] else [FlagRaised(flags[0])]) + FlagReasons(flags[1..])
  }

  /** `_adverse_reasons` */
  function AdverseReasons(risk: Risk, policy: Policy): seq<Reason> {
    (if risk.tier.High? then
       [DtiExceedsThreshold(risk.dti)] + (if risk.report.band.Poor? then [PoorCreditBand(risk.report.score)] else [])
     else [])
    + FlagReasons(policy.flags)
  }

  /** `_adverse_reasons`, with the source's loop over the flags. */
  method CollectAdverseReasons(risk: Risk, policy: Policy) returns (reasons: seq<Reason>)
    ensures reasons == AdverseReasons(risk, policy)
  {
    reasons := [];
    if risk.tier == High {
      reasons := reasons + [DtiExceedsThreshold(risk.dti)];
      if risk.report.band == Poor {
        reasons := reasons + [PoorCreditBand(risk.report.score)];
      }
    }
    var flags := policy.flags;
    for n := 0 to |flags|
      invariant reasons + FlagReasons(flags[n..]) == AdverseReasons(risk, policy)
    {
      assert flags[n..][1..] == flags[n + 1..];
      if flags[n].severity == Block || flags[n].severity == Warn {
        reasons := reasons + [FlagRaised(flags[n])];
      }
    }
  }

  datatype Verdict = Verdict(outcome: Outcome, amount: Option<real>, reasons: seq<Reason>)

  /** `determine_outcome` */
  function DetermineOutcome(a: Application, risk: Risk, policy: Policy, resolution: Option<Resolution>): Verdict {
    match resolution
    case Some(r) =>
      if r.approve then Verdict(Approved, Some(a.requested), [])
      else
        var reasons := AdverseReasons(risk, policy);
        Verdict(Denied, None, if reasons == [] then [ReviewerDecided] else reasons)
    case None =>
      if risk.tier.High? || !policy.passed then Verdict(Denied, None, AdverseReasons(risk, policy))
      else Verdict(Approved, Some(a.requested), [])
  }

  // ----- What the rules mean -----

  lemma {:induction false} BlockHasReason(flags: seq<Flag>)
    requires Blocked(flags)
    ensures FlagReasons(flags) != []
  {
    var k :| 0 <= k < |flags| && flags[k].severity.Block?;
    if !flags[0].severity.Block? {
      assert flags[1..][k - 1].severity.Block?;
      BlockHasReason(flags[1..]);
    }
  }

  /**
   A denial gives no amount and at least one reason; an approval gives the requested amount and no
   reason. For automatic denials this rests on `passed` being false only when some flag blocks.
   */
  lemma {:induction false} VerdictIsExplained(a: Application, risk: Risk, x: Extracted, resolution: Option<Resolution>)
    ensures var v := DetermineOutcome(a, risk, PolicyOf(a, x), resolution);
            if v.outcome.Denied? then v.amount.None? && v.reasons != []
            else v.amount == Some(a.requested) && v.reasons == []
  {
    hide FlagsOf;
    if !PolicyOf(a, x).passed { BlockHasReason(FlagsOf(a, x)); }
  }

  /** A request blocks exactly when it exceeds five times the income or the confidence is too low. */
  lemma {:induction false} PassedIff(a: Application, x: Extracted)
    requires a.requested > 0.0 && a.annualIncome >= 0.0
    ensures PolicyOf(a, x).passed <==> a.requested <= 5.0 * a.annualIncome && x.confidence >= 0.5
  {
    var flags := FlagsOf(a, x);
    var over, low := OverLeveraged(a), x.confidence < MIN_CONFIDENCE;
    assert over <==> a.requested > 5.0 * a.annualIncome;
    hide OverLeveraged, DebtsDisagree;
    if over { assert flags[0].severity.Block?; }
    if low { assert flags[if over then 1 else 0].severity.Block?; }
    if !over && !low {
      assert forall k | 0 <= k < |flags| :: !flags[k].severity.Block?;
    }
  }

  /**
   Which flags an application gets, without division: each finding has its own condition and severity,
   and none is reported twice.
   */
  lemma {:induction false} FlagsMeaning(a: Application, x: Extracted)
    requires a.requested > 0.0 && a.annualIncome >= 0.0
    ensures var flags, limit := FlagsOf(a, x), 0.25 * Larger(a.statedDebt, 1.0);
            && (Flag(OverLeveragedRequest, Block) in flags <==> a.requested > 5.0 * a.annualIncome)
            && (Flag(LowExtractionConfidence, Block) in flags <==> x.confidence < 0.5)
            && (Flag(DebtStatementInconsistency, Warn) in flags <==>
                  a.statedDebt - x.debt > limit || x.debt - a.statedDebt > limit)
            && (Flag(UnemployedApplicant, Warn) in flags <==> a.employment.Unemployed?)
            && (Flag(SelfEmployedIncomeVariability, Info) in flags <==> a.employment.SelfEmployed?)
            && (forall i, j | 0 <= i < j < |flags| :: flags[i].code != flags[j].code)
            && (forall i | 0 <= i < |flags| :: flags[i].severity.Block? <==>
                  flags[i].code.OverLeveragedRequest? || flags[i].code.LowExtractionConfidence?)
  {
    var flags := FlagsOf(a, x);
    FlagsAreOrdered(a, x);
    forall f: Flag ensures f in flags <==> Raised(a, x, f) { FlagIsRaised(a, x, f); }
    hide OverLeveraged, DebtsDisagree, FlagsOf;
    assert forall i | 0 <= i < |flags| :: flags[i] in flags;
  }

  /** The condition of a finding. */
  predicate Raised(a: Application, x: Extracted, f: Flag) {
    match f.code
    case OverLeveragedRequest => f.severity.Block? && OverLeveraged(a)
    case LowExtractionConfidence => f.severity.Block? && x.confidence < MIN_CONFIDENCE
    case DebtStatementInconsistency => f.severity.Warn? && DebtsDisagree(a, x)
    case UnemployedApplicant => f.severity.Warn? && a.employment.Unemployed? && a.requested > 0.0
    case SelfEmployedIncomeVariability => f.severity.Info? && a.employment.SelfEmployed?
  }

  lemma {:induction false} FlagIsRaised(a: Application, x: Extracted, f: Flag)
    ensures f in FlagsOf(a, x) <==> Raised(a, x, f)
  {
    hide OverLeveraged, DebtsDisagree;
  }

  function CodeRank(c: FlagCode): nat {
    match c
    case OverLeveragedRequest => 0
    case LowExtractionConfidence => 1
    case DebtStatementInconsistency => 2
    case UnemployedApplicant => 3
    case SelfEmployedIncomeVariability => 4
  }

  /** The flags come in the order of the rules. */
  predicate Ordered(flags: seq<Flag>, below: nat) {
    && (forall i | 0 <= i < |flags| :: CodeRank(flags[i].code) < below)
    && (forall i, j | 0 <= i < j < |flags| :: CodeRank(flags[i].code) < CodeRank(flags[j].code))
  }

  lemma {:induction false} FlagsAreOrdered(a: Application, x: Extracted)
    ensures Ordered(FlagsOf(a, x), 5)
  {
    hide OverLeveraged, DebtsDisagree, Ordered;
    var one := FlagIf(OverLeveraged(a), OverLeveragedRequest, Block);
    var two := one + FlagIf(x.confidence < MIN_CONFIDENCE, LowExtractionConfidence, Block);
    var three := two + FlagIf(DebtsDisagree(a, x), DebtStatementInconsistency, Warn);
    var four := three + FlagIf(a.employment.Unemployed? && a.requested > 0.0, UnemployedApplicant, Warn);
    EmptyIsOrdered();
    assert [] + one == one;
    NextIsOrdered([], 0, OverLeveraged(a), OverLeveragedRequest, Block);
    NextIsOrdered(one, 1, x.confidence < MIN_CONFIDENCE, LowExtractionConfidence, Block);
    NextIsOrdered(two, 2, DebtsDisagree(a, x), DebtStatementInconsistency, Warn);
    NextIsOrdered(three, 3, a.employment.Unemployed? && a.requested > 0.0, UnemployedApplicant, Warn);
    NextIsOrdered(four, 4, a.employment.SelfEmployed?, SelfEmployedIncomeVariability, Info);
  }

  lemma {:induction false} EmptyIsOrdered()
    ensures Ordered([], 0)
  {
  }

  lemma {:induction false} NextIsOrdered(flags: seq<Flag>, n: nat, condition: bool, code: FlagCode, severity: Severity)
    requires Ordered(flags, n) && CodeRank(code) == n
    ensures Ordered(flags + FlagIf(condition, code, severity), n + 1)
  {
  }

  lemma {:induction false} FlagReasonsMeaning(flags: seq<Flag>, r: Reason)
    ensures r in FlagReasons(flags) <==> r.FlagRaised? && r.flag in flags && !r.flag.severity.Info?
  {
    if flags != [] {
      FlagReasonsMeaning(flags[1..], r);
      assert flags == [flags[0]] + flags[1..];
    }
  }

  /** Which reasons are given: exactly those of a HIGH tier, and of every finding above INFO. */
  lemma {:induction false} AdverseReasonsMeaning(risk: Risk, policy: Policy, r: Reason)
    ensures r in AdverseReasons(risk, policy) <==>
            || (risk.tier.High? && r == DtiExceedsThreshold(risk.dti))
            || (risk.tier.High? && risk.report.band.Poor? && r == PoorCreditBand(risk.report.score))
            || (r.FlagRaised? && r.flag in policy.flags && !r.flag.severity.Info?)
  {
    FlagReasonsMeaning(policy.flags, r);
  }

  /**
   The reason that names the ratio is given exactly when the ratio meets the hard limit or the band
   is POOR: with a POOR band it is given at any ratio, a ratio of zero included.
   */
  lemma {:induction false} DtiReasonIff(
      settings: Settings, a: Application, x: Extracted, report: Report, policy: Policy)
    ensures var risk := Assess(settings, a, x, report);
            DtiExceedsThreshold(risk.dti) in AdverseReasons(risk, policy) <==>
            risk.dti >= settings.hardDecline || report.band.Poor?
  {
    hide DebtToIncome, AdverseReasons;
    var risk := Assess(settings, a, x, report);
    AdverseReasonsMeaning(risk, policy, DtiExceedsThreshold(risk.dti));
  }

  // ----- The reasons of a denial -----

  /** The place of a reason in the list: the ratio, the band, then the findings in the order of their rules. */
  function ReasonRank(r: Reason): nat {
    match r
    case DtiExceedsThreshold(_) => 0
    case PoorCreditBand(_) => 1
    case FlagRaised(f) => 2 + CodeRank(f.code)
    case ReviewerDecided => 7
  }

  predicate InOrder(reasons: seq<Reason>) {
    forall i, j | 0 <= i < j < |reasons| :: ReasonRank(reasons[i]) < ReasonRank(reasons[j])
  }

  /** Some finding is worse than information. */
  predicate SomeFinding(flags: seq<Flag>) {
    exists k :: 0 <= k < |flags| && (flags[k].severity.Warn? || flags[k].severity.Block?)
  }

  /** A denial ought to give this reason; `reviewed` says that a reviewer denied. */
  predicate OughtToBeGiven(r: Reason, risk: Risk, flags: seq<Flag>, reviewed: bool) {
    match r
    case DtiExceedsThreshold(dti) => risk.tier.High? && dti == risk.dti
    case PoorCreditBand(score) => risk.tier.High? && risk.report.band.Poor? && score == risk.report.score
    case FlagRaised(f) => f in flags && (f.severity.Warn? || f.severity.Block?)
    case ReviewerDecided => reviewed && !risk.tier.High? && !SomeFinding(flags)
  }

  /** The list gives exactly those reasons, in their order. */
  ghost predicate GivesReasons(reasons: seq<Reason>, risk: Risk, flags: seq<Flag>, reviewed: bool) {
    (forall r :: r in reasons <==> OughtToBeGiven(r, risk, flags, reviewed)) && InOrder(reasons)
  }

  lemma {:induction false} NoFindingNoReason(flags: seq<Flag>)
    ensures FlagReasons(flags) == [] <==> !SomeFinding(flags)
  {
    if flags != [] {
      NoFindingNoReason(flags[1..]);
      if SomeFinding(flags[1..]) {
        var k :| 0 <= k < |flags[1..]| && (flags[1..][k].severity.Warn? || flags[1..][k].severity.Block?);
        assert flags[k + 1] == flags[1..][k];
      }
      if SomeFinding(flags) {
        var k :| 0 <= k < |flags| && (flags[k].severity.Warn? || flags[k].severity.Block?);
        if k > 0 { assert flags[1..][k - 1] == flags[k]; }
      }
    }
  }

  lemma {:induction false} FlagReasonsInOrder(flags: seq<Flag>, n: nat)
    requires forall i, j | 0 <= i < j < |flags| :: CodeRank(flags[i].code) < CodeRank(flags[j].code)
    requires forall i | 0 <= i < |flags| :: n <= 2 + CodeRank(flags[i].code)
    ensures InOrder(FlagReasons(flags))
    ensures forall i | 0 <= i < |FlagReasons(flags)| :: n <= ReasonRank(FlagReasons(flags)[i])
    decreases |flags|
  {
    if flags != [] {
      var rest := flags[1..];
      forall i | 0 <= i < |rest| ensures 3 + CodeRank(flags[0].code) <= 2 + CodeRank(rest[i].code) {
        assert rest[i] == flags[i + 1];
      }
      forall i, j | 0 <= i < j < |rest| ensures CodeRank(rest[i].code) < CodeRank(rest[j].code) {
        assert rest[i] == flags[i + 1] && rest[j] == flags[j + 1];
      }
      FlagReasonsInOrder(rest, 3 + CodeRank(flags[0].code));
    }
  }

  lemma {:induction false} AdverseReasonsInOrder(risk: Risk, policy: Policy)
    requires Ordered(policy.flags, 5)
    ensures InOrder(AdverseReasons(risk, policy))
    ensures AdverseReasons(risk, policy) == [] <==> !risk.tier.High? && !SomeFinding(policy.flags)
  {
    hide CodeRank;
    FlagReasonsInOrder(policy.flags, 2);
    NoFindingNoReason(policy.flags);
    hide FlagReasons;
  }

  /** Which reasons a denial gives, automatic or a reviewer's, and in which order. */
  lemma {:induction false} DenialGivesReasons(a: Application, risk: Risk, x: Extracted, resolution: Option<Resolution>)
    requires DetermineOutcome(a, risk, PolicyOf(a, x), resolution).outcome.Denied?
    ensures GivesReasons(DetermineOutcome(a, risk, PolicyOf(a, x), resolution).reasons, risk, PolicyOf(a, x).flags,
                         resolution.Some?)
  {
    hide FlagsOf, AdverseReasons, Blocked, InOrder, SomeFinding, Ordered;
    var policy := PolicyOf(a, x);
    FlagsAreOrdered(a, x);
    AdverseReasonsInOrder(risk, policy);
    var reasons := DetermineOutcome(a, risk, policy, resolution).reasons;
    if resolution.None? && !policy.passed { BlockIsFinding(policy.flags); }
    forall r ensures r in reasons <==> OughtToBeGiven(r, risk, policy.flags, resolution.Some?) {
      AdverseReasonsMeaning(risk, policy, r);
    }
    AloneInOrder();
  }

  lemma {:induction false} BlockIsFinding(flags: seq<Flag>)
    requires Blocked(flags)
    ensures SomeFinding(flags)
  {
  }

  lemma {:induction false} AloneInOrder()
    ensures InOrder([ReviewerDecided])
  {
  }

  // ----- The debt-to-income ratio -----

  /** Off by at most half of 0.0001 from the true ratio. */
  lemma {:induction false} DtiError(income: real, debt: real)
    requires income > 0.0
    ensures -0.00005 <= DebtToIncome(income, debt) - debt / income <= 0.00005
  {
    hide RoundTo;
    RoundingError(debt / income, 10000.0);
  }

  lemma {:induction false} DtiIsMonotoneInDebt(income: real, debt: real, more: real)
    requires income > 0.0 && debt <= more
    ensures DebtToIncome(income, debt) <= DebtToIncome(income, more)
  {
    hide RoundTo;
    DivMonotone(debt, more, income);
    RoundingIsMonotone(debt / income, more / income, 10000.0);
  }

  lemma {:induction false} DtiIsAntitoneInIncome(income: real, more: real, debt: real)
    requires 0.0 < income <= more && debt >= 0.0
    ensures DebtToIncome(more, debt) <= DebtToIncome(income, debt)
  {
    hide RoundTo;
    LargerDivisor(debt, income, more);
    RoundingIsMonotone(debt / more, debt / income, 10000.0);
  }

  lemma {:induction false} LargerDivisor(d: real, x: real, y: real)
    requires 0.0 < x <= y && d >= 0.0
    ensures 0.0 <= d / y <= d / x
  {
    var q := d / y;
    DivCancels(d, y);
    assert q >= 0.0;
    assert q * x <= q * y;
    DivMonotone(q * x, d, x);
    DivUndoes(q, q * x, x);
  }

  /** Rounding never takes a ratio below a threshold it meets, for thresholds of four decimals. */
  lemma {:induction false} DtiMeetsThreshold(income: real, debt: real, threshold: real)
    requires income > 0.0 && OnGrid(threshold, 10000.0)
    ensures debt / income >= threshold ==> DebtToIncome(income, debt) >= threshold
    ensures debt / income <= threshold ==> DebtToIncome(income, debt) <= threshold
  {
    hide RoundTo, OnGrid;
    RoundingRespectsGrid(debt / income, threshold, 10000.0);
  }

  /** The shipped thresholds are such thresholds. */
  lemma {:induction false} DefaultThresholdsOnGrid()
    ensures OnGrid(DEFAULTS.borderlineLow, 10000.0) && OnGrid(DEFAULTS.borderlineHigh, 10000.0)
    ensures OnGrid(DEFAULTS.hardDecline, 10000.0) && DEFAULTS.Ordered()
    ensures forall dti: real :: dti >= 0.0 ==>
              && (ClassifyRiskTier(dti, Good, DEFAULTS).High? <==> dti >= 0.55)
              && (ClassifyRiskTier(dti, Good, DEFAULTS).Borderline? <==> 0.36 <= dti < 0.45)
              && (ClassifyRiskTier(dti, Good, DEFAULTS).Low? <==> dti < 0.36)
  {
  }

  lemma {:induction false} DtiIsNonnegative(income: real, debt: real)
    requires debt >= 0.0
    ensures DebtToIncome(income, debt) >= 0.0
  {
    hide RoundTo;
    if income > 0.0 {
      assert debt / income >= 0.0;
      assert OnGrid(0.0, 10000.0);
      RoundingRespectsGrid(debt / income, 0.0, 10000.0);
    }
  }

  /** The ratio that ought to be scored: within half of 0.0001, and in whole units of it. */
  predicate IsRatio(dti: real, debt: real, income: real)
    requires income > 0.0
  {
    -0.00005 <= dti - debt / income <= 0.00005 && OnGrid(dti, 10000.0)
  }

  /**
   The score of an applicant: debt by the extracted monthly income, or, if none was extracted, twelve times the debt
   by the stated annual income, or 1 if there is no income at all.
   */
  predicate IsScore(dti: real, gross: real, annualIncome: real, debt: real) {
    if gross > 0.0 then IsRatio(dti, debt, gross)
    else if annualIncome > 0.0 then IsRatio(dti, 12.0 * debt, annualIncome)
    else dti == 1.0
  }

  /** Every assessment scores the applicant so, and grades the score and the band of the report. */
  lemma {:induction false} AssessmentIsScore(settings: Settings, a: Application, x: Extracted, report: Report)
    requires x.gross >= 0.0 && a.annualIncome >= 0.0
    ensures var risk := Assess(settings, a, x, report);
            IsScore(risk.dti, x.gross, a.annualIncome, x.debt) && risk.report == report
  {
    hide RoundTo, OnGrid;
    var income := MonthlyIncome(a, x);
    if income > 0.0 {
      DtiError(income, x.debt);
      RoundedIsOnGrid(x.debt / income, 10000.0);
    }
    if x.gross == 0.0 && a.annualIncome > 0.0 { TwelfthDivides(x.debt, a.annualIncome); }
  }

  lemma {:induction false} TwelfthDivides(debt: real, annual: real)
    requires annual > 0.0
    ensures debt / (annual / 12.0) == 12.0 * debt / annual
  {
    var q := 12.0 * debt / annual;
    DivCancels(12.0 * debt, annual);
    DivUndoes(q, debt, annual / 12.0);
  }

  /** When the tier is HIGH, BORDERLINE or straight-through, in terms of ratio and band. */
  lemma {:induction false} TierMeaning(dti: real, band: CreditBand, s: Settings)
    requires s.Ordered() && dti >= 0.0
    ensures var tier := ClassifyRiskTier(dti, band, s);
            var sound := band.Good? || band.Excellent?;
            && (tier.High? <==> dti >= s.hardDecline || band.Poor?)
            && (tier.Low? || tier.Medium? <==>
                  sound && (dti < s.borderlineLow || s.borderlineHigh <= dti < s.hardDecline))
            && (tier.Low? <==> sound && dti < s.borderlineLow && dti < s.hardDecline)
  {
  }
}
