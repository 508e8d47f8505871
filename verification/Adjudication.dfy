/** What whole runs decide: the exact split of unattended runs, and what every decision says. */
module Adjudication {
  import opened Wrappers
  import opened Domain
  import opened Extraction
  import opened Underwriting
  import opened Audit
  import opened Workflow
  import opened WorkflowRuns
  import opened PauseResume

  // ----- What a run holds comes from its application and its services -----

  ghost predicate FromInputs(w: World, sv: Services, a: Application, resume: Option<Resolution>, c: Checkpoint) {
    var s, stage := c.values, Stage(c.next);
    && (stage == 0 ==> s.application == a)
    && (stage > 0 ==> Validated(w.u, a) == Some(s.application))
    && (stage > 1 ==>
          s.extracted.Some? && sv.extract(w.sanitize(s.application.document)) == s.extracted)
    && (stage > 2 ==> s.risk.Some? && sv.bureau(s.application.name) == Some(s.risk.value.report))
    && (s.resolution.Some? ==> s.resolution == resume)
    && (stage > 5 ==>
          && s.risk.Some? && s.policy.Some? && s.decision.Some?
          && sv.explain(FactsOf(s.application, s.risk.value, s.policy.value, s.resolution))
             == Some(s.decision.value.rationale))
  }

  lemma {:induction false} EarlyStepFromInputs(
      w: World, sv: Services, a: Application, c: Checkpoint, resume: Option<Resolution>)
    requires Sound(w, c) && FromInputs(w, sv, a, resume, c) && Stage(c.next) < 4
    ensures FromInputs(w, sv, a, resume, Superstep(w, sv, c, resume).c)
  {
    hide GoodTrail, Validated, ValidExtracted, ValidRisk, ValidResolution, DebtToIncome, FactsOf,
      ClassifyRiskTier, PolicyOf, DetermineOutcome, DecisionFollows, Causes, RequestDetails, Event, PayloadOf,
      RequestEvent;
  }

  lemma {:induction false} LateStepFromInputs(
      w: World, sv: Services, a: Application, c: Checkpoint, resume: Option<Resolution>)
    requires Sound(w, c) && FromInputs(w, sv, a, resume, c) && Stage(c.next) >= 4
    ensures FromInputs(w, sv, a, resume, Superstep(w, sv, c, resume).c)
  {
    hide GoodTrail, Validated, ValidExtracted, ValidRisk, ValidResolution, DebtToIncome, FactsOf,
      ClassifyRiskTier, PolicyOf, DetermineOutcome, DecisionFollows, Causes, RequestDetails, Event, PayloadOf,
      RequestEvent;
  }

  lemma {:induction false} StepFromInputs(
      w: World, sv: Services, a: Application, c: Checkpoint, resume: Option<Resolution>)
    requires Sound(w, c) && FromInputs(w, sv, a, resume, c)
    ensures FromInputs(w, sv, a, resume, Superstep(w, sv, c, resume).c)
  {
    hide Superstep, Sound, FromInputs;
    if Stage(c.next) < 4 { EarlyStepFromInputs(w, sv, a, c, resume); } else { LateStepFromInputs(w, sv, a, c, resume); }
  }

  lemma {:induction false} InvokeFromInputs(w: World, sv: Services, a: Application, c: Checkpoint,
                                            resume: Option<Resolution>)
    requires Sound(w, c) && FromInputs(w, sv, a, resume, c)
    ensures FromInputs(w, sv, a, resume, Invoke(w, sv, c, resume).c)
    decreases 7 - Stage(c.next)
  {
    hide Sound, FromInputs, Superstep;
    StepKeepsSound(w, sv, c, resume);
    StepFromInputs(w, sv, a, c, resume);
    MovingAdvances(w, sv, c, resume);
    var t := Superstep(w, sv, c, resume);
    if c.next.Some? && t.how.Moved? { InvokeFromInputs(w, sv, a, t.c, resume); }
  }

  // ----- The three-way split -----

  datatype Disposition = Approve | Deny | Escalate

  /** Where an application ought to go, in terms of the scored ratio, the band, the request and the confidence. */
  function Expected(settings: Settings, dti: real, band: CreditBand, a: Application, confidence: real): Disposition {
    if a.requested > 5.0 * a.annualIncome || confidence < 0.5 then Escalate
    else if dti >= settings.hardDecline || band.Poor? then Deny
    else if band.Fair? || settings.borderlineLow <= dti < settings.borderlineHigh then Escalate
    else Approve
  }

  /** What became of a run that was started and left alone. */
  function Disposed(t: Turn): Option<Disposition> {
    if t.how.Paused? then Some(Escalate)
    else if t.c.values.decision.None? then None
    else if t.c.values.decision.value.outcome.Approved? then Some(Approve)
    else Some(Deny)
  }

  lemma {:induction false} RuleSplit(settings: Settings, a: Application, x: Extracted, report: Report)
    requires a.requested > 0.0 && a.annualIncome >= 0.0
    ensures var risk, policy := Assess(settings, a, x, report), PolicyOf(a, x);
            var expected := Expected(settings, risk.dti, report.band, a, x.confidence);
            && (expected.Escalate? <==> risk.escalate || !policy.passed)
            && (!risk.escalate && policy.passed ==>
                  expected == if DetermineOutcome(a, risk, policy, None).outcome.Approved? then Approve else Deny)
  {
    hide DebtToIncome, PolicyOf, AdverseReasons;
    PassedIff(a, x);
  }

  /**
   The exact split of runs in which no node raises: the run scores what extraction, the application and the bureau
   say, and ends where the thresholds put that score, and nowhere else.
   */
  lemma {:induction false} ThreeWaySplit(w: World, sv: Services, a: Application, correlationId: string)
    requires !Invoke(w, sv, Fresh(a, correlationId), None).how.Raised?
    ensures Validated(w.u, a).Some?
    ensures var v, t := Validated(w.u, a).value, Invoke(w, sv, Fresh(a, correlationId), None);
            var extracted, report, risk := sv.extract(w.sanitize(v.document)), sv.bureau(v.name), t.c.values.risk;
            && extracted.Some? && report.Some? && risk.Some?
            && var x, dti := extracted.value, risk.value.dti;
               && IsScore(dti, x.gross, v.annualIncome, x.debt)
               && risk.value.report == report.value
               && Disposed(t) == Some(Expected(w.settings, dti, report.value.band, v, x.confidence))
  {
    hide Invoke, Superstep, GoodTrail, Validated, Expected, Assess, PolicyOf, DetermineOutcome, IsScore;
    var c := Fresh(a, correlationId);
    var t := Invoke(w, sv, c, None);
    FreshIsSound(w, a, correlationId);
    InvokeKeepsSound(w, sv, c, None);
    InvokeLogs(w, sv, c, None);
    InvokeFromInputs(w, sv, a, c, None);
    var s := t.c.values;
    ValidatedRanges(w, a);
    RuleSplit(w.settings, s.application, s.extracted.value, s.risk.value.report);
    AssessmentIsScore(w.settings, s.application, s.extracted.value, s.risk.value.report);
  }

  /** At every reachable checkpoint that has been scored, the score is that of its application and extraction. */
  lemma {:induction false} ScoresAreRight(w: World, a: Application, correlationId: string, c: Checkpoint)
    requires Reachable(w, a, correlationId, c) && c.values.risk.Some?
    ensures var s := c.values;
            s.extracted.Some? && IsScore(s.risk.value.dti, s.extracted.value.gross, s.application.annualIncome,
                                         s.extracted.value.debt)
  {
    hide GoodTrail, PolicyOf, DetermineOutcome, Assess, Validated, Reachable, IsScore;
    ReachableIsSound(w, a, correlationId, c);
    var s := c.values;
    ValidatedRanges(w, s.application);
    AssessmentIsScore(w.settings, s.application, s.extracted.value, s.risk.value.report);
  }

  lemma {:induction false} ValidatedRanges(w: World, a: Application)
    ensures Validated(w.u, a).Some? ==>
              Validated(w.u, a).value.requested > 0.0 && Validated(w.u, a).value.annualIncome >= 0.0
  {
    hide Strip;
  }

  // ----- What every decision says -----

  /**
   At every reachable checkpoint with a decision: a denial gives no amount and at least one reason,
   an approval gives the requested amount and no reason.
   */
  lemma {:induction false} DecisionsAreExplained(w: World, a: Application, correlationId: string, c: Checkpoint)
    requires Reachable(w, a, correlationId, c) && c.values.decision.Some?
    ensures var d := c.values.decision.value;
            if d.outcome.Denied? then d.amount.None? && d.reasons != []
            else d.amount == Some(c.values.application.requested) && d.reasons == []
  {
    hide GoodTrail, PolicyOf, DetermineOutcome, Assess, Validated, Reachable;
    ReachableIsSound(w, a, correlationId, c);
    var s := c.values;
    VerdictIsExplained(s.application, s.risk.value, s.extracted.value, s.resolution);
  }

  /**
   At every reachable checkpoint with a denial, the list gives exactly the reasons there are: the ratio for a HIGH
   tier, besides it a POOR band, every finding above INFO, and that a reviewer decided only if there is none.
   */
  lemma {:induction false} DenialsGiveTheirReasons(w: World, a: Application, correlationId: string, c: Checkpoint)
    requires Reachable(w, a, correlationId, c) && c.values.decision.Some? && c.values.decision.value.outcome.Denied?
    ensures var s := c.values;
            s.risk.Some? && s.policy.Some? && GivesReasons(s.decision.value.reasons, s.risk.value, s.policy.value.flags,
                                                           s.resolution.Some?)
  {
    hide GoodTrail, PolicyOf, DetermineOutcome, Assess, Validated, Reachable, GivesReasons;
    ReachableIsSound(w, a, correlationId, c);
    var s := c.values;
    DenialGivesReasons(s.application, s.risk.value, s.extracted.value, s.resolution);
  }

  /** The decision of `s` is a reviewer's exactly when its run was routed to one, and is then their flag. */
  predicate DecidedByRightParty(s: State)
    requires s.decision.Some?
  {
    var d := s.decision.value;
    && s.risk.Some? && s.policy.Some?
    && (d.decidedBy.HumanReviewer? <==> NeedsHuman(s))
    && (d.decidedBy.HumanReviewer? <==> s.resolution.Some?)
    && (s.resolution.Some? ==>
          && d.decidedBy == HumanReviewer(s.resolution.value.reviewer)
          && (d.outcome.Approved? <==> s.resolution.value.approve))
    && (s.resolution.None? ==>
          && d.decidedBy == Agent(Explainability)
          && s.policy.value.passed
          && (d.outcome.Denied? <==> s.risk.value.tier.High?))
  }

  lemma {:induction false} SoundDecisions(w: World, c: Checkpoint)
    requires Sound(w, c) && c.values.decision.Some?
    ensures DecidedByRightParty(c.values)
  {
    hide GoodTrail, PolicyOf, Assess, Validated, AdverseReasons;
  }

  /**
   A decision is a reviewer's exactly when the run was routed to a reviewer, and is then that
   reviewer's flag. No automatic decision is made with a failed policy: of the two grounds for an
   automatic denial only the HIGH tier is ever met.
   */
  lemma {:induction false} HumanAuthority(w: World, a: Application, correlationId: string, c: Checkpoint)
    requires Reachable(w, a, correlationId, c) && c.values.decision.Some?
    ensures DecidedByRightParty(c.values)
  {
    hide Sound, Reachable;
    ReachableIsSound(w, a, correlationId, c);
    SoundDecisions(w, c);
  }

  /** Every pause has a cause to show: the fallback wording of the request is never used. */
  lemma {:induction false} PausesHaveCauses(w: World, a: Application, correlationId: string, c: Checkpoint)
    requires Reachable(w, a, correlationId, c) && AtPause(c)
    ensures c.interrupts[0].causes != []
    ensures BlockFlags([]) !in c.interrupts[0].causes
  {
    hide GoodTrail, FlagsOf, Assess, Validated, Reachable;
    ReachableIsSound(w, a, correlationId, c);
    var s := c.values;
    if !s.policy.value.passed { BlockedHasCodes(s.policy.value.flags); }
  }

  /** What ought to be shown at a pause: each ground for it, in order. */
  function Grounds(tier: RiskTier, overLeveraged: bool, unsure: bool): seq<Cause> {
    var codes := (if overLeveraged then [OverLeveragedRequest] else [])
                 + (if unsure then [LowExtractionConfidence] else []);
    (if tier.Borderline? then [BorderlineTier(Borderline)] else []) + (if codes == [] then [] else [BlockFlags(codes)])
  }

  lemma {:induction false} BlockCodesOf(a: Application, x: Extracted)
    requires a.requested > 0.0 && a.annualIncome >= 0.0
    ensures BlockCodes(FlagsOf(a, x)) ==
            (if a.requested > 5.0 * a.annualIncome then [OverLeveragedRequest] else [])
            + (if x.confidence < 0.5 then [LowExtractionConfidence] else [])
  {
    hide DebtsDisagree;
    var over, low := FlagIf(OverLeveraged(a), OverLeveragedRequest, Block),
                     FlagIf(x.confidence < MIN_CONFIDENCE, LowExtractionConfidence, Block);
    var rest := FlagIf(DebtsDisagree(a, x), DebtStatementInconsistency, Warn)
                + FlagIf(a.employment.Unemployed? && a.requested > 0.0, UnemployedApplicant, Warn)
                + FlagIf(a.employment.SelfEmployed?, SelfEmployedIncomeVariability, Info);
    assert FlagsOf(a, x) == over + (low + rest);
    hide FlagsOf;
    OneBlockCode(over, low + rest);
    OneBlockCode(low, rest);
    MildFlags(DebtsDisagree(a, x), a.employment.Unemployed? && a.requested > 0.0, a.employment.SelfEmployed?);
    assert OverLeveraged(a) <==> a.requested > 5.0 * a.annualIncome;
  }

  lemma {:induction false} MildFlags(debts: bool, unemployed: bool, selfEmployed: bool)
    ensures BlockCodes(FlagIf(debts, DebtStatementInconsistency, Warn) + FlagIf(unemployed, UnemployedApplicant, Warn)
                       + FlagIf(selfEmployed, SelfEmployedIncomeVariability, Info)) == []
  {
    NoBlockCodes(FlagIf(debts, DebtStatementInconsistency, Warn) + FlagIf(unemployed, UnemployedApplicant, Warn)
                 + FlagIf(selfEmployed, SelfEmployedIncomeVariability, Info));
  }

  lemma {:induction false} OneBlockCode(one: seq<Flag>, rest: seq<Flag>)
    requires |one| <= 1 && (one != [] ==> one[0].severity.Block?)
    ensures BlockCodes(one + rest) == (if one == [] then [] else [one[0].code]) + BlockCodes(rest)
  {
    if one == [] { assert one + rest == rest; } else { assert (one + rest)[1..] == rest; }
  }

  lemma {:induction false} NoBlockCodes(flags: seq<Flag>)
    requires forall k | 0 <= k < |flags| :: !flags[k].severity.Block?
    ensures BlockCodes(flags) == []
  {
    if flags != [] { NoBlockCodes(flags[1..]); }
  }

  /** Every reviewer is shown the scored ratio, band and tier of the run, and exactly the grounds for its pause. */
  lemma {:induction false} PausesShowWhy(w: World, a: Application, correlationId: string, c: Checkpoint)
    requires Reachable(w, a, correlationId, c) && c.interrupts != []
    ensures var s := c.values;
            && c.next == Some(HumanEscalation) && s.risk.Some? && s.extracted.Some?
            && c.interrupts == [Payload(
                 Grounds(s.risk.value.tier, s.application.requested > 5.0 * s.application.annualIncome,
                         s.extracted.value.confidence < 0.5),
                 s.risk.value.dti, s.risk.value.report.band, s.risk.value.tier, s.applicationId)]
  {
    hide GoodTrail, FlagsOf, Validated, Reachable, BlockCodes, Blocked, ClassifyRiskTier, DebtToIncome;
    ReachableIsSound(w, a, correlationId, c);
    var s := c.values;
    ValidatedRanges(w, s.application);
    PassedIff(s.application, s.extracted.value);
    BlockCodesOf(s.application, s.extracted.value);
  }

  lemma {:induction false} BlockedHasCodes(flags: seq<Flag>)
    requires Blocked(flags)
    ensures BlockCodes(flags) != []
  {
    var k :| 0 <= k < |flags| && flags[k].severity.Block?;
    if !flags[0].severity.Block? {
      assert flags[1..][k - 1].severity.Block?;
      BlockedHasCodes(flags[1..]);
    }
  }

  // ----- Progress -----

  /** No negative amount or count, a confidence between 0 and 1, and a score between 300 and 850. */
  predicate InRange(x: Extracted, report: Report) {
    && x.gross >= 0.0 && x.net >= 0.0 && x.debt >= 0.0 && x.confidence >= 0.0 && x.confidence <= 1.0
    && report.score >= 300 && report.score <= 850 && report.tradelines >= 0 && report.delinquencies >= 0
  }

  /** The application is valid, and extraction and the bureau answer for it within the validators' ranges. */
  predicate Answered(w: World, sv: Services, a: Application) {
    match Validated(w.u, a)
    case None => false
    case Some(v) =>
      match (sv.extract(w.sanitize(v.document)), sv.bureau(v.name))
      case (Some(x), Some(report)) => InRange(x, report)
      case _ => false
  }

  lemma {:induction false} AssessmentIsValid(settings: Settings, a: Application, x: Extracted, report: Report)
    requires ValidExtracted(x) && ValidReport(report)
    ensures ValidRisk(Assess(settings, a, x, report))
  {
    hide DebtToIncome;
    DtiIsNonnegative(MonthlyIncome(a, x), x.debt);
  }

  /** The explaining model answers with some text. */
  predicate Speaks(sv: Services, facts: Facts) {
    sv.explain(facts).Some? && sv.explain(facts).value != ""
  }

  /** What remains after the rules: a pause, a valid resolution, and an explanation of the outcome. */
  predicate Told(w: World, sv: Services, a: Application, resume: Option<Resolution>)
    requires Answered(w, sv, a)
  {
    var v := Validated(w.u, a).value;
    var x := sv.extract(w.sanitize(v.document)).value;
    var risk, policy := Assess(w.settings, v, x, sv.bureau(v.name).value), PolicyOf(v, x);
    if risk.escalate || !policy.passed then
      resume.Some? ==> ValidResolution(resume.value) && Speaks(sv, FactsOf(v, risk, policy, resume))
    else
      Speaks(sv, FactsOf(v, risk, policy, None))
  }

  lemma {:induction false} AnsweredIsValid(w: World, sv: Services, a: Application)
    requires Answered(w, sv, a)
    ensures Validated(w.u, a).Some?
    ensures var v := Validated(w.u, a).value;
            && sv.extract(w.sanitize(v.document)).Some? && sv.bureau(v.name).Some?
            && ValidExtracted(sv.extract(w.sanitize(v.document)).value) && ValidReport(sv.bureau(v.name).value)
  {
    hide Validated;
  }

  /** Whatever a node commits passes the validators of the nodes that follow. */
  lemma {:induction false} StepDoesNotRaise(
      w: World, sv: Services, a: Application, c: Checkpoint, resume: Option<Resolution>)
    requires Sound(w, c) && FromInputs(w, sv, a, resume, c) && Answered(w, sv, a) && Told(w, sv, a, resume)
    ensures !Superstep(w, sv, c, resume).how.Raised?
  {
    hide GoodTrail, Validated, ValidReport, ValidExtracted, ValidRisk, ValidResolution, FactsOf,
      Assess, PolicyOf, DetermineOutcome, DecisionFollows, Causes, RequestDetails, ReceivedDetails, ScoredDetails,
      PolicyDetails, ResolvedDetails, RationaleDetails, FinalDetails, ExtractedDetails;
    AnsweredIsValid(w, sv, a);
    hide Answered;
    if c.next == Some(RiskScoring) {
      var s := c.values;
      AssessmentIsValid(w.settings, s.application, s.extracted.value, sv.bureau(s.application.name).value);
    }
  }

  lemma {:induction false} InvokeDoesNotRaise(w: World, sv: Services, a: Application, c: Checkpoint,
                                              resume: Option<Resolution>)
    requires Sound(w, c) && FromInputs(w, sv, a, resume, c) && Answered(w, sv, a) && Told(w, sv, a, resume)
    ensures !Invoke(w, sv, c, resume).how.Raised?
    decreases 7 - Stage(c.next)
  {
    hide Sound, FromInputs, Superstep, Answered, Told;
    StepKeepsSound(w, sv, c, resume);
    StepFromInputs(w, sv, a, c, resume);
    StepDoesNotRaise(w, sv, a, c, resume);
    MovingAdvances(w, sv, c, resume);
    var t := Superstep(w, sv, c, resume);
    if c.next.Some? && t.how.Moved? { InvokeDoesNotRaise(w, sv, a, t.c, resume); }
  }

  /**
   No node of a run raises if and only if the application is valid, extraction and bureau answer within
   the validators' ranges, a resolution that is needed and given is valid, and the outcome that is
   reached gets an explanation.
   */
  lemma {:induction false} RunsThroughIff(
      w: World, sv: Services, a: Application, correlationId: string, resume: Option<Resolution>)
    ensures !Invoke(w, sv, Fresh(a, correlationId), resume).how.Raised?
            <==> Answered(w, sv, a) && Told(w, sv, a, resume)
  {
    hide Invoke, Superstep, GoodTrail, Validated, Assess, PolicyOf, DetermineOutcome, ValidResolution;
    var c := Fresh(a, correlationId);
    FreshIsSound(w, a, correlationId);
    if Answered(w, sv, a) && Told(w, sv, a, resume) {
      InvokeDoesNotRaise(w, sv, a, c, resume);
    }
    InvokeKeepsSound(w, sv, c, resume);
    InvokeLogs(w, sv, c, resume);
    InvokeFromInputs(w, sv, a, c, resume);
  }

  /**
   What the explaining model is told is what is decided: the rationale of a decision is its answer to the decision's
   own outcome, amount and reasons, the scored risk, the request, the findings and the resolution.
   */
  lemma {:induction false} RationaleIsOfDecision(
      w: World, sv: Services, a: Application, correlationId: string, resume: Option<Resolution>)
    requires Invoke(w, sv, Fresh(a, correlationId), resume).c.values.decision.Some?
    ensures var s := Invoke(w, sv, Fresh(a, correlationId), resume).c.values;
            && s.risk.Some? && s.policy.Some?
            && var d := s.decision.value;
               sv.explain(Facts(Verdict(d.outcome, d.amount, d.reasons), s.risk.value, s.application.requested,
                                s.policy.value.flags, s.resolution)) == Some(d.rationale)
  {
    hide Invoke, Superstep, GoodTrail, Validated, Assess, PolicyOf, DetermineOutcome, ValidResolution, Causes;
    var c := Fresh(a, correlationId);
    FreshIsSound(w, a, correlationId);
    InvokeKeepsSound(w, sv, c, resume);
    InvokeFromInputs(w, sv, a, c, resume);
  }
}
