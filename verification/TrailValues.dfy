/** What the audit trail says is what the run holds: the details of every event, against the stored values. */
module TrailValues {
  import opened Wrappers
  import opened CharTable
  import opened Audit
  import opened Domain
  import opened Extraction
  import opened JsonRedaction
  import opened Underwriting
  import opened Workflow
  import opened WorkflowRuns
  import PiiRedaction
  import PiiShapes

  /** The event carries this field, at this place. */
  predicate Says(e: AuditEvent, k: nat, key: string, v: Json) {
    k < |e.details| && e.details[k] == Field(key, v)
  }

  /** What an event ought to say of the state it is part of. */
  predicate Tells(w: World, s: State, e: AuditEvent) {
    match e.action
    case ApplicationReceived =>
      && SaysPurpose(e, s.application.purpose)
      && Says(e, 1, "requested_amount", Number(s.application.requested))
      && SaysEmployment(e, s.application.employment)
    case FinancialsExtracted =>
      && s.extracted.Some?
      && Says(e, 0, "extraction_confidence", Number(s.extracted.value.confidence))
      && Says(e, 1, "monthly_gross_income", Number(s.extracted.value.gross))
      && Says(e, 2, "existing_monthly_debt_payments", Number(s.extracted.value.debt))
    case RiskScored =>
      && s.risk.Some?
      && Says(e, 0, "debt_to_income_ratio", Number(s.risk.value.dti))
      && SaysTier(e, s.risk.value.tier) && SaysBand(e, s.risk.value.report.band)
      && Says(e, 3, "credit_score", Number(s.risk.value.report.score as real))
    case PolicyEvaluated =>
      && s.policy.Some?
      && Says(e, 0, "passed", Bool(s.policy.value.passed)) && SaysCodes(e, s.policy.value.flags)
    case EscalationRequested =>
      && s.request.Some?
      && var p := s.request.value;
         && SaysText(w, e, 0, "reason", w.reasonText(p.causes))
         && SaysText(w, e, 1, "risk_summary", w.summaryText(p.dti, p.band, p.tier))
         && SaysText(w, e, 2, "application_id", s.applicationId)
    case EscalationResolved =>
      && s.resolution.Some?
      && Says(e, 0, "approve", Bool(s.resolution.value.approve))
      && SaysText(w, e, 1, "notes", s.resolution.value.notes)
    case RationaleGenerated => SaysOutcome(s, e) && SaysDecider(w, s, e)
    case DecisionFinalized => SaysOutcome(s, e)
  }

  /** The event carries this text, redacted. */
  predicate SaysText(w: World, e: AuditEvent, k: nat, key: string, text: string) {
    Says(e, k, key, Str(PiiRedaction.Redacted(w.u, text)))
  }

  predicate SaysPurpose(e: AuditEvent, p: LoanPurpose) {
    && (p.Auto? <==> Says(e, 0, "loan_purpose", Str("auto")))
    && (p.HomeImprovement? <==> Says(e, 0, "loan_purpose", Str("home_improvement")))
    && (p.DebtConsolidation? <==> Says(e, 0, "loan_purpose", Str("debt_consolidation")))
    && (p.Personal? <==> Says(e, 0, "loan_purpose", Str("personal")))
    && (p.SmallBusiness? <==> Says(e, 0, "loan_purpose", Str("small_business")))
  }

  predicate SaysEmployment(e: AuditEvent, p: EmploymentStatus) {
    && (p.EmployedFullTime? <==> Says(e, 2, "employment_status", Str("employed_full_time")))
    && (p.EmployedPartTime? <==> Says(e, 2, "employment_status", Str("employed_part_time")))
    && (p.SelfEmployed? <==> Says(e, 2, "employment_status", Str("self_employed")))
    && (p.Unemployed? <==> Says(e, 2, "employment_status", Str("unemployed")))
    && (p.Retired? <==> Says(e, 2, "employment_status", Str("retired")))
  }

  predicate SaysTier(e: AuditEvent, t: RiskTier) {
    && (t.High? <==> Says(e, 1, "risk_tier", Str("high")))
    && (t.Borderline? <==> Says(e, 1, "risk_tier", Str("borderline")))
    && (t.Medium? <==> Says(e, 1, "risk_tier", Str("medium")))
    && (t.Low? <==> Says(e, 1, "risk_tier", Str("low")))
  }

  predicate SaysBand(e: AuditEvent, b: CreditBand) {
    && (b.Poor? <==> Says(e, 2, "credit_band", Str("poor")))
    && (b.Fair? <==> Says(e, 2, "credit_band", Str("fair")))
    && (b.Good? <==> Says(e, 2, "credit_band", Str("good")))
    && (b.Excellent? <==> Says(e, 2, "credit_band", Str("excellent")))
  }

  /** The codes of the findings, one by one. */
  predicate SaysCodes(e: AuditEvent, flags: seq<Flag>) {
    && 1 < |e.details| && e.details[1].key == "flag_codes" && e.details[1].value.List?
    && |e.details[1].value.items| == |flags|
    && forall k | 0 <= k < |flags| :: IsCode(e.details[1].value.items[k], flags[k].code)
  }

  predicate IsCode(v: Json, c: FlagCode) {
    && (c.OverLeveragedRequest? <==> v == Str("OVER_LEVERAGED_REQUEST"))
    && (c.LowExtractionConfidence? <==> v == Str("LOW_EXTRACTION_CONFIDENCE"))
    && (c.DebtStatementInconsistency? <==> v == Str("DEBT_STATEMENT_INCONSISTENCY"))
    && (c.UnemployedApplicant? <==> v == Str("UNEMPLOYED_APPLICANT"))
    && (c.SelfEmployedIncomeVariability? <==> v == Str("SELF_EMPLOYED_INCOME_VARIABILITY"))
  }

  predicate SaysOutcome(s: State, e: AuditEvent) {
    && s.decision.Some?
    && (s.decision.value.outcome.Approved? <==> Says(e, 0, "outcome", Str("approved")))
    && (s.decision.value.outcome.Denied? <==> Says(e, 0, "outcome", Str("denied")))
  }

  predicate SaysDecider(w: World, s: State, e: AuditEvent) {
    if s.resolution.Some? then SaysText(w, e, 1, "decided_by", "human_reviewer:" + s.resolution.value.reviewer)
    else Says(e, 1, "decided_by", Str("explainability_agent"))
  }

  // ----- Redaction leaves these details alone -----

  /** A text without digits and at signs is not changed by redaction. */
  lemma {:induction false} WordsStay(u: Table, text: string)
    requires u.Valid() && forall c | c in text :: c != '@' && c !in u.digits
    ensures PiiRedaction.Redacted(u, text) == text
  {
    hide PiiShapes.Personal;
    NoDigitsNothingPersonal(u, text);
    PiiShapes.ChangedIffPersonal(u, text);
  }

  lemma {:induction false} AddressHasSign(s: string, i: int, at: int, dot: int, j: int)
    requires PiiShapes.EmailAt(s, i, at, dot, j)
    ensures '@' in s
  {
    assert s[at] in s;
  }

  lemma {:induction false} NumberHasDigit(u: Table, s: string, i: int, n: nat)
    requires n > 0 && PiiShapes.DigitsAt(u, s, i, n)
    ensures exists c :: c in s && c in u.digits
  {
    assert s[i] in s;
  }

  lemma {:induction false} NoDigitsNothingPersonal(u: Table, text: string)
    requires forall c | c in text :: c != '@' && c !in u.digits
    ensures !PiiShapes.Personal(u, text)
  {
    forall i, at, dot, j ensures !PiiShapes.EmailAt(text, i, at, dot, j) {
      if PiiShapes.EmailAt(text, i, at, dot, j) { AddressHasSign(text, i, at, dot, j); }
    }
    forall i: int, n: nat | n > 0 ensures !PiiShapes.DigitsAt(u, text, i, n) {
      if PiiShapes.DigitsAt(u, text, i, n) { NumberHasDigit(u, text, i, n); }
    }
    forall i, j, n: nat | n > 0 ensures !PiiShapes.SpacedDigits(u, text, i, j, n) {
    }
    hide PiiShapes.EmailAt, PiiShapes.DigitsAt, PiiShapes.SpacedDigits, PiiShapes.CodeAt, PiiShapes.Gap;
  }

  /** Letters and underscores only. */
  predicate IsWord(w: string) { forall k | 0 <= k < |w| :: IsAsciiLetter(w[k]) || w[k] == '_' }

  /** A key that names nobody. */
  predicate IsPlain(key: string) { IsWord(key) && !NamesPerson(key) }

  lemma {:induction false} WordStays(u: Table, w: string)
    requires u.Valid() && IsWord(w)
    ensures PiiRedaction.Redacted(u, w) == w
  {
    forall c | c in w ensures c != '@' && c !in u.digits { assert IsAscii(c); }
    WordsStay(u, w);
  }

  /** A field under a key that names nobody. */
  lemma {:induction false} PlainField(u: Table, f: Field)
    requires u.Valid() && IsPlain(f.key) && !f.value.List? && !f.value.Dict?
    ensures FieldValue(Rules(u, {}), f)
            == if f.value.Str? then Str(PiiRedaction.Redacted(u, f.value.s)) else f.value
  {
    hide NamesPerson, Rules.Sensitive;
    forall c | c in f.key ensures IsAscii(c) {
    }
    SensitiveIff(u, f.key);
  }

  /** A plain detail is recorded as it is, and a text redacted. */
  lemma {:induction false} DetailIsRecorded(u: Table, details: seq<Field>, k: nat)
    requires u.Valid() && k < |details|
    requires var f := details[k]; IsPlain(f.key) && !f.value.List? && !f.value.Dict?
    ensures var f := details[k];
            && k < |Redact(u, details)|
            && Redact(u, details)[k]
               == Field(f.key, if f.value.Str? then Str(PiiRedaction.Redacted(u, f.value.s)) else f.value)
  {
    hide NamesPerson;
    FieldsAt(Rules(u, {}), details, k);
    PlainField(u, details[k]);
  }

  // ----- The keys and words of the details -----

  /** A key can be told from the names of persons by its length, or by its first letters. */
  lemma {:induction false} PlainKey(key: string)
    requires |key| in {6, 9, 10, 14, 16, 17, 20, 21, 30} || (|key| > 2 && key[0] !in {'a', 'e', 'p', 'r', 's'})
             || (|key| == 7 && key[0] == 'a' && key[1] == 'p') || (|key| == 12 && key[0] == 'r')
    requires IsWord(key) && key != "" && IsAsciiLetter(key[0]) && AsciiLower(key[0]) == key[0]
    ensures IsPlain(key)
  {
  }

  /** A word under a plain key is recorded as it is. */
  lemma {:induction false} WordIsRecorded(u: Table, details: seq<Field>, k: nat)
    requires u.Valid() && k < |details| && details[k].value.Str? && IsWord(details[k].value.s)
    requires IsPlain(details[k].key)
    ensures k < |Redact(u, details)| && Redact(u, details)[k] == details[k]
  {
    hide NamesPerson, IsWord;
    DetailIsRecorded(u, details, k);
    WordStays(u, details[k].value.s);
  }

  /** A list of words under a plain key, too. */
  lemma {:induction false} WordsAreRecorded(u: Table, details: seq<Field>, k: nat)
    requires u.Valid() && k < |details| && details[k].value.List?
    requires forall i | 0 <= i < |details[k].value.items| ::
               details[k].value.items[i].Str? && IsWord(details[k].value.items[i].s)
    requires IsPlain(details[k].key)
    ensures k < |Redact(u, details)| && Redact(u, details)[k] == details[k]
  {
    hide NamesPerson, Rules.Sensitive;
    var r := Rules(u, {});
    FieldsAt(r, details, k);
    forall c | c in details[k].key ensures IsAscii(c) {
    }
    SensitiveIff(u, details[k].key);
    WordItems(u, details[k].value.items);
  }

  lemma {:induction false} ItemsOf(r: Rules, items: seq<Json>)
    ensures items == [] ==> Items(r, items) == []
    ensures items != [] && items[0].Str? ==>
              Items(r, items) == [Str(PiiRedaction.Redacted(r.u, items[0].s))] + Items(r, items[1..])
  {
  }

  lemma {:induction false} WordItems(u: Table, items: seq<Json>)
    requires u.Valid() && forall i | 0 <= i < |items| :: items[i].Str? && IsWord(items[i].s)
    ensures Items(Rules(u, {}), items) == items
    decreases |items|
  {
    hide IsWord, Items, PiiRedaction.Redacted, Table.Valid;
    ItemsOf(Rules(u, {}), items);
    if items != [] {
      WordStays(u, items[0].s);
      WordItems(u, items[1..]);
      assert items == [items[0]] + items[1..];
    }
  }

  lemma {:induction false} PurposeIsWord(p: LoanPurpose)
    ensures IsWord(PurposeName(p))
  {
  }

  lemma {:induction false} EmploymentIsWord(q: EmploymentStatus)
    ensures IsWord(EmploymentName(q))
  {
  }

  lemma {:induction false} GradesAreWords(t: RiskTier, b: CreditBand, o: Outcome)
    ensures IsWord(TierName(t)) && IsWord(BandName(b)) && IsWord(OutcomeName(o))
  {
  }

  lemma {:induction false} BlockingCodesAreWords()
    ensures IsWord("OVER_LEVERAGED_REQUEST") && IsWord("LOW_EXTRACTION_CONFIDENCE")
  {
  }

  lemma {:induction false} WarningCodesAreWords()
    ensures IsWord("DEBT_STATEMENT_INCONSISTENCY") && IsWord("UNEMPLOYED_APPLICANT")
  {
  }

  lemma {:induction false} InformingCodeIsWord()
    ensures IsWord("SELF_EMPLOYED_INCOME_VARIABILITY")
  {
  }

  lemma {:induction false} CodesAreWords(c: FlagCode)
    ensures IsWord(CodeName(c))
  {
    hide IsWord;
    BlockingCodesAreWords();
    WarningCodesAreWords();
    InformingCodeIsWord();
  }

  lemma {:induction false} CodesDiffer(c: FlagCode)
    ensures IsCode(Str(CodeName(c)), c)
  {
    var v := CodeName(c);
    assert |v| == match c
                  case OverLeveragedRequest => 22
                  case LowExtractionConfidence => 25
                  case DebtStatementInconsistency => 28
                  case UnemployedApplicant => 20
                  case SelfEmployedIncomeVariability => 32;
  }

  // ----- The keys -----

  lemma {:induction false} ReceivedKeys()
    ensures IsPlain("loan_purpose")
    ensures IsPlain("requested_amount")
    ensures IsPlain("employment_status")
  {
    hide NamesPerson;
    PlainKey("loan_purpose");
    PlainKey("requested_amount");
    PlainKey("employment_status");
  }

  lemma {:induction false} ExtractedKeys()
    ensures IsPlain("extraction_confidence")
    ensures IsPlain("monthly_gross_income")
    ensures IsPlain("existing_monthly_debt_payments")
  {
    hide NamesPerson;
    PlainKey("extraction_confidence");
    PlainKey("monthly_gross_income");
    PlainKey("existing_monthly_debt_payments");
  }

  lemma {:induction false} ScoredKeys()
    ensures IsPlain("debt_to_income_ratio")
    ensures IsPlain("risk_tier")
    ensures IsPlain("credit_band")
    ensures IsPlain("credit_score")
  {
    hide NamesPerson;
    PlainKey("debt_to_income_ratio");
    PlainKey("risk_tier");
    PlainKey("credit_band");
    PlainKey("credit_score");
  }

  lemma {:induction false} CheckedKeys()
    ensures IsPlain("passed")
    ensures IsPlain("flag_codes")
  {
    hide NamesPerson;
    PlainKey("passed");
    PlainKey("flag_codes");
  }

  lemma {:induction false} RequestKeys()
    ensures IsPlain("reason")
    ensures IsPlain("risk_summary")
    ensures IsPlain("application_id")
  {
    hide NamesPerson;
    PlainKey("reason");
    PlainKey("risk_summary");
    PlainKey("application_id");
  }

  lemma {:induction false} ResolvedKeys()
    ensures IsPlain("approve")
    ensures IsPlain("notes")
  {
    hide NamesPerson;
    PlainKey("approve");
    PlainKey("notes");
  }

  lemma {:induction false} DecidedKeys()
    ensures IsPlain("outcome")
    ensures IsPlain("decided_by")
  {
    hide NamesPerson;
    PlainKey("outcome");
    PlainKey("decided_by");
  }

  // ----- What each kind of event records -----

  lemma {:induction false} ReceivedSays(w: World, s: State, t: State, actor: Actor, a: Application)
    requires w.Shipped() && t.application == a
    ensures Tells(w, t, Event(w, s, actor, ApplicationReceived, ReceivedDetails(a)))
  {
    hide NamesPerson, PiiRedaction.Redacted, IsWord, Fields, Table.Valid;
    ReceivedKeys();
    PurposeIsWord(a.purpose);
    EmploymentIsWord(a.employment);
    WordIsRecorded(w.u, ReceivedDetails(a), 0);
    DetailIsRecorded(w.u, ReceivedDetails(a), 1);
    WordIsRecorded(w.u, ReceivedDetails(a), 2);
  }

  lemma {:induction false} ExtractedSays(w: World, s: State, t: State, actor: Actor, x: Extracted)
    requires w.Shipped() && t.extracted == Some(x)
    ensures Tells(w, t, Event(w, s, actor, FinancialsExtracted, ExtractedDetails(x)))
  {
    hide NamesPerson, PiiRedaction.Redacted, IsWord, Fields, Table.Valid;
    ExtractedKeys();
    DetailIsRecorded(w.u, ExtractedDetails(x), 0);
    DetailIsRecorded(w.u, ExtractedDetails(x), 1);
    DetailIsRecorded(w.u, ExtractedDetails(x), 2);
  }

  lemma {:induction false} ScoredSays(w: World, s: State, t: State, actor: Actor, risk: Risk)
    requires w.Shipped() && t.risk == Some(risk)
    ensures Tells(w, t, Event(w, s, actor, RiskScored, ScoredDetails(risk)))
  {
    hide NamesPerson, PiiRedaction.Redacted, IsWord, Fields, Table.Valid;
    ScoredKeys();
    GradesAreWords(risk.tier, risk.report.band, Approved);
    var details := ScoredDetails(risk);
    DetailIsRecorded(w.u, details, 0);
    WordIsRecorded(w.u, details, 1);
    WordIsRecorded(w.u, details, 2);
    DetailIsRecorded(w.u, details, 3);
  }

  lemma {:induction false} CheckedSays(w: World, s: State, t: State, actor: Actor, policy: Policy)
    requires w.Shipped() && t.policy == Some(policy)
    ensures Tells(w, t, Event(w, s, actor, PolicyEvaluated, PolicyDetails(policy)))
  {
    hide NamesPerson, PiiRedaction.Redacted, IsWord, Fields, CodeName, IsCode, Table.Valid;
    CheckedKeys();
    forall k | 0 <= k < |policy.flags|
      ensures IsWord(CodeName(policy.flags[k].code))
      ensures IsCode(Str(CodeName(policy.flags[k].code)), policy.flags[k].code)
    {
      CodesAreWords(policy.flags[k].code);
      CodesDiffer(policy.flags[k].code);
    }
    DetailIsRecorded(w.u, PolicyDetails(policy), 0);
    WordsAreRecorded(w.u, PolicyDetails(policy), 1);
  }

  lemma {:induction false} RequestSays(w: World, s: State, t: State, p: Payload)
    requires w.Shipped() && t.request == Some(p) && p.causes != [] && p.applicationId == t.applicationId
    ensures Tells(w, t, Event(w, s, Agent(HumanEscalation), EscalationRequested, RequestDetails(w, p)))
  {
    hide NamesPerson, PiiRedaction.Redacted, IsWord, Fields, Table.Valid;
    RequestKeys();
    DetailIsRecorded(w.u, RequestDetails(w, p), 0);
    DetailIsRecorded(w.u, RequestDetails(w, p), 1);
    DetailIsRecorded(w.u, RequestDetails(w, p), 2);
  }

  lemma {:induction false} ResolvedSays(w: World, s: State, t: State, actor: Actor, r: Resolution)
    requires w.Shipped() && t.resolution == Some(r)
    ensures Tells(w, t, Event(w, s, actor, EscalationResolved, ResolvedDetails(r)))
  {
    hide NamesPerson, PiiRedaction.Redacted, IsWord, Fields, Table.Valid;
    ResolvedKeys();
    DetailIsRecorded(w.u, ResolvedDetails(r), 0);
    DetailIsRecorded(w.u, ResolvedDetails(r), 1);
  }

  lemma {:induction false} AgentIsWord()
    ensures IsWord("explainability_agent")
  {
  }

  lemma {:induction false} RationaleSays(w: World, s: State, t: State, actor: Actor, outcome: Outcome)
    requires w.Shipped() && t.decision.Some? && t.decision.value.outcome == outcome
    ensures Tells(w, t, Event(w, s, actor, RationaleGenerated, RationaleDetails(outcome, DecidedBy(t.resolution))))
  {
    hide NamesPerson, PiiRedaction.Redacted, IsWord, Fields, Table.Valid;
    DecidedKeys();
    GradesAreWords(Low, Poor, outcome);
    AgentIsWord();
    var details := RationaleDetails(outcome, DecidedBy(t.resolution));
    WordIsRecorded(w.u, details, 0);
    if t.resolution.Some? { DetailIsRecorded(w.u, details, 1); } else { WordIsRecorded(w.u, details, 1); }
  }

  lemma {:induction false} FinalSays(w: World, s: State, t: State, actor: Actor, outcome: Outcome)
    requires w.Shipped() && t.decision.Some? && t.decision.value.outcome == outcome
    ensures Tells(w, t, Event(w, s, actor, DecisionFinalized, FinalDetails(outcome)))
  {
    hide NamesPerson, PiiRedaction.Redacted, IsWord, Fields, Table.Valid;
    DecidedKeys();
    GradesAreWords(Low, Poor, outcome);
    WordIsRecorded(w.u, FinalDetails(outcome), 0);
  }

  // ----- Along every run -----

  /** Every event of the trail tells what the state holds. */
  ghost predicate TrailTells(w: World, s: State) {
    forall k | 0 <= k < |s.audit| :: Tells(w, s, s.audit[k])
  }

  /** What an event told stays true when the run goes on. */
  lemma {:induction false} StillTells(w: World, s: State, t: State, e: AuditEvent)
    requires Extends(s, t) && Tells(w, s, e) && t.application == s.application
    requires e.action.RationaleGenerated? ==> t.resolution == s.resolution
    ensures Tells(w, t, e)
  {
    hide Says, PiiRedaction.Redacted, SaysPurpose, SaysEmployment, SaysTier, SaysBand, SaysCodes;
  }

  /** The events a step adds. */
  lemma {:induction false} NewEventsTell(w: World, sv: Services, c: Checkpoint, resume: Option<Resolution>)
    requires w.Shipped() && Sound(w, c)
    ensures var t := Superstep(w, sv, c, resume);
            t.how.Moved? ==>
              && t.c.values.audit == c.values.audit + t.log
              && forall k | 0 <= k < |t.log| :: Tells(w, t.c.values, t.log[k])
  {
    hide Tells, World.Shipped, Event, ReceivedDetails, ExtractedDetails, ScoredDetails, PolicyDetails, ResolvedDetails,
      RationaleDetails, FinalDetails, RequestDetails, GoodTrail, Derived, Validated, ValidExtracted, ValidRisk,
      ValidResolution, Assess, PolicyOf, DetermineOutcome, FactsOf, PayloadOf, RequestEvent;
    var t := Superstep(w, sv, c, resume);
    var s, v := c.values, t.c.values;
    if t.how.Moved? && c.next.Some? {
      match c.next.value
      case Intake => ReceivedSays(w, s, v, Agent(Intake), v.application);
      case DocumentExtraction => ExtractedSays(w, s, v, Agent(DocumentExtraction), v.extracted.value);
      case RiskScoring => ScoredSays(w, s, v, Agent(RiskScoring), v.risk.value);
      case PolicyCompliance => CheckedSays(w, s, v, Agent(PolicyCompliance), v.policy.value);
      case HumanEscalation =>
        var r := v.resolution.value;
        ResolvedSays(w, s, v, HumanReviewer(r.reviewer), r);
        RequestTells(w, c, v);
      case Explainability =>
        var d := v.decision.value;
        RationaleSays(w, s, v, Agent(Explainability), d.outcome);
      case DecisionOutput =>
        var d := v.decision.value;
        FinalSays(w, s, v, Agent(DecisionOutput), d.outcome);
    }
  }

  lemma {:induction false} RequestTells(w: World, c: Checkpoint, t: State)
    requires w.Shipped() && Sound(w, c) && c.next == Some(HumanEscalation)
    requires c.values.risk.Some? && c.values.policy.Some?
    requires t.request == Some(PayloadOf(c.values)) && t.applicationId == c.values.applicationId
    ensures Tells(w, t, RequestEvent(w, c.values))
  {
    hide Tells, World.Shipped, Event, RequestDetails, GoodTrail, BlockCodes, Validated, Assess, PolicyOf;
    RequestSays(w, c.values, t, PayloadOf(c.values));
  }

  lemma {:induction false} ApplicationStays(w: World, sv: Services, c: Checkpoint, resume: Option<Resolution>)
    requires Stage(c.next) > 0
    ensures Superstep(w, sv, c, resume).c.values.application == c.values.application
  {
    hide Validated, ValidExtracted, ValidRisk, ValidResolution, Assess, PolicyOf, DetermineOutcome, FactsOf, Event,
      PayloadOf, RequestEvent;
  }

  lemma {:induction false} ResolutionStays(w: World, sv: Services, c: Checkpoint, resume: Option<Resolution>)
    requires Stage(c.next) != 4
    ensures Superstep(w, sv, c, resume).c.values.resolution == c.values.resolution
  {
    hide Validated, ValidExtracted, ValidRisk, ValidResolution, Assess, PolicyOf, DetermineOutcome, FactsOf, Event,
      PayloadOf, RequestEvent;
  }

  /** Nothing has been explained when a reviewer is asked. */
  lemma {:induction false} NotExplainedYet(w: World, c: Checkpoint, k: nat)
    requires Sound(w, c) && Stage(c.next) == 4 && k < |c.values.audit|
    ensures !c.values.audit[k].action.RationaleGenerated?
  {
    hide Derived;
    assert GoodEvent(c.values, c.values.audit[k], FullTrail(c.values.resolution.Some?)[k]);
  }

  lemma {:induction false} NothingToldYet(w: World, c: Checkpoint)
    requires Sound(w, c) && Stage(c.next) == 0
    ensures c.values.audit == []
  {
    hide Derived, Present;
  }

  lemma {:induction false} StepKeepsTelling(w: World, sv: Services, c: Checkpoint, resume: Option<Resolution>)
    requires w.Shipped() && Sound(w, c) && TrailTells(w, c.values)
    ensures TrailTells(w, Superstep(w, sv, c, resume).c.values)
  {
    hide Sound, Superstep, Tells, Extends, World.Shipped;
    var t := Superstep(w, sv, c, resume);
    MovingAdvances(w, sv, c, resume);
    if t.how.Moved? {
      NewEventsTell(w, sv, c, resume);
      StepExtends(w, sv, c, resume);
      if Stage(c.next) == 0 { NothingToldYet(w, c); } else { ApplicationStays(w, sv, c, resume); }
      var s, v := c.values, t.c.values;
      forall k | 0 <= k < |v.audit| ensures Tells(w, v, v.audit[k]) {
        if k < |s.audit| {
          if Stage(c.next) == 4 { NotExplainedYet(w, c, k); } else { ResolutionStays(w, sv, c, resume); }
          StillTells(w, s, v, s.audit[k]);
        } else {
          assert v.audit[k] == t.log[k - |s.audit|];
        }
      }
    }
  }

  lemma {:induction false} RunsKeepTelling(w: World, c: Checkpoint, inputs: seq<Input>)
    requires w.Shipped() && Sound(w, c) && TrailTells(w, c.values)
    ensures TrailTells(w, RunFrom(w, c, inputs).values)
    decreases |inputs|
  {
    hide Sound, Superstep, TrailTells, World.Shipped;
    if inputs != [] {
      StepKeepsTelling(w, inputs[0].sv, c, inputs[0].resume);
      StepKeepsSound(w, inputs[0].sv, c, inputs[0].resume);
      RunsKeepTelling(w, Superstep(w, inputs[0].sv, c, inputs[0].resume).c, inputs[1..]);
    }
  }

  /**
   At every reachable checkpoint every event of the trail tells what the run holds, with texts redacted.
   */
  lemma {:induction false} TrailIsTrue(w: World, a: Application, correlationId: string, c: Checkpoint)
    requires w.Shipped() && Reachable(w, a, correlationId, c)
    ensures TrailTells(w, c.values)
  {
    hide World.Shipped, Sound;
    var inputs :| c == RunFrom(w, Fresh(a, correlationId), inputs);
    FreshIsSound(w, a, correlationId);
    RunsKeepTelling(w, Fresh(a, correlationId), inputs);
  }
}
