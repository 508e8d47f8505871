/**
 Runs of the shipped offline configuration: the mock chat model and the mock bureau, with breakers that admit
 every call. `SharedBreakers` says when they do.
 */
module OfflineRuns {
  import opened Wrappers
  import opened CharTable
  import opened Regex
  import opened Rounding
  import opened Domain
  import opened Extraction
  import opened Underwriting
  import opened PayStub
  import opened RoundTrip
  import opened Workflow
  import opened WorkflowRuns
  import opened PauseResume
  import opened Adjudication
  import PromptGuard

  /** The mock services, called directly; `digest` stands for SHA-256 and `render` for the wording of a rationale. */
  function Offline(u: Table, digest: string -> nat, render: Facts -> string): Services {
    Services(
      text => Extract(u, text),
      name => Some(CreditReport(u, digest, name)),
      facts => Some(render(facts)))
  }

  /** Extraction does not raise on the text. */
  predicate Parses(u: Table, text: string) { Extract(u, text).Some? }

  /** The text has this labelled amount, and it is made of commas only. */
  predicate OnlyCommas(u: Table, text: string, field: string) {
    var group := SearchGroup(u, MoneyPrefix(u, field), MoneyBody(u), text);
    group.Some? && forall c | c in group.value :: c == ','
  }

  /** Extraction raises exactly when the text has a labelled amount of commas only. */
  lemma {:induction false} ParsesIff(u: Table, text: string)
    requires u.Valid()
    ensures Parses(u, text) <==>
            && !OnlyCommas(u, text, "GROSS_PAY_PER_PERIOD")
            && !OnlyCommas(u, text, "NET_PAY_PER_PERIOD")
            && !OnlyCommas(u, text, "EXISTING_MONTHLY_DEBT")
  {
    hide SearchGroup, ParseMoneyField, Clean, Frequency, ParseTextField, Collect;
    MoneyFieldFailsIff(u, text, "GROSS_PAY_PER_PERIOD");
    MoneyFieldFailsIff(u, text, "NET_PAY_PER_PERIOD");
    MoneyFieldFailsIff(u, text, "EXISTING_MONTHLY_DEBT");
  }

  /** Renderings are never empty, as all of them start with a fixed sentence. */
  ghost predicate Renders(render: Facts -> string) {
    forall facts :: render(facts) != ""
  }

  /**
   With breakers that admit its calls, an offline run reaches the end or the pause if and only if its application
   is valid and its document parses.
   */
  lemma {:induction false} OfflineRunsThroughIff(w: World, digest: string -> nat, render: Facts -> string,
                              a: Application, correlationId: string, resume: Option<Resolution>)
    requires Renders(render) && (resume.Some? ==> ValidResolution(resume.value))
    ensures !Invoke(w, Offline(w.u, digest, render), Fresh(a, correlationId), resume).how.Raised?
            <==> Validated(w.u, a).Some? && Parses(w.u, w.sanitize(a.document))
  {
    hide Invoke, Validated, CreditReport, Extract;
    var sv := Offline(w.u, digest, render);
    RunsThroughIff(w, sv, a, correlationId, resume);
    ValidationKeepsDocument(w.u, a);
    if Validated(w.u, a).Some? && Parses(w.u, w.sanitize(a.document)) {
      var v := Validated(w.u, a).value;
      ExtractionIsInRange(w.u, w.sanitize(v.document));
      ReportIsValid(w.u, digest, v.name);
    }
  }

  lemma {:induction false} ValidationKeepsDocument(u: Table, a: Application)
    ensures Validated(u, a).Some? ==>
              && Validated(u, a).value == a.(name := Strip(u, a.name))
              && a.requested > 0.0 && a.annualIncome >= 0.0
  {
    hide Strip;
  }

  /**
   Offline, a run that is left alone pauses exactly for a BORDERLINE tier or a request over five
   times the stated income: the confidence is never below the threshold, so the flag for it is never
   raised.
   */
  lemma {:induction false} OfflinePauses(
      w: World, digest: string -> nat, render: Facts -> string, a: Application, correlationId: string)
    requires !Invoke(w, Offline(w.u, digest, render), Fresh(a, correlationId), None).how.Raised?
    ensures var t := Invoke(w, Offline(w.u, digest, render), Fresh(a, correlationId), None);
            var s := t.c.values;
            && s.extracted.Some? && s.risk.Some? && s.policy.Some?
            && s.extracted.value.confidence in {0.55, 0.65, 0.75, 0.85, 0.95}
            && (forall k | 0 <= k < |s.policy.value.flags| ::
                  !s.policy.value.flags[k].code.LowExtractionConfidence?)
            && (t.how.Paused? <==> s.risk.value.tier.Borderline? || a.requested > 5.0 * a.annualIncome)
  {
    hide Invoke, Superstep, GoodTrail, Validated, Extract, CreditReport, OverLeveraged,
      DebtsDisagree, Blocked, DebtToIncome, ClassifyRiskTier, DetermineOutcome;
    var sv := Offline(w.u, digest, render);
    var c := Fresh(a, correlationId);
    var t := Invoke(w, sv, c, None);
    FreshIsSound(w, a, correlationId);
    InvokeKeepsSound(w, sv, c, None);
    InvokeLogs(w, sv, c, None);
    InvokeFromInputs(w, sv, a, c, None);
    var s := t.c.values;
    ValidationKeepsDocument(w.u, a);
    ExtractionIsInRange(w.u, w.sanitize(s.application.document));
    PassedIff(s.application, s.extracted.value);
  }

  // ----- From the printed stub to the debt-to-income ratio -----

  lemma {:induction false} Associates(a: real, b: real, c: real)
    ensures a * b * c == b * (a * c)
  {
  }

  lemma {:induction false} Distributes(a: real, b: real, c: real)
    ensures (a - b) * c == a * c - b * c
  {
  }

  lemma {:induction false} CancelsFactor(a: real, b: real, z: real)
    requires z > 0.0 && a * z == b * z
    ensures a == b
  {
    DivUndoes(a, a * z, z);
    DivUndoes(b, b * z, z);
  }

  /** If `p * z == q * y`, then `p` exceeds `q` by `q` times the relative difference of `y` and `z`. */
  lemma {:induction false} RelativeShift(p: real, q: real, d: real, y: real, z: real)
    requires z > 0.0 && p * z == q * y && d * z == y - z
    ensures p - q == d * q
  {
    Distributes(p, q, z);
    Associates(d, q, z);
    Distributes(y, z, q);
    assert q * (d * z) == q * y - q * z;
    CancelsFactor(p - q, d * q, z);
  }

  lemma {:induction false} QuotientOf(a: real, s: real)
    requires s > 0.0
    ensures a / s * s == a
    ensures (-a) / s == -(a / s)
    ensures a >= 0.0 ==> a / s >= 0.0
  {
    DivCancels(a, s);
    DivUndoes(-(a / s), -a, s);
  }

  /** `x / y` changes by at most the part `e / z` when `y` becomes `z`, `e` apart. */
  lemma {:induction false} QuotientShift(x: real, y: real, z: real, e: real)
    requires x >= 0.0 && y > 0.0 && z > 0.0 && -e <= y - z <= e
    ensures -(e / z) * (x / y) <= x / z - x / y <= (e / z) * (x / y)
  {
    QuotientOf(x, y);
    QuotientOf(x, z);
    QuotientOf(y - z, z);
    QuotientOf(e, z);
    DivMonotone(y - z, e, z);
    DivMonotone(-e, y - z, z);
    RelativeShift(x / z, x / y, (y - z) / z, y, z);
    MulMonotone((y - z) / z, e / z, x / y);
    MulMonotone(-(e / z), (y - z) / z, x / y);
  }

  /** `dti` is near `debt / monthly`, where `monthly` was known as `income` to the cent. */
  predicate Near(dti: real, debt: real, monthly: real, income: real)
    requires monthly > 0.0 && income > 0.0
  {
    var ratio := debt / monthly;
    var slack := 0.00005 + 0.005 / income * ratio;
    ratio - slack <= dti <= ratio + slack
  }

  /** The error of rounding the income to cents and then the ratio to four places. */
  lemma {:induction false} RoundedTwice(monthly: real, income: real, debt: real)
    requires monthly >= 0.01 && income == RoundTo(monthly, 100.0) && debt >= 0.0
    ensures income >= 0.01 && Near(DebtToIncome(income, debt), debt, monthly, income)
  {
    hide RoundTo, DebtToIncome;
    assert OnGrid(0.01, 100.0);
    RoundingRespectsGrid(monthly, 0.01, 100.0);
    RoundingError(monthly, 100.0);
    DtiError(income, debt);
    QuotientShift(debt, monthly, income, 0.005);
  }

  /** The exact monthly pay of a stub: the pay of a year in twelfths. */
  function MonthlyPay(gross: nat, f: string): real { Twelfth(gross as real / 100.0, f) }

  lemma {:induction false} PayIsPositive(gross: nat, f: string)
    requires PayPeriods(f).Some? && gross > 0
    ensures MonthlyPay(gross, f) >= 0.01
    ensures TwelfthOfYear(gross as real / 100.0, f) == RoundTo(MonthlyPay(gross, f), 100.0)
  {
    hide RoundTo;
    var n, pay := PayPeriods(f).value as real, gross as real / 100.0;
    assert n >= 12.0;
    MulMonotone(12.0, n, pay);
  }

  lemma {:induction false} ScoredAsExtracted(w: World, sv: Services, a: Application, correlationId: string)
    requires !Invoke(w, sv, Fresh(a, correlationId), None).how.Raised?
    ensures var s := Invoke(w, sv, Fresh(a, correlationId), None).c.values;
            && s.risk.Some?
            && s.extracted == sv.extract(w.sanitize(a.document))
            && s.extracted.Some?
            && s.risk.value.dti == DebtToIncome(MonthlyIncome(s.application, s.extracted.value), s.extracted.value.debt)
  {
    hide Invoke, Superstep, GoodTrail, Validated, DebtToIncome, ClassifyRiskTier,
      DetermineOutcome, PolicyOf;
    var c := Fresh(a, correlationId);
    FreshIsSound(w, a, correlationId);
    InvokeKeepsSound(w, sv, c, None);
    InvokeLogs(w, sv, c, None);
    InvokeFromInputs(w, sv, a, c, None);
    ValidationKeepsDocument(w.u, a);
  }

  /**
   From the printer to the score: for a printed stub with a positive gross pay, the ratio that is
   scored is off from the true one (debt over exact monthly gross) by at most half of 0.0001 and
   half a cent relative to the monthly income.
   */
  lemma {:induction false} PrintedStubIsScored(
      w: World, digest: string -> nat, render: Facts -> string, a: Application, correlationId: string,
      e: string, f: string, gross: nat, net: nat, debt: nat)
    requires w.Shipped() && PayPeriods(f).Some? && IsEmployer(w.u, e) && LabelFree(w.u, e) && InjectionFree(w.u, e)
    requires a.document == BuildPayStubText(e, f, gross, net, debt) && gross > 0
    requires !Invoke(w, Offline(w.u, digest, render), Fresh(a, correlationId), None).how.Raised?
    ensures var s := Invoke(w, Offline(w.u, digest, render), Fresh(a, correlationId), None).c.values;
            && s.risk.Some? && s.extracted.Some?
            && s.extracted.value.employer == Some(e)
            && s.extracted.value.gross >= 0.01 && MonthlyPay(gross, f) >= 0.01
            && Near(s.risk.value.dti, debt as real / 100.0, MonthlyPay(gross, f), s.extracted.value.gross)
  {
    hide Invoke, PromptGuard.Sanitized, Extract, CreditReport, BuildPayStubText, DebtToIncome, LabelFree,
      InjectionFree, RoundTo, IsEmployer, Near, MonthlyPay, TwelfthOfYear;
    ScoredAsExtracted(w, Offline(w.u, digest, render), a, correlationId);
    PrintSanitizeExtract(w.u, e, f, gross, net, debt);
    PayIsPositive(gross, f);
    RoundedTwice(MonthlyPay(gross, f), RoundTo(MonthlyPay(gross, f), 100.0), debt as real / 100.0);
  }
}
