/** The offline document extraction of `MockChatModel` (infrastructure/llm.py). */
module Extraction {
  import opened Wrappers
  import opened CharTable
  import opened Regex
  import opened Rounding

  // ----- str and float operations -----

  function StripLeft(u: Table, s: string): string {
    if s != "" && s[0] in u.spaces then StripLeft(u, s[1..]) else s
  }

  function StripRight(u: Table, s: string): string {
    if s != "" && s[|s| - 1] in u.spaces then StripRight(u, s[..|s| - 1]) else s
  }

  /** `str.strip()`. */
  function Strip(u: Table, s: string): string { StripRight(u, StripLeft(u, s)) }

  /** `s.replace(c, "")`. */
  function Without(c: char, s: string): string {
    if s == "" then "" else (if s[0] == c then "" else [s[0]]) + Without(c, s[1..])
  }

  /** The number whose decimal digits are the digit characters of `s`. */
  function DigitsValue(u: Table, s: string): nat {
    if s == "" then 0
    else DigitsValue(u, s[..|s| - 1]) * 10
         + (if s[|s| - 1] in u.digits then u.digits[s[|s| - 1]] else 0)
  }

  /** The number whose digits after the point are `s`. */
  function FractionValue(u: Table, s: string): real {
    if s == "" then 0.0
    else ((if s[0] in u.digits then u.digits[s[0]] else 0) as real + FractionValue(u, s[1..])) / 10.0
  }

  /** The length of the part of `s` before its first point. */
  function PointAt(s: string): (n: nat)
    ensures n <= |s|
    ensures n < |s| ==> s[n] == '.'
  {
    if s == "" || s[0] == '.' then 0 else 1 + PointAt(s[1..])
  }

  /** `float(s)` for a string of digits with at most one point; None is the ValueError of no digits. */
  function ParseFloat(u: Table, s: string): Option<real> {
    var n := PointAt(s);
    var frac := if n < |s| then s[n + 1..] else "";
    if s[..n] + frac == "" then None
    else Some(DigitsValue(u, s[..n]) as real + FractionValue(u, frac))
  }

  // ----- Labelled fields -----

  /** `{LABEL}\s*:` */
  function LabelColon(u: Table, field: string): Pattern {
    Cat(Word(u, field), Cat(Many(u.spaces, 0), One({':'})))
  }

  /** `{LABEL}\s*:\s*\$?\s*` */
  function MoneyPrefix(u: Table, field: string): Pattern {
    Cat(LabelColon(u, field), Cat(Many(u.spaces, 0), Cat(Maybe(One({'$'})), Many(u.spaces, 0))))
  }

  /** `[\d,]+(?:\.\d+)?` */
  function MoneyBody(u: Table): Pattern {
    Cat(Many(u.digits.Keys + {','}, 1), Maybe(Cat(One({'.'}), Many(u.digits.Keys, 1))))
  }

  /** `{LABEL}\s*:\s*` */
  function TextPrefix(u: Table, field: string): Pattern {
    Cat(LabelColon(u, field), Many(u.spaces, 0))
  }

  const NOT_NEWLINE := set c: char | c != '\n'

  /** `.+` */
  function TextBody(): Pattern { Many(NOT_NEWLINE, 1) }

  /** The first of `starts` from which `b` matches. */
  function FirstStart(u: Table, b: Pattern, s: string, starts: seq<nat>): (r: Option<nat>)
    requires Between(starts, 0, |s|)
    ensures r.Some? ==> r.value <= |s| && MatchEnd(u, b, s, r.value).Some?
  {
    if starts == [] then None
    else if MatchEnd(u, b, s, starts[0]).Some? then Some(starts[0])
    else FirstStart(u, b, s, starts[1..])
  }

  /** `re.search(a(b), s)`: the text of the group `b` in the leftmost match. */
  function SearchGroup(u: Table, a: Pattern, b: Pattern, s: string): Option<string> {
    match Find(u, Cat(a, b), s, 0)
    case None => None
    case Some(i) =>
      match FirstStart(u, b, s, Ends(u, a, s, i))
      case None => None
      case Some(m) => var e := MatchEnd(u, b, s, m).value; Some(s[m..e])
  }

  /** `None`, an amount, or the ValueError of `float("")`. */
  datatype Money = Missing | Amount(v: real) | Malformed

  /** `_parse_money_field` */
  function ParseMoneyField(u: Table, text: string, field: string): Money {
    match SearchGroup(u, MoneyPrefix(u, field), MoneyBody(u), text)
    case None => Missing
    case Some(group) =>
      match ParseFloat(u, Without(',', group))
      case None => Malformed
      case Some(v) => Amount(v)
  }

  /** `_parse_text_field` */
  function ParseTextField(u: Table, text: string, field: string): Option<string> {
    match SearchGroup(u, TextPrefix(u, field), TextBody(), text)
    case None => None
    case Some(group) => Some(Strip(u, group))
  }

  // ----- The extraction -----

  const FREQUENCIES: map<string, real> := map[
    "monthly" := 1.0,
    "semimonthly" := 2.0,
    "semi-monthly" := 2.0,
    "biweekly" := 26.0 / 12.0,
    "bi-weekly" := 26.0 / 12.0,
    "weekly" := 52.0 / 12.0]

  datatype Extracted = Extracted(
    gross: real, net: real, debt: real, employer: Option<string>, frequency: string, confidence: real)

  function Frequency(u: Table, text: string): string {
    match ParseTextField(u, text, "PAY_FREQUENCY")
    case Some(f) => if f == "" then "monthly" else u.Lower(f)
    case None => "monthly"
  }

  function Multiplier(frequency: string): real {
    if frequency in FREQUENCIES then FREQUENCIES[frequency] else 1.0
  }

  /** What an amount per period comes to per month. */
  function PerMonth(amount: real, frequency: string): real {
    if frequency == "semimonthly" || frequency == "semi-monthly" then amount * 2.0
    else if frequency == "biweekly" || frequency == "bi-weekly" then amount * 26.0 / 12.0
    else if frequency == "weekly" then amount * 52.0 / 12.0
    else amount
  }

  /** The table of multipliers agrees. */
  lemma {:induction false} PerMonthIsProduct(amount: real, frequency: string)
    ensures PerMonth(amount, frequency) == amount * Multiplier(frequency)
  {
    var m := Multiplier(frequency);
    if frequency in FREQUENCIES {
      assert frequency in {"monthly", "semimonthly", "semi-monthly", "biweekly", "bi-weekly", "weekly"};
    }
  }

  function OrZero(m: Money): real {
    match m
    case Amount(v) => v
    case _ => 0.0
  }

  function Found(m: Money): nat { if m.Missing? then 0 else 1 }

  function Confidence(found: nat): real {
    var c := RoundTo(0.55 + 0.4 * (found as real / 4.0), 100.0);
    if c <= 0.99 then c else 0.99
  }

  /** The payload, from what was read and the number of fields found. */
  function Collect(gross: Money, net: Money, debt: Money, employer: Option<string>, frequency: string,
                   found: nat): Extracted
  {
    Extracted(
      RoundTo(PerMonth(OrZero(gross), frequency), 100.0),
      RoundTo(PerMonth(OrZero(net), frequency), 100.0),
      OrZero(debt),
      employer,
      frequency,
      Confidence(found))
  }

  /** The payload of `_mock_document_extraction`; None when a money field makes `float` raise. */
  function Extract(u: Table, text: string): Option<Extracted> {
    var f := Frequency(u, text);
    var gross := ParseMoneyField(u, text, "GROSS_PAY_PER_PERIOD");
    var net := ParseMoneyField(u, text, "NET_PAY_PER_PERIOD");
    var debt := ParseMoneyField(u, text, "EXISTING_MONTHLY_DEBT");
    if gross.Malformed? || net.Malformed? || debt.Malformed? then None
    else
      var found := (if f in FREQUENCIES then 1 else 0) + Found(gross) + Found(net) + Found(debt);
      Some(Collect(gross, net, debt, ParseTextField(u, text, "EMPLOYER"), f, found))
  }

  /** `_mock_document_extraction`, with the source's table lookup and counter. */
  method MockDocumentExtraction(u: Table, text: string) returns (payload: Option<Extracted>)
    ensures payload == Extract(u, text)
  {
    hide ParseMoneyField, ParseTextField, Frequency, PerMonth, RoundTo, Confidence;
    var fieldsFound := 0;
    var frequencyRaw := Frequency(u, text);
    var multiplier := 1.0;
    if frequencyRaw in FREQUENCIES {
      multiplier := FREQUENCIES[frequencyRaw];
      fieldsFound := fieldsFound + 1;
    }
    var gross := ParseMoneyField(u, text, "GROSS_PAY_PER_PERIOD");
    var net := ParseMoneyField(u, text, "NET_PAY_PER_PERIOD");
    var debt := ParseMoneyField(u, text, "EXISTING_MONTHLY_DEBT");
    if gross.Malformed? || net.Malformed? || debt.Malformed? {
      return None;
    }
    var values := [gross, net, debt];
    for n := 0 to |values|
      invariant fieldsFound + CountFound(values[n..]) == (if frequencyRaw in FREQUENCIES then 1 else 0)
                                                         + CountFound(values)
    {
      assert values[n..][1..] == values[n + 1..];
      if !values[n].Missing? {
        fieldsFound := fieldsFound + 1;
      }
    }
    assert values[|values|..] == [];
    CountOfThree(gross, net, debt);
    var monthlyGross, monthlyNet := OrZero(gross) * multiplier, OrZero(net) * multiplier;
    assert monthlyGross == PerMonth(OrZero(gross), frequencyRaw) by { PerMonthIsProduct(OrZero(gross), frequencyRaw); }
    assert monthlyNet == PerMonth(OrZero(net), frequencyRaw) by { PerMonthIsProduct(OrZero(net), frequencyRaw); }
    payload := Some(Extracted(
      RoundTo(monthlyGross, 100.0),
      RoundTo(monthlyNet, 100.0),
      OrZero(debt),
      ParseTextField(u, text, "EMPLOYER"),
      frequencyRaw,
      Confidence(fieldsFound)));
  }

  function CountFound(values: seq<Money>): nat {
    if values == [] then 0 else Found(values[0]) + CountFound(values[1..])
  }

  lemma {:induction false} CountOfThree(a: Money, b: Money, c: Money)
    ensures CountFound([a, b, c]) == Found(a) + Found(b) + Found(c) && CountFound([]) == 0
  {
    assert [a, b, c][1..] == [b, c] && [b, c][1..] == [c];
    assert CountFound([c]) == Found(c);
    assert CountFound([b, c]) == Found(b) + CountFound([c]);
  }

  // ----- What every extraction guarantees -----

  lemma {:induction false} ConfidenceLevels(found: nat)
    requires found <= 4
    ensures Confidence(found) == 0.55 + 0.1 * found as real
  {
    var c := 0.55 + 0.4 * (found as real / 4.0);
    assert c * 100.0 == (55 + 10 * found) as real;
    RoundingKeepsGrid(c, 100.0);
    assert found == 0 || found == 1 || found == 2 || found == 3 || found == 4;
  }

  /**
   Every payload passes the validators of `ExtractedFinancials`, and its confidence is one of
   five values, all at least 0.55.
   */
  lemma {:induction false} ExtractionIsInRange(u: Table, text: string)
    requires Extract(u, text).Some?
    ensures var x := Extract(u, text).value;
            && x.gross >= 0.0 && x.net >= 0.0 && x.debt >= 0.0
            && x.confidence in {0.55, 0.65, 0.75, 0.85, 0.95}
  {
    hide ParseMoneyField, ParseTextField, Frequency, Confidence, RoundTo;
    var gross := ParseMoneyField(u, text, "GROSS_PAY_PER_PERIOD");
    var net := ParseMoneyField(u, text, "NET_PAY_PER_PERIOD");
    var debt := ParseMoneyField(u, text, "EXISTING_MONTHLY_DEBT");
    var f := Frequency(u, text);
    MoneyIsNonnegative(u, text, "GROSS_PAY_PER_PERIOD");
    MoneyIsNonnegative(u, text, "NET_PAY_PER_PERIOD");
    MoneyIsNonnegative(u, text, "EXISTING_MONTHLY_DEBT");
    RoundedMonthIsNonnegative(OrZero(gross), f);
    RoundedMonthIsNonnegative(OrZero(net), f);
    var found := (if f in FREQUENCIES then 1 else 0) + Found(gross) + Found(net) + Found(debt);
    ConfidenceLevels(found);
    assert found == 0 || found == 1 || found == 2 || found == 3 || found == 4;
  }

  lemma {:induction false} MoneyIsNonnegative(u: Table, text: string, field: string)
    ensures OrZero(ParseMoneyField(u, text, field)) >= 0.0
  {
    hide SearchGroup, DigitsValue, FractionValue;
    forall s { FractionIsNonnegative(u, s); }
  }

  lemma {:induction false} FractionIsNonnegative(u: Table, s: string)
    ensures FractionValue(u, s) >= 0.0
  {
    if s != "" { FractionIsNonnegative(u, s[1..]); }
  }

  lemma {:induction false} RoundedMonthIsNonnegative(x: real, f: string)
    requires x >= 0.0
    ensures RoundTo(PerMonth(x, f), 100.0) >= 0.0
  {
    RoundingIsMonotone(0.0, PerMonth(x, f), 100.0);
    RoundingKeepsGrid(0.0, 100.0);
  }

  lemma {:induction false} WithoutMembers(c: char, s: string)
    ensures forall d :: d in Without(c, s) <==> d in s && d != c
  {
    if s != "" { WithoutMembers(c, s[1..]); }
  }

  /** Reading a matched amount fails exactly when it consists of commas only. */
  lemma {:induction false} FloatNeedsADigit(u: Table, s: string)
    requires u.Valid() && Matches(u, MoneyBody(u), s, 0, |s|)
    ensures ParseFloat(u, Without(',', s)).None? <==> forall c | c in s :: c == ','
  {
    WithoutMembers(',', s);
    var t := Without(',', s);
    if ParseFloat(u, t).None? {
      var n := PointAt(t);
      assert t == t[..n] + t[n..];
      assert |t| <= 1 && (t != "" ==> t == ".");
      PointHasFollower(u, s);
      assert forall c | c in s :: c in t || c == ',';
    } else {
      assert t != "";
      assert t[0] in t;
    }
  }

  lemma {:induction false} PointHasFollower(u: Table, s: string)
    requires u.Valid() && Matches(u, MoneyBody(u), s, 0, |s|)
    ensures Without(',', s) != "."
  {
    var a, b := Many(u.digits.Keys + {','}, 1), Maybe(Cat(One({'.'}), Many(u.digits.Keys, 1)));
    var m := Split(u, a, b, s, 0, |s|);
    WithoutMembers(',', s);
    assert "."[0] in ".";
    assert '.' !in u.digits.Keys && ',' !in u.digits.Keys by { assert IsAscii('.') && IsAscii(','); }
    if m < |s| {
      var k := Split(u, One({'.'}), Many(u.digits.Keys, 1), s, m, |s|);
      assert s[k] in u.digits.Keys;
      assert s[k] in Without(',', s);
    } else {
      assert forall i | 0 <= i < |s| :: s[i] != '.';
    }
  }

  // ----- When a money field is missing and when it fails -----

  lemma {:induction false} FirstStartFinds(u: Table, b: Pattern, s: string, starts: seq<nat>, m: nat)
    requires Between(starts, 0, |s|) && m in starts && MatchEnd(u, b, s, m).Some?
    ensures FirstStart(u, b, s, starts).Some?
  {
    hide MatchEnd;
    if MatchEnd(u, b, s, starts[0]).None? { FirstStartFinds(u, b, s, starts[1..], m); }
  }

  /** A search finds a group exactly when the whole pattern matches somewhere; the group is a match of its part. */
  lemma {:induction false} GroupIsMatch(u: Table, a: Pattern, b: Pattern, s: string)
    requires !UsesBound(b) && !UsesLineStart(b)
    ensures var g := SearchGroup(u, a, b, s);
            && (g.None? <==> Clean(u, Cat(a, b), s))
            && (g.Some? ==> Matches(u, b, g.value, 0, |g.value|))
  {
    hide MatchEnd, Matches, Ends, Clean;
    FindIffNotClean(u, Cat(a, b), s);
    var r := Find(u, Cat(a, b), s, 0);
    if r.Some? {
      var i := r.value;
      MatchEndIsMatch(u, Cat(a, b), s, i);
      var j :| Matches(u, Cat(a, b), s, i, j);
      var k := Split(u, a, b, s, i, j);
      EndsAreMatches(u, a, s, i, k);
      MatchEndFinds(u, b, s, k, j);
      FirstStartFinds(u, b, s, Ends(u, a, s, i), k);
      var m: int := FirstStart(u, b, s, Ends(u, a, s, i)).value;
      MatchEndIsMatch(u, b, s, m);
      var e := MatchEnd(u, b, s, m).value;
      Transfer(u, b, s, m, e, s[m..e], -m);
    }
  }

  lemma {:induction false} MoneyBodyIsContextFree(u: Table)
    ensures !UsesBound(MoneyBody(u)) && !UsesLineStart(MoneyBody(u))
  {
    var point, digits := One({'.'}), Many(u.digits.Keys, 1);
    assert !UsesBound(point) && !UsesLineStart(point) && !UsesBound(digits) && !UsesLineStart(digits);
    assert !UsesBound(Cat(point, digits)) && !UsesLineStart(Cat(point, digits));
    assert !UsesBound(Maybe(Cat(point, digits))) && !UsesLineStart(Maybe(Cat(point, digits)));
  }

  /**
   A labelled amount is missing exactly when the label pattern matches nowhere, and reading it
   raises exactly when the amount found is made of commas only.
   */
  lemma {:induction false} MoneyFieldFailsIff(u: Table, text: string, field: string)
    requires u.Valid()
    ensures var g := SearchGroup(u, MoneyPrefix(u, field), MoneyBody(u), text);
            var money := ParseMoneyField(u, text, field);
            && (money.Missing? <==> Clean(u, Cat(MoneyPrefix(u, field), MoneyBody(u)), text))
            && (money.Malformed? <==> g.Some? && forall c | c in g.value :: c == ',')
  {
    hide SearchGroup, ParseFloat, Without, Matches, Clean;
    MoneyBodyIsContextFree(u);
    GroupIsMatch(u, MoneyPrefix(u, field), MoneyBody(u), text);
    var g := SearchGroup(u, MoneyPrefix(u, field), MoneyBody(u), text);
    if g.Some? { FloatNeedsADigit(u, g.value); }
  }

  // ----- What an extraction says -----

  /** How often one is paid in a year, by the name of the frequency. */
  function PayPeriods(frequency: string): Option<nat> {
    if frequency == "monthly" then Some(12)
    else if frequency == "semimonthly" || frequency == "semi-monthly" then Some(24)
    else if frequency == "biweekly" || frequency == "bi-weekly" then Some(26)
    else if frequency == "weekly" then Some(52)
    else None
  }

  /** The pay of a year in twelfths; an unknown frequency counts as monthly. */
  function Twelfth(amount: real, frequency: string): real {
    var n := if PayPeriods(frequency).Some? then PayPeriods(frequency).value else 12;
    n as real * amount / 12.0
  }

  /** The same, to the cent. */
  function TwelfthOfYear(amount: real, frequency: string): real { RoundTo(Twelfth(amount, frequency), 100.0) }

  lemma {:induction false} PerMonthIsTwelfth(amount: real, frequency: string)
    ensures PerMonth(amount, frequency) == Twelfth(amount, frequency)
  {
  }

  lemma {:induction false} KnownFrequencies(frequency: string)
    ensures frequency in FREQUENCIES <==> PayPeriods(frequency).Some?
  {
    if frequency in FREQUENCIES {
      assert frequency in {"monthly", "semimonthly", "semi-monthly", "biweekly", "bi-weekly", "weekly"};
    }
  }

  lemma {:induction false} MultipliersArePeriods(amount: real, frequency: string)
    ensures frequency in FREQUENCIES <==> PayPeriods(frequency).Some?
    ensures RoundTo(PerMonth(amount, frequency), 100.0) == TwelfthOfYear(amount, frequency)
  {
    hide RoundTo, PayPeriods, PerMonth, FREQUENCIES, Twelfth;
    PerMonthIsTwelfth(amount, frequency);
    KnownFrequencies(frequency);
  }

  /** Pays and debt as read, a year's pay in twelfths, and one tenth of confidence for each of the four fields. */
  predicate Extracts(x: Extracted, gross: Money, net: Money, debt: Money) {
    var found := (if PayPeriods(x.frequency).Some? then 1 else 0) + (if gross.Missing? then 0 else 1)
                 + (if net.Missing? then 0 else 1) + (if debt.Missing? then 0 else 1);
    && x.gross == TwelfthOfYear(if gross.Amount? then gross.v else 0.0, x.frequency)
    && x.net == TwelfthOfYear(if net.Amount? then net.v else 0.0, x.frequency)
    && x.debt == (if debt.Amount? then debt.v else 0.0)
    && x.confidence == 0.55 + 0.1 * found as real
  }

  /**
   What the extraction of any document says, in terms of its labelled fields: the monthly pays for the number of
   pay periods in a year, the debt, the employer, the frequency in lower case, and the confidence.
   */
  lemma {:induction false} ExtractionMeans(u: Table, text: string)
    requires Extract(u, text).Some?
    ensures var x, frequency := Extract(u, text).value, ParseTextField(u, text, "PAY_FREQUENCY");
            && Extracts(x, ParseMoneyField(u, text, "GROSS_PAY_PER_PERIOD"),
                        ParseMoneyField(u, text, "NET_PAY_PER_PERIOD"),
                        ParseMoneyField(u, text, "EXISTING_MONTHLY_DEBT"))
            && x.employer == ParseTextField(u, text, "EMPLOYER")
            && x.frequency == (if frequency.None? || frequency.value == "" then "monthly" else u.Lower(frequency.value))
  {
    hide ParseMoneyField, ParseTextField, TwelfthOfYear, RoundTo, PerMonth, Confidence, FREQUENCIES, PayPeriods;
    var f := Frequency(u, text);
    var gross := ParseMoneyField(u, text, "GROSS_PAY_PER_PERIOD");
    var net := ParseMoneyField(u, text, "NET_PAY_PER_PERIOD");
    var debt := ParseMoneyField(u, text, "EXISTING_MONTHLY_DEBT");
    MultipliersArePeriods(OrZero(gross), f);
    MultipliersArePeriods(OrZero(net), f);
    ConfidenceLevels((if f in FREQUENCIES then 1 else 0) + Found(gross) + Found(net) + Found(debt));
  }
}
