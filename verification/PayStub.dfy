/** `build_pay_stub_text` (scripts/demo.py): the printer that the extraction undoes. */
module PayStub {
  import opened Wrappers
  import opened CharTable
  import opened Regex
  import opened Extraction

  function Digit(d: nat): char
    requires d < 10
  {
    ('0' as int + d) as char
  }

  function Decimal(n: nat): (s: string)
    ensures s != ""
    ensures forall c | c in s :: IsAsciiDigit(c)
  {
    if n < 10 then [Digit(n)] else Decimal(n / 10) + [Digit(n % 10)]
  }

  /** `f"{cents / 100:.2f}"` */
  function Cents(cents: nat): string {
    Decimal(cents / 100) + "." + [Digit(cents / 10 % 10), Digit(cents % 10)]
  }

  const HEADER := "NORTHBRIDGE FINANCIAL " + "GROUP - SYNTHETIC " + "PAY STATEMENT " + "(DEMO DATA ONLY)\n"

  /** Everything up to the employer. */
  const OPENING := HEADER + "EMPLOYER: "

  // What ends one line and starts the next, in pieces short enough to compute with.
  const PAY_LINE := "\nPAY_FREQUENCY: "
  const GROSS_LINE := "\nGROSS_PAY_" + "PER_PERIOD: $"
  const NET_LINE := "\nNET_PAY_" + "PER_PERIOD: $"
  const DEBT_LINE := "\nEXISTING_" + "MONTHLY_DEBT: $"

  /** Everything after the employer. */
  function Closing(frequency: string, gross: nat, net: nat, debt: nat): string {
    PAY_LINE + frequency
    + GROSS_LINE + Cents(gross)
    + NET_LINE + Cents(net)
    + DEBT_LINE + Cents(debt) + "\n"
  }

  /** `build_pay_stub_text`, with the amounts in cents. */
  function BuildPayStubText(employer: string, frequency: string, gross: nat, net: nat, debt: nat): string {
    OPENING + employer + Closing(frequency, gross, net, debt)
  }

  // ----- Reading back a printed amount -----

  lemma {:induction false} DigitReads(u: Table, d: nat)
    requires u.Valid() && d < 10
    ensures Digit(d) in u.digits && u.digits[Digit(d)] == d
  {
    assert IsAsciiDigit(Digit(d));
  }

  lemma {:induction false} DecimalReads(u: Table, n: nat)
    requires u.Valid()
    ensures DigitsValue(u, Decimal(n)) == n
  {
    DigitReads(u, n % 10);
    if n >= 10 {
      DecimalReads(u, n / 10);
      assert Decimal(n)[..|Decimal(n)| - 1] == Decimal(n / 10);
    } else {
      assert DigitsValue(u, "") == 0;
      assert Decimal(n)[..0] == "";
    }
  }

  lemma {:induction false} PointAfterDigits(a: string, b: string)
    requires '.' !in a && b != "" && b[0] == '.'
    ensures PointAt(a + b) == |a|
  {
    if a == "" {
      assert a + b == b;
    } else {
      assert (a + b)[1..] == a[1..] + b;
      PointAfterDigits(a[1..], b);
    }
  }

  lemma {:induction false} WithoutAbsent(c: char, s: string)
    requires c !in s
    ensures Without(c, s) == s
  {
    if s != "" { WithoutAbsent(c, s[1..]); }
  }

  /** Printing an amount of cents and reading it as `float(...)` gives the amount. */
  lemma {:induction false} CentsRead(u: Table, cents: nat)
    requires u.Valid()
    ensures ParseFloat(u, Without(',', Cents(cents))) == Some(cents as real / 100.0)
  {
    hide DigitsValue, FractionValue, Decimal, Without, PointAt;
    var whole, frac := Decimal(cents / 100), [Digit(cents / 10 % 10), Digit(cents % 10)];
    var s := Cents(cents);
    assert s == whole + ("." + frac);
    WithoutAbsent(',', s);
    PointAfterDigits(whole, "." + frac);
    assert s[..|whole|] == whole && s[|whole| + 1..] == frac;
    DecimalReads(u, cents / 100);
    TwoDigitsRead(u, cents / 10 % 10, cents % 10);
    CentsArithmetic(cents);
  }

  lemma {:induction false} CentsArithmetic(cents: nat)
    ensures (cents / 100) as real + (cents / 10 % 10 * 10 + cents % 10) as real / 100.0 == cents as real / 100.0
  {
    var whole, rest := cents / 100, cents / 10 % 10 * 10 + cents % 10;
    assert cents == cents / 10 * 10 + cents % 10;
    assert cents / 10 == cents / 10 / 10 * 10 + cents / 10 % 10;
    assert cents / 10 / 10 == whole;
    assert cents == whole * 100 + rest;
    assert cents as real == whole as real * 100.0 + rest as real;
  }

  lemma {:induction false} TwoDigitsRead(u: Table, a: nat, b: nat)
    requires u.Valid() && a < 10 && b < 10
    ensures FractionValue(u, [Digit(a), Digit(b)]) == (a * 10 + b) as real / 100.0
  {
    DigitReads(u, a);
    DigitReads(u, b);
    var s := [Digit(a), Digit(b)];
    assert s[1..] == [Digit(b)] && [Digit(b)][1..] == "";
    assert FractionValue(u, "") == 0.0;
    assert FractionValue(u, [Digit(b)]) == b as real / 10.0;
  }

  // ----- Where a group is found -----

  lemma {:induction false} ManyMatchEnd(u: Table, cs: set<char>, least: nat, s: string, i: nat, n: nat)
    requires i + n <= |s| && n >= least
    requires forall k | i <= k < i + n :: s[k] in cs
    requires i + n < |s| ==> s[i + n] !in cs
    ensures MatchEnd(u, Many(cs, least), s, i) == Some(i + n)
  {
    var r := RunLength(cs, s, i);
    assert r == n;
  }

  lemma {:induction false} WordMatchEnd(u: Table, w: string, s: string, i: nat)
    requires i <= |s| && Matches(u, Word(u, w), s, i, i + |w|)
    ensures MatchEnd(u, Word(u, w), s, i) == Some(i + |w|)
  {
    MatchEndFinds(u, Word(u, w), s, i, i + |w|);
    WordMatches(u, w, s, i, MatchEnd(u, Word(u, w), s, i).value);
  }

  lemma {:induction false} FirstChoice(u: Table, a: Pattern, b: Pattern, s: string, i: nat, m: nat)
    requires i <= m <= |s| && MatchEnd(u, a, s, i) == Some(m) && MatchEnd(u, b, s, m).Some?
    ensures FirstStart(u, b, s, Ends(u, a, s, i)) == Some(m)
  {
    hide Ends, Matches;
  }

  /** The group of a search whose leftmost match starts at `i`, when both parts go for their first choice. */
  lemma {:induction false} GroupAt(u: Table, a: Pattern, b: Pattern, s: string, i: nat, m: nat, e: nat)
    requires i <= m <= e <= |s|
    requires forall k, j | 0 <= k < i :: !Matches(u, Cat(a, b), s, k, j)
    requires MatchEnd(u, a, s, i) == Some(m) && MatchEnd(u, b, s, m) == Some(e)
    ensures SearchGroup(u, a, b, s) == Some(s[m..e])
  {
    hide MatchEnd, Matches, Ends, Find, FirstStart;
    FirstChoice(u, a, b, s, i, m);
    CatMatchEnd(u, a, b, s, i);
    var r := Find(u, Cat(a, b), s, 0);
    if r.Some? && r.value < i {
      MatchEndIsMatch(u, Cat(a, b), s, r.value);
    }
    assert r == Some(i);
  }

  // ----- Reading a labelled line -----

  /** A line `{name}: {value}` in its place: `t == before + name + ": " + value + after`. */
  predicate LineAt(t: string, at: nat, name: string, value: string) {
    && at + |name| + 2 + |value| < |t|
    && t[at..at + |name|] == name
    && t[at + |name|] == ':'
    && t[at + |name| + 1] == ' '
    && t[at + |name| + 2..at + |name| + 2 + |value|] == value
    && t[at + |name| + 2 + |value|] == '\n'
  }

  /** No labelled field of this name starts before `at`. */
  ghost predicate NoneBefore(u: Table, t: string, at: nat, name: string) {
    forall i, j | i < at :: !Matches(u, LabelColon(u, name), t, i, j)
  }

  predicate IsLabel(name: string) {
    name != "" && forall k | 0 <= k < |name| :: IsAsciiLetter(name[k]) || name[k] == '_'
  }

  lemma {:induction false} AsciiFacts(u: Table)
    requires u.Valid()
    ensures ' ' in u.spaces && '\n' in u.spaces
    ensures ':' !in u.spaces && '$' !in u.spaces && '.' !in u.digits && '\n' !in u.digits
    ensures ' ' !in u.words && '\n' !in u.words && ':' !in u.words
    ensures forall d: char | IsAsciiDigit(d) :: d in u.digits && d !in u.spaces
  {
    assert forall d: char | IsAsciiDigit(d) :: IsAscii(d) && !IsAsciiSpace(d);
    assert IsAscii(' ') && IsAscii('\n') && IsAscii(':') && IsAscii('$') && IsAscii('.');
  }

  lemma {:induction false} NameMatches(u: Table, name: string, t: string, at: nat)
    requires u.Valid() && IsLabel(name) && at + |name| <= |t| && t[at..at + |name|] == name
    ensures Matches(u, Word(u, name), t, at, at + |name|)
  {
    forall k | 0 <= k < |name| ensures t[at + k] in u.Fold(name[k]) {
      assert t[at + k] == t[at..at + |name|][k];
      if IsAsciiLetter(name[k]) { assert u.FoldsLetter(name[k]); } else { assert IsAscii(name[k]); }
    }
    WordMatches(u, name, t, at, at + |name|);
  }

  /** The label, its colon and the blank after it. */
  lemma {:induction false} TextPrefixAt(u: Table, t: string, at: nat, name: string, value: string)
    requires u.Valid() && IsLabel(name) && LineAt(t, at, name, value)
    requires value != "" && value[0] !in u.spaces
    ensures MatchEnd(u, LabelColon(u, name), t, at) == Some(at + |name| + 1)
    ensures MatchEnd(u, TextPrefix(u, name), t, at) == Some(at + |name| + 2)
  {
    hide Matches, Word, Ends;
    AsciiFacts(u);
    NameMatches(u, name, t, at);
    WordMatchEnd(u, name, t, at);
    var c := at + |name|;
    assert t[c + 2] == t[c + 2..c + 2 + |value|][0];
    ManyMatchEnd(u, u.spaces, 0, t, c, 0);
    OneMatchEnd(u, {':'}, t, c);
    CatMatchEnd(u, Many(u.spaces, 0), One({':'}), t, c);
    CatMatchEnd(u, Word(u, name), Cat(Many(u.spaces, 0), One({':'})), t, at);
    ManyMatchEnd(u, u.spaces, 0, t, c + 1, 1);
    CatMatchEnd(u, LabelColon(u, name), Many(u.spaces, 0), t, at);
  }

  lemma {:induction false} OneMatchEnd(u: Table, cs: set<char>, s: string, i: nat)
    requires i < |s| && s[i] in cs
    ensures MatchEnd(u, One(cs), s, i) == Some(i + 1)
    ensures MatchEnd(u, Maybe(One(cs)), s, i) == Some(i + 1)
  {
  }

  /** Every match of a longer pattern starting with the label starts with the label and its colon. */
  lemma {:induction false} NoneBeforeExtends(u: Table, t: string, at: nat, name: string, rest: Pattern, body: Pattern)
    requires NoneBefore(u, t, at, name)
    ensures forall k, j | 0 <= k < at :: !Matches(u, Cat(Cat(LabelColon(u, name), rest), body), t, k, j)
  {
    hide LabelColon;
    forall k, j | 0 <= k < at
      ensures !Matches(u, Cat(Cat(LabelColon(u, name), rest), body), t, k, j)
    {
      if Matches(u, Cat(Cat(LabelColon(u, name), rest), body), t, k, j) {
        var m := Split(u, Cat(LabelColon(u, name), rest), body, t, k, j);
        var n := Split(u, LabelColon(u, name), rest, t, k, m);
      }
    }
  }

  /** `_parse_text_field` reads a stripped, non-blank, one-line value. */
  lemma {:induction false} ReadText(u: Table, t: string, at: nat, name: string, value: string)
    requires u.Valid() && IsLabel(name) && LineAt(t, at, name, value) && NoneBefore(u, t, at, name)
    requires Stripped(u, value) && '\n' !in value
    ensures ParseTextField(u, t, name) == Some(value)
  {
    hide MatchEnd, Matches, SearchGroup;
    TextPrefixAt(u, t, at, name, value);
    var m := at + |name| + 2;
    forall k | m <= k < m + |value| ensures t[k] in NOT_NEWLINE {
      assert t[k] == t[m..m + |value|][k - m];
    }
    ManyMatchEnd(u, NOT_NEWLINE, 1, t, m, |value|);
    NoneBeforeExtends(u, t, at, name, Many(u.spaces, 0), TextBody());
    GroupAt(u, TextPrefix(u, name), TextBody(), t, at, m, m + |value|);
  }

  /** Non-blank, and `strip` leaves it alone. */
  predicate Stripped(u: Table, s: string) {
    s != "" && s[0] !in u.spaces && s[|s| - 1] !in u.spaces
  }

  /** `_parse_money_field` reads a printed amount. */
  lemma {:induction false} ReadMoney(u: Table, t: string, at: nat, name: string, cents: nat)
    requires u.Valid() && IsLabel(name) && LineAt(t, at, name, "$" + Cents(cents)) && NoneBefore(u, t, at, name)
    ensures ParseMoneyField(u, t, name) == Amount(cents as real / 100.0)
  {
    hide MatchEnd, Matches, SearchGroup, Cents, ParseFloat, Without, LabelColon, MoneyBody;
    var value := "$" + Cents(cents);
    AsciiFacts(u);
    TextPrefixAt(u, t, at, name, value);
    var c := at + |name| + 1;
    var m := c + 2;
    assert t[c + 1..c + 1 + |value|] == value;
    assert t[m..m + |Cents(cents)|] == value[1..] == Cents(cents);
    assert t[c + 1] == value[0] == '$';
    AmountAt(u, t, m, cents);
    ManyMatchEnd(u, u.spaces, 0, t, c, 1);
    OneMatchEnd(u, {'$'}, t, c + 1);
    ManyMatchEnd(u, u.spaces, 0, t, m, 0);
    var dollar := Cat(Maybe(One({'$'})), Many(u.spaces, 0));
    CatMatchEnd(u, Maybe(One({'$'})), Many(u.spaces, 0), t, c + 1);
    CatMatchEnd(u, Many(u.spaces, 0), dollar, t, c);
    CatMatchEnd(u, LabelColon(u, name), Cat(Many(u.spaces, 0), dollar), t, at);
    NoneBeforeExtends(u, t, at, name, Cat(Many(u.spaces, 0), dollar), MoneyBody(u));
    GroupAt(u, MoneyPrefix(u, name), MoneyBody(u), t, at, m, m + |Cents(cents)|);
    CentsRead(u, cents);
  }

  /** The amount is taken whole: digits, point and digits. */
  lemma {:induction false} AmountAt(u: Table, t: string, m: nat, cents: nat)
    requires u.Valid() && m + |Cents(cents)| < |t| && t[m..m + |Cents(cents)|] == Cents(cents)
    requires t[m + |Cents(cents)|] == '\n'
    ensures MatchEnd(u, MoneyBody(u), t, m) == Some(m + |Cents(cents)|)
    ensures t[m] !in u.spaces
  {
    hide MatchEnd, Matches, Decimal;
    AsciiFacts(u);
    var s, whole := Cents(cents), Decimal(cents / 100);
    var p := m + |whole|;
    assert forall k | 0 <= k < |s| :: t[m + k] == t[m..m + |s|][k] == s[k];
    assert t[m] == t[m + 0] == s[0] == whole[0];
    assert t[p] == t[m + |whole|] == '.';
    assert t[p + 1] == t[m + (|whole| + 1)] && t[p + 2] == t[m + (|whole| + 2)];
    assert IsAsciiDigit(t[p + 1]) && IsAsciiDigit(t[p + 2]);
    forall k | m <= k < p ensures t[k] in u.digits.Keys + {','} {
      assert t[k] == t[m + (k - m)] == whole[k - m];
    }
    ManyMatchEnd(u, u.digits.Keys + {','}, 1, t, m, |whole|);
    OneMatchEnd(u, {'.'}, t, p);
    ManyMatchEnd(u, u.digits.Keys, 1, t, p + 1, 2);
    var frac := Cat(One({'.'}), Many(u.digits.Keys, 1));
    CatMatchEnd(u, One({'.'}), Many(u.digits.Keys, 1), t, p);
    MaybeMatchEnd(u, frac, t, p);
    CatMatchEnd(u, Many(u.digits.Keys + {','}, 1), Maybe(frac), t, m);
  }

  lemma {:induction false} MaybeMatchEnd(u: Table, p: Pattern, s: string, i: nat)
    requires i <= |s| && MatchEnd(u, p, s, i).Some?
    ensures MatchEnd(u, Maybe(p), s, i) == MatchEnd(u, p, s, i)
  {
  }
}
