/** Printing a pay stub, sanitizing it and extracting it gives back what was printed. */
module RoundTrip {
  import opened Wrappers
  import opened CharTable
  import opened Regex
  import opened Extraction
  import opened PayStub
  import opened Rounding
  import PromptGuard
  import Substitution

  // ----- Pairs of neighbouring characters -----

  /** `x` directly followed by `y`, up to case, occurs nowhere in `s`. */
  ghost predicate NoPair(u: Table, s: string, x: char, y: char) {
    forall k | 0 <= k < |s| - 1 :: !(s[k] in u.Fold(x) && s[k + 1] in u.Fold(y))
  }

  /** A letter pair each injection pattern needs in its first word. */
  predicate InjectionPair(x: char, y: char) {
    || (x == 'g' && y == 'n')  // ignore
    || (x == 'e' && y == 'g')  // disregard
    || (x == 'y' && y == 'o')  // you
    || (x == 'y' && y == 's')  // system
    || (x == 'e' && y == 'w')  // new
    || (x == 'a' && y == 'c')  // act
    || (x == 'e' && y == 'v')  // reveal
  }

  /** ASCII at `k`, and no injection pair there. */
  predicate CalmAt(s: string, k: nat)
    requires k < |s|
  {
    IsAscii(s[k]) && (k + 1 < |s| ==> !InjectionPair(AsciiLower(s[k]), AsciiLower(s[k + 1])))
  }

  /** ASCII text without injection pairs. */
  predicate Calm(s: string) { forall k | 0 <= k < |s| :: CalmAt(s, k) }

  /** ASCII at `k`, and not `x` followed by `y` there. */
  predicate BareAt(s: string, k: nat, x: char, y: char)
    requires k < |s|
  {
    IsAscii(s[k]) && (k + 1 < |s| ==> !(AsciiLower(s[k]) == x && AsciiLower(s[k + 1]) == y))
  }

  /** ASCII text without `x` directly before `y`. */
  predicate Bare(s: string, x: char, y: char) { forall k | 0 <= k < |s| :: BareAt(s, k, x, y) }

  lemma {:induction false} CalmConcat(a: string, b: string)
    requires Calm(a) && Calm(b)
    requires a != "" && b != "" ==> !InjectionPair(AsciiLower(a[|a| - 1]), AsciiLower(b[0]))
    ensures Calm(a + b)
  {
    hide InjectionPair;
    var s := a + b;
    forall k | 0 <= k < |s| ensures CalmAt(s, k) {
      if k < |a| { assert CalmAt(a, k); } else { assert CalmAt(b, k - |a|); }
    }
  }

  lemma {:induction false} BareConcat(a: string, b: string, x: char, y: char)
    requires Bare(a, x, y) && Bare(b, x, y)
    requires a != "" && b != "" ==> !(AsciiLower(a[|a| - 1]) == x && AsciiLower(b[0]) == y)
    ensures Bare(a + b, x, y)
  {
    var s := a + b;
    forall k | 0 <= k < |s| ensures BareAt(s, k, x, y) {
      if k < |a| { assert BareAt(a, k, x, y); } else { assert BareAt(b, k - |a|, x, y); }
    }
  }

  /** In ASCII text, a pair up to case is a pair of lower cases. */
  lemma {:induction false} CalmHasNoPair(u: Table, s: string, x: char, y: char)
    requires u.Valid() && Calm(s) && InjectionPair(x, y)
    ensures NoPair(u, s, x, y)
  {
    hide InjectionPair;
    assert IsAsciiLetter(x) && IsAsciiLetter(y) && AsciiLower(x) == x && AsciiLower(y) == y by {
      PairOfLetters(x, y);
    }
    assert u.FoldsLetter(x) && u.FoldsLetter(y);
    forall k | 0 <= k < |s| - 1 ensures !(s[k] in u.Fold(x) && s[k + 1] in u.Fold(y)) {
      assert CalmAt(s, k) && CalmAt(s, k + 1);
    }
  }

  lemma {:induction false} PairOfLetters(x: char, y: char)
    requires InjectionPair(x, y)
    ensures IsAsciiLetter(x) && IsAsciiLetter(y) && AsciiLower(x) == x && AsciiLower(y) == y
  {
  }

  lemma {:induction false} BareHasNoPair(u: Table, s: string, x: char, y: char)
    requires u.Valid() && IsAsciiLetter(x) && (IsAsciiLetter(y) || y == '_') && Bare(s, AsciiLower(x), AsciiLower(y))
    ensures NoPair(u, s, x, y)
  {
    assert u.FoldsLetter(x) && IsAscii('_');
    assert IsAsciiLetter(y) ==> u.FoldsLetter(y);
    forall k | 0 <= k < |s| - 1 ensures !(s[k] in u.Fold(x) && s[k + 1] in u.Fold(y)) {
      assert BareAt(s, k, AsciiLower(x), AsciiLower(y)) && BareAt(s, k + 1, AsciiLower(x), AsciiLower(y));
    }
  }

  /** Digits and points have no letters. */
  lemma {:induction false} CentsAreCalm(cents: nat, x: char)
    ensures Calm(Cents(cents)) && Bare(Cents(cents), x, '_') && Cents(cents) != ""
    ensures forall k | 0 <= k < |Cents(cents)| :: IsAsciiDigit(Cents(cents)[k]) || Cents(cents)[k] == '.'
  {
    var s := Cents(cents);
    forall k: nat | k < |s| ensures IsAsciiDigit(s[k]) || s[k] == '.' {
      if k < |Decimal(cents / 100)| {
        assert s[k] == Decimal(cents / 100)[k];
        assert s[k] in Decimal(cents / 100);
      }
    }
    assert forall k: nat | k < |s| :: CalmAt(s, k) && BareAt(s, k, x, '_');
  }

  // ----- The fixed text -----

  lemma {:induction false} HeaderIsCalm()
    ensures Calm(HEADER)
  {
    var a, b, c, d := "NORTHBRIDGE FINANCIAL ", "GROUP - SYNTHETIC ", "PAY STATEMENT ", "(DEMO DATA ONLY)\n";
    FirstIsCalm();
    SecondIsCalm();
    ThirdIsCalm();
    FourthIsCalm();
    hide Calm;
    CalmConcat(a, b);
    CalmConcat(a + b, c);
    CalmConcat(a + b + c, d);
  }

  lemma {:induction false} FirstIsCalm()
    ensures Calm("NORTHBRIDGE FINANCIAL ")
  {
  }

  lemma {:induction false} SecondIsCalm()
    ensures Calm("GROUP - SYNTHETIC ")
  {
  }

  lemma {:induction false} ThirdIsCalm()
    ensures Calm("PAY STATEMENT ")
  {
  }

  lemma {:induction false} FourthIsCalm()
    ensures Calm("(DEMO DATA ONLY)\n")
  {
  }

  lemma {:induction false} OpeningIsCalm()
    ensures Calm(OPENING)
  {
    assert Calm("EMPLOYER: ");
    hide Calm;
    HeaderIsCalm();
    CalmConcat(HEADER, "EMPLOYER: ");
  }

  lemma {:induction false} PayLineIsCalm()
    ensures Calm(PAY_LINE)
  {
  }

  lemma {:induction false} GrossLineIsCalm()
    ensures Calm(GROSS_LINE)
  {
    assert Calm("\nGROSS_PAY_") && Calm("PER_PERIOD: $");
    hide Calm;
    CalmConcat("\nGROSS_PAY_", "PER_PERIOD: $");
  }

  lemma {:induction false} NetLineIsCalm()
    ensures Calm(NET_LINE)
  {
    assert Calm("\nNET_PAY_") && Calm("PER_PERIOD: $");
    hide Calm;
    CalmConcat("\nNET_PAY_", "PER_PERIOD: $");
  }

  lemma {:induction false} DebtLineIsCalm()
    ensures Calm(DEBT_LINE)
  {
    assert Calm("\nEXISTING_") && Calm("MONTHLY_DEBT: $");
    hide Calm;
    CalmConcat("\nEXISTING_", "MONTHLY_DEBT: $");
  }

  lemma {:induction false} FrequencyIsCalm(f: string, x: char)
    requires f in FREQUENCIES
    ensures Calm(f) && Bare(f, x, '_') && f != "" && IsAsciiLetter(f[0])
    ensures forall k | 0 <= k < |f| :: IsAsciiLetter(f[k]) || f[k] == '-'
  {
  }

  // ----- A stub around its employer -----

  /** `a` ends with ": ", `b` starts a new line with a letter, and `e` is one line. */
  predicate Framed(a: string, e: string, b: string) {
    && |a| >= 2 && a[|a| - 1] == ' ' && a[|a| - 2] == ':'
    && |b| >= 2 && b[0] == '\n' && IsAsciiLetter(b[1])
    && '\n' !in e
  }

  /** The first `n` characters of `w` are letters or underscores. */
  predicate Solid(w: string, n: nat) {
    n <= |w| && forall k | 0 <= k < n :: IsAsciiLetter(w[k]) || w[k] == '_'
  }

  lemma {:induction false} SolidIsWord(u: Table, c: char)
    requires u.Valid() && (IsAsciiLetter(c) || c == '_')
    ensures u.Fold(c) <= u.words
  {
    if IsAsciiLetter(c) { assert u.FoldsLetter(c); } else { assert IsAscii(c) && IsAsciiWord(c); }
  }

  /**
   A word whose pair `o` occurs neither in `a` nor in the first `n` characters of `b` can, that
   far, only start inside `e`.
   */
  lemma {:induction false} WordStartsInside(
      u: Table, w: string, o: nat, a: string, e: string, b: string, n: nat, i: int, j: int)
    requires u.Valid() && Framed(a, e, b) && Solid(w, o + 2) && n <= |b|
    requires NoPair(u, a, w[o], w[o + 1]) && NoPair(u, b[..n], w[o], w[o + 1])
    requires Matches(u, Word(u, w), a + e + b, i, j) && i + o + 1 < |a| + |e| + n
    ensures |a| <= i && i + o + 1 < |a| + |e|
  {
    hide Table.Valid;
    var t := a + e + b;
    AsciiFacts(u);
    WordMatches(u, w, t, i, j);
    forall k | i <= k < i + o + 2 ensures t[k] in u.words {
      assert t[i + (k - i)] in u.Fold(w[k - i]);
      SolidIsWord(u, w[k - i]);
    }
    var q := i + o + 1;
    assert t[i + o] in u.Fold(w[o]) && t[q] in u.Fold(w[o + 1]) && t[q] == t[i + (o + 1)];
    assert t[|a| - 1] == ' ' && t[|a| + |e|] == '\n';
    assert forall k | 0 <= k < |a| :: t[k] == a[k];
    assert forall k | 0 <= k < n :: b[..n][k] == t[|a| + |e| + k];
  }

  /** Inside the employer line, context looks as it does in the employer by itself. */
  lemma {:induction false} SameBoundary(u: Table, a: string, e: string, b: string, k: int)
    requires u.Valid() && Framed(a, e, b) && |a| <= k <= |a| + |e|
    ensures AtBoundary(u, a + e + b, k) <==> AtBoundary(u, e, k - |a|)
  {
    AsciiFacts(u);
    var t := a + e + b;
    assert t[|a| - 1] == ' ' && t[|a| + |e|] == '\n';
    assert k > |a| ==> t[k - 1] == e[k - 1 - |a|];
    assert k < |a| + |e| ==> t[k] == e[k - |a|];
  }

  /** A match inside the employer line is a match in the employer, and the other way round. */
  lemma {:induction false} InsideIsMatch(u: Table, p: Pattern, a: string, e: string, b: string, i: int, j: int)
    requires u.Valid() && Framed(a, e, b) && !UsesLineStart(p) && |a| <= i && j <= |a| + |e|
    ensures Matches(u, p, a + e + b, i, j) <==> Matches(u, p, e, i - |a|, j - |a|)
  {
    hide Matches, Framed, AtBoundary;
    var t, d := a + e + b, |a|;
    forall k | |a| <= k <= |a| + |e| ensures AtBoundary(u, t, k) <==> AtBoundary(u, e, k - d) {
      SameBoundary(u, a, e, b, k);
    }
    if Matches(u, p, t, i, j) {
      assert forall k | i <= k < j :: t[k] == e[k - d];
      Transfer(u, p, t, i, j, e, -d);
    }
    if Matches(u, p, e, i - d, j - d) {
      assert forall k | i - d <= k < j - d :: e[k] == t[k + d];
      forall k | i - d <= k <= j - d && AtBoundary(u, e, k) ensures AtBoundary(u, t, k + d) {
        assert AtBoundary(u, e, (k + d) - d);
      }
      Transfer(u, p, e, i - d, j - d, t, d);
    }
  }

  /** A match that starts inside and cannot consume a newline ends inside. */
  lemma {:induction false} EndsInside(u: Table, p: Pattern, a: string, e: string, b: string, i: int, j: int)
    requires Framed(a, e, b) && Avoids(p, {'\n'}) && Matches(u, p, a + e + b, i, j)
    requires |a| <= i < |a| + |e|
    ensures j <= |a| + |e|
  {
    hide Matches, Avoids;
    AvoidsMarks(u, p, {'\n'}, a + e + b, i, j);
    assert (a + e + b)[|a| + |e|] == '\n';
  }

  /** No character of `w` stands for a newline. */
  lemma {:induction false} WordAvoidsNewline(u: Table, w: string)
    requires u.Valid() && forall k | 0 <= k < |w| :: IsAsciiLetter(w[k]) || w[k] == '_' || w[k] == ' '
    ensures Avoids(Word(u, w), {'\n'})
  {
    AsciiFacts(u);
    forall k | 0 <= k < |w| ensures u.Fold(w[k]) !! {'\n'} {
      if w[k] == ' ' { assert IsAscii(' '); } else { SolidIsWord(u, w[k]); }
    }
    WordAvoids(u, w, {'\n'});
  }

  /** A word, blanks and a colon: the blanks may cross the newline, but no colon follows it. */
  lemma {:induction false} ColonEndsInside(u: Table, w: string, a: string, e: string, b: string, i: int, j: int)
    requires u.Valid() && Framed(a, e, b) && Matches(u, LabelColon(u, w), a + e + b, i, j)
    requires |a| <= i < |a| + |e|
    requires forall k | 0 <= k < |w| :: IsAsciiLetter(w[k]) || w[k] == '_' || w[k] == ' '
    ensures j <= |a| + |e|
  {
    var t, q := a + e + b, |a| + |e|;
    AsciiFacts(u);
    var m := Split(u, Word(u, w), Cat(Many(u.spaces, 0), One({':'})), t, i, j);
    var c := Split(u, Many(u.spaces, 0), One({':'}), t, m, j);
    WordAvoidsNewline(u, w);
    EndsInside(u, Word(u, w), a, e, b, i, m);
    assert t[c] == ':' && j == c + 1;
    assert t[q] == b[0] && t[q + 1] == b[1];
    assert IsAscii(b[1]) && b[1] !in u.spaces;
    assert t[q + 1] !in u.spaces && t[q] != ':' && t[q + 1] != ':';
  }

  // ----- Labels -----

  /** No label of this name before `at`, if its pair occurs nowhere up to there and `e` has no such label. */
  lemma {:induction false} LabelStartsLater(u: Table, w: string, o: nat, a: string, e: string, b: string, at: nat)
    requires u.Valid() && Framed(a, e, b) && IsLabel(w) && o + 2 <= |w|
    requires |a| + |e| <= at && at + o + 1 <= |a| + |e| + |b|
    requires NoPair(u, a, w[o], w[o + 1]) && NoPair(u, b[..at + o + 1 - |a| - |e|], w[o], w[o + 1])
    requires Clean(u, LabelColon(u, w), e)
    ensures NoneBefore(u, a + e + b, at, w)
  {
    hide Matches, Framed, NoPair;
    var t := a + e + b;
    forall i, j | i < at ensures !Matches(u, LabelColon(u, w), t, i, j) {
      if Matches(u, LabelColon(u, w), t, i, j) {
        var m := Split(u, Word(u, w), Cat(Many(u.spaces, 0), One({':'})), t, i, j);
        WordStartsInside(u, w, o, a, e, b, at + o + 1 - |a| - |e|, i, m);
        ColonEndsInside(u, w, a, e, b, i, j);
        WordIsContextFree(u, w);
        assert !UsesLineStart(Cat(Many(u.spaces, 0), One({':'})));
        InsideIsMatch(u, LabelColon(u, w), a, e, b, i, j);
      }
    }
  }

  // ----- The lines after the employer -----

  function Lines1(f: string): string { PAY_LINE + f }

  function Lines2(f: string, gross: nat): string { Lines1(f) + GROSS_LINE + Cents(gross) }

  function Lines3(f: string, gross: nat, net: nat): string { Lines2(f, gross) + NET_LINE + Cents(net) }

  function Lines4(f: string, gross: nat, net: nat, debt: nat): string {
    Lines3(f, gross, net) + DEBT_LINE + Cents(debt)
  }

  lemma {:induction false} OpeningIsBare(x: char)
    ensures Bare(OPENING, x, '_')
  {
    var a, b, c, d := "NORTHBRIDGE FINANCIAL ", "GROUP - SYNTHETIC ", "PAY STATEMENT ", "(DEMO DATA ONLY)\n";
    assert Bare(a, x, '_');
    assert Bare(b, x, '_');
    assert Bare(c, x, '_') && Bare(d, x, '_') && Bare("EMPLOYER: ", x, '_');
    hide Bare;
    BareConcat(a, b, x, '_');
    BareConcat(a + b, c, x, '_');
    BareConcat(a + b + c, d, x, '_');
    BareConcat(HEADER, "EMPLOYER: ", x, '_');
  }

  lemma {:induction false} HeaderHasNoPl()
    ensures Bare(HEADER + "EMP", 'p', 'l')
  {
    var a, b, c, d := "NORTHBRIDGE FINANCIAL ", "GROUP - SYNTHETIC ", "PAY STATEMENT ", "(DEMO DATA ONLY)\n";
    assert Bare(a, 'p', 'l') && Bare(b, 'p', 'l');
    assert Bare(c, 'p', 'l') && Bare(d, 'p', 'l') && Bare("EMP", 'p', 'l');
    hide Bare;
    BareConcat(a, b, 'p', 'l');
    BareConcat(a + b, c, 'p', 'l');
    BareConcat(a + b + c, d, 'p', 'l');
    BareConcat(HEADER, "EMP", 'p', 'l');
  }

  lemma {:induction false} Lines1AreBare(f: string, x: char)
    requires f in FREQUENCIES && x != 'y'
    ensures Bare(Lines1(f), x, '_')
  {
    FrequencyIsCalm(f, x);
    assert Bare(PAY_LINE, x, '_');
    hide Bare;
    BareConcat(PAY_LINE, f, x, '_');
  }

  lemma {:induction false} Lines2AreBare(f: string, gross: nat, x: char)
    requires f in FREQUENCIES && x !in {'y', 's', 'r'}
    ensures Bare(Lines2(f, gross), x, '_')
  {
    Lines1AreBare(f, x);
    CentsAreCalm(gross, x);
    GrossLineIsBare(x);
    hide Bare, Lines1, Cents;
    BareConcat(Lines1(f), GROSS_LINE, x, '_');
    BareConcat(Lines1(f) + GROSS_LINE, Cents(gross), x, '_');
  }

  lemma {:induction false} GrossLineIsBare(x: char)
    requires x !in {'y', 's', 'r'}
    ensures Bare(GROSS_LINE, x, '_')
  {
  }

  lemma {:induction false} Lines3AreBare(f: string, gross: nat, net: nat)
    requires f in FREQUENCIES
    ensures Bare(Lines3(f, gross, net), 'g', '_')
  {
    Lines2AreBare(f, gross, 'g');
    CentsAreCalm(net, 'g');
    assert Bare(NET_LINE, 'g', '_');
    hide Bare, Lines2, Cents;
    BareConcat(Lines2(f, gross), NET_LINE, 'g', '_');
    BareConcat(Lines2(f, gross) + NET_LINE, Cents(net), 'g', '_');
  }

  lemma {:induction false} ClosingIsLines(f: string, gross: nat, net: nat, debt: nat)
    ensures Closing(f, gross, net, debt) == Lines4(f, gross, net, debt) + "\n"
  {
  }

  /** The employer contains no label of the pay stub followed by a colon. */
  ghost predicate LabelFree(u: Table, e: string) {
    && Clean(u, LabelColon(u, "PAY_FREQUENCY"), e)
    && Clean(u, LabelColon(u, "GROSS_PAY_PER_PERIOD"), e)
    && Clean(u, LabelColon(u, "NET_PAY_PER_PERIOD"), e)
    && Clean(u, LabelColon(u, "EXISTING_MONTHLY_DEBT"), e)
  }

  /** The employers the round trip is about: not blank, already stripped, one line. */
  predicate IsEmployer(u: Table, e: string) { Stripped(u, e) && '\n' !in e }

  lemma {:induction false} StubIsFramed(e: string, f: string, gross: nat, net: nat, debt: nat)
    requires '\n' !in e
    ensures Framed(OPENING, e, Closing(f, gross, net, debt))
  {
    hide Cents;
    ClosingIsLines(f, gross, net, debt);
    assert Closing(f, gross, net, debt)[..2] == PAY_LINE[..2];
  }

  /** A label line somewhere after the employer. */
  lemma {:induction false} LineInStub(t: string, before: string, name: string, value: string, after: string)
    requires t == before + ("\n" + name + ": ") + value + after
    requires after != "" && after[0] == '\n'
    ensures LineAt(t, |before| + 1, name, value)
  {
    var at := |before| + 1;
    assert t[at..at + |name|] == name;
    assert t[at + |name| + 2..at + |name| + 2 + |value|] == value;
  }

  lemma {:induction false} RegroupLine(x: string, lines: string, start: string, value: string, after: string)
    ensures x + (lines + start + value + after) == (x + lines) + start + value + after
  {
  }

  lemma {:induction false} UpToPair(b: string, lines: string, name: string, o: nat, rest: string)
    requires o + 2 <= |name| && b == lines + ("\n" + name + ": ") + rest
    ensures b[..|lines| + o + 2] == lines + "\n" + name[..o + 1]
  {
  }

  /** The label line after `lines` is the first of its name, and holds `value`. */
  lemma {:induction false} LabelLine(
      u: Table, name: string, o: nat, e: string, b: string, lines: string, value: string, after: string)
    requires u.Valid() && IsLabel(name) && o + 2 <= |name|
    requires IsAsciiLetter(name[o]) && name[o + 1] == '_' && Framed(OPENING, e, b) && Clean(u, LabelColon(u, name), e)
    requires b == lines + ("\n" + name + ": ") + value + after && after != "" && after[0] == '\n'
    requires Bare(lines + "\n" + name[..o + 1], AsciiLower(name[o]), '_')
    ensures var t, at := OPENING + e + b, |OPENING| + |e| + |lines| + 1;
            LineAt(t, at, name, value) && NoneBefore(u, t, at, name)
  {
    hide Clean, Framed, Bare, LabelColon, LineAt, NoneBefore;
    var t, at := OPENING + e + b, |OPENING| + |e| + |lines| + 1;
    RegroupLine(OPENING + e, lines, "\n" + name + ": ", value, after);
    LineInStub(t, OPENING + e + lines, name, value, after);
    OpeningIsBare(AsciiLower(name[o]));
    var n := |lines| + o + 2;
    assert b == lines + ("\n" + name + ": ") + (value + after);
    UpToPair(b, lines, name, o, value + after);
    BareHasNoPair(u, OPENING, name[o], '_');
    BareHasNoPair(u, b[..n], name[o], '_');
    LabelStartsLater(u, name, o, OPENING, e, b, at);
  }

  // ----- The shape of each line -----

  lemma {:induction false} Regroup(x: string, a: string, b: string, c: string, d: string)
    ensures x + (a + b) + c + d == x + a + (b + c) + d
  {
  }

  lemma {:induction false} RegroupTail(x: string, a: string, b: string, c: string, d: string, e: string)
    ensures x + a + b + c + d + e == x + (a + b + c + d + e)
  {
  }

  lemma {:induction false} LinesHaveLabels()
    ensures PAY_LINE == "\n" + "PAY_FREQUENCY" + ": "
    ensures GROSS_LINE == ("\n" + "GROSS_PAY_PER_PERIOD" + ": ") + "$"
    ensures NET_LINE == ("\n" + "NET_PAY_PER_PERIOD" + ": ") + "$"
    ensures DEBT_LINE == ("\n" + "EXISTING_MONTHLY_DEBT" + ": ") + "$"
  {
  }

  /** `b` has a line with this name and value after `lines`, in which the name's pair does not occur before. */
  ghost predicate HasLine(b: string, lines: string, name: string, o: nat, value: string, after: string) {
    && IsLabel(name) && o + 2 <= |name| && IsAsciiLetter(name[o]) && name[o + 1] == '_'
    && b == lines + ("\n" + name + ": ") + value + after
    && after != "" && after[0] == '\n'
    && Bare(lines + "\n" + name[..o + 1], AsciiLower(name[o]), '_')
  }

  lemma {:induction false} BareBeforeName(lines: string, start: string, x: char)
    requires Bare(lines, x, '_') && Bare(start, x, '_') && start != "" && start[0] == '\n'
    ensures Bare(lines + start, x, '_')
  {
    hide Bare;
    BareConcat(lines, start, x, '_');
  }

  lemma {:induction false} PayShape(f: string, gross: nat, net: nat, debt: nat)
    requires f in FREQUENCIES
    ensures var after := GROSS_LINE + Cents(gross) + (NET_LINE + Cents(net) + DEBT_LINE + Cents(debt) + "\n");
            HasLine(Closing(f, gross, net, debt), "", "PAY_FREQUENCY", 2, f, after)
  {
    hide Cents, Bare;
    var tail := NET_LINE + Cents(net) + DEBT_LINE + Cents(debt) + "\n";
    LinesHaveLabels();
    assert "" + "\n" + "PAY_FREQUENCY"[..3] == "\nPAY";
    PayIsBare();
    assert Closing(f, gross, net, debt)
        == "" + ("\n" + "PAY_FREQUENCY" + ": ") + f + (GROSS_LINE + Cents(gross) + tail) by {
      ClosingIsLines(f, gross, net, debt);
      RegroupTail(Lines2(f, gross), NET_LINE, Cents(net), DEBT_LINE, Cents(debt), "\n");
      RegroupHead(PAY_LINE, f, GROSS_LINE, Cents(gross), tail);
    }
    hide Closing;
  }

  lemma {:induction false} RegroupHead(a: string, b: string, c: string, d: string, e: string)
    ensures a + b + c + d + e == "" + a + b + (c + d + e)
  {
  }

  lemma {:induction false} PayIsBare()
    ensures Bare("\nPAY", 'y', '_') && Bare("\nGROSS", 's', '_')
    ensures Bare("\nNET", 't', '_') && Bare("\nEXISTING", 'g', '_')
  {
  }

  lemma {:induction false} GrossShape(f: string, gross: nat, net: nat, debt: nat)
    requires f in FREQUENCIES
    ensures HasLine(Closing(f, gross, net, debt), Lines1(f), "GROSS_PAY_PER_PERIOD", 4, "$" + Cents(gross),
                    NET_LINE + Cents(net) + DEBT_LINE + Cents(debt) + "\n")
  {
    hide Cents, Bare, Lines1;
    var name, tail := "GROSS_PAY_PER_PERIOD", NET_LINE + Cents(net) + DEBT_LINE + Cents(debt) + "\n";
    LinesHaveLabels();
    ClosingIsLines(f, gross, net, debt);
    RegroupTail(Lines2(f, gross), NET_LINE, Cents(net), DEBT_LINE, Cents(debt), "\n");
    Regroup(Lines1(f), "\n" + name + ": ", "$", Cents(gross), tail);
    assert Lines1(f) + "\n" + name[..5] == Lines1(f) + "\nGROSS";
    Lines1AreBare(f, 's');
    PayIsBare();
    BareBeforeName(Lines1(f), "\nGROSS", 's');
  }

  lemma {:induction false} NetShape(f: string, gross: nat, net: nat, debt: nat)
    requires f in FREQUENCIES
    ensures HasLine(Closing(f, gross, net, debt), Lines2(f, gross), "NET_PAY_PER_PERIOD", 2, "$" + Cents(net),
                    DEBT_LINE + Cents(debt) + "\n")
  {
    hide Cents, Bare, Lines2;
    var name, lines := "NET_PAY_PER_PERIOD", Lines2(f, gross);
    LinesHaveLabels();
    ClosingIsLines(f, gross, net, debt);
    Regroup(lines, "\n" + name + ": ", "$", Cents(net), DEBT_LINE + Cents(debt) + "\n");
    assert lines + NET_LINE + Cents(net) + DEBT_LINE + Cents(debt) + "\n"
        == lines + NET_LINE + Cents(net) + (DEBT_LINE + Cents(debt) + "\n");
    assert lines + "\n" + name[..3] == lines + "\nNET";
    Lines2AreBare(f, gross, 't');
    PayIsBare();
    BareBeforeName(lines, "\nNET", 't');
  }

  lemma {:induction false} DebtShape(f: string, gross: nat, net: nat, debt: nat)
    requires f in FREQUENCIES
    ensures HasLine(Closing(f, gross, net, debt), Lines3(f, gross, net), "EXISTING_MONTHLY_DEBT", 7,
                    "$" + Cents(debt), "\n")
  {
    hide Cents, Bare, Lines3;
    var name, lines := "EXISTING_MONTHLY_DEBT", Lines3(f, gross, net);
    LinesHaveLabels();
    ClosingIsLines(f, gross, net, debt);
    Regroup(lines, "\n" + name + ": ", "$", Cents(debt), "\n");
    assert lines + "\n" + name[..8] == lines + "\nEXISTING";
    Lines3AreBare(f, gross, net);
    PayIsBare();
    BareBeforeName(lines, "\nEXISTING", 'g');
  }

  // ----- Reading each field -----

  lemma {:induction false} FrequencyIsRead(u: Table, e: string, f: string, gross: nat, net: nat, debt: nat)
    requires u.Valid() && f in FREQUENCIES && IsEmployer(u, e) && LabelFree(u, e)
    ensures Frequency(u, BuildPayStubText(e, f, gross, net, debt)) == f
  {
    hide Clean, LineAt, NoneBefore, ParseTextField, LabelColon, Cents, Closing;
    var b := Closing(f, gross, net, debt);
    var after := GROSS_LINE + Cents(gross) + (NET_LINE + Cents(net) + DEBT_LINE + Cents(debt) + "\n");
    StubIsFramed(e, f, gross, net, debt);
    PayShape(f, gross, net, debt);
    hide Stripped;
    FrequencyIsStripped(u, f);
    TextLineIsRead(u, "PAY_FREQUENCY", 2, e, b, "", f, after);
    FrequencyIsLower(u, f);
    NoFrequencyIsBlank(f);
  }

  lemma {:induction false} NoFrequencyIsBlank(f: string)
    requires f in FREQUENCIES
    ensures f != ""
  {
  }

  lemma {:induction false} TextLineIsRead(
      u: Table, name: string, o: nat, e: string, b: string, lines: string, value: string, after: string)
    requires u.Valid() && Framed(OPENING, e, b) && Clean(u, LabelColon(u, name), e)
    requires HasLine(b, lines, name, o, value, after) && Stripped(u, value) && '\n' !in value
    ensures ParseTextField(u, OPENING + e + b, name) == Some(value)
  {
    hide Clean, LineAt, NoneBefore, ParseTextField, LabelColon, Framed, Stripped, Bare;
    LabelLine(u, name, o, e, b, lines, value, after);
    ReadText(u, OPENING + e + b, |OPENING| + |e| + |lines| + 1, name, value);
  }

  lemma {:induction false} MoneyLineIsRead(
      u: Table, name: string, o: nat, e: string, b: string, lines: string, cents: nat, after: string)
    requires u.Valid() && Framed(OPENING, e, b) && Clean(u, LabelColon(u, name), e)
    requires HasLine(b, lines, name, o, "$" + Cents(cents), after)
    ensures ParseMoneyField(u, OPENING + e + b, name) == Amount(cents as real / 100.0)
  {
    hide Clean, LineAt, NoneBefore, ParseMoneyField, LabelColon, Framed, Cents, Bare;
    LabelLine(u, name, o, e, b, lines, "$" + Cents(cents), after);
    ReadMoney(u, OPENING + e + b, |OPENING| + |e| + |lines| + 1, name, cents);
  }

  lemma {:induction false} MoneyIsRead(u: Table, e: string, f: string, gross: nat, net: nat, debt: nat)
    requires u.Valid() && f in FREQUENCIES && IsEmployer(u, e) && LabelFree(u, e)
    ensures var t := BuildPayStubText(e, f, gross, net, debt);
            && ParseMoneyField(u, t, "GROSS_PAY_PER_PERIOD") == Amount(gross as real / 100.0)
            && ParseMoneyField(u, t, "NET_PAY_PER_PERIOD") == Amount(net as real / 100.0)
            && ParseMoneyField(u, t, "EXISTING_MONTHLY_DEBT") == Amount(debt as real / 100.0)
  {
    hide Clean, ParseMoneyField, LabelColon, Cents, HasLine, Framed, Closing;
    var b := Closing(f, gross, net, debt);
    StubIsFramed(e, f, gross, net, debt);
    GrossShape(f, gross, net, debt);
    NetShape(f, gross, net, debt);
    DebtShape(f, gross, net, debt);
    MoneyLineIsRead(u, "GROSS_PAY_PER_PERIOD", 4, e, b, Lines1(f), gross,
                    NET_LINE + Cents(net) + DEBT_LINE + Cents(debt) + "\n");
    MoneyLineIsRead(u, "NET_PAY_PER_PERIOD", 2, e, b, Lines2(f, gross), net, DEBT_LINE + Cents(debt) + "\n");
    MoneyLineIsRead(u, "EXISTING_MONTHLY_DEBT", 7, e, b, Lines3(f, gross, net), debt, "\n");
  }

  lemma {:induction false} FrequencyIsStripped(u: Table, f: string)
    requires u.Valid() && f in FREQUENCIES
    ensures Stripped(u, f) && '\n' !in f
  {
    FrequencyIsCalm(f, 'y');
    assert forall c | IsAsciiLetter(c) :: IsAscii(c) && !IsAsciiSpace(c);
    assert IsAscii('-') && !IsAsciiSpace('-');
  }

  lemma {:induction false} LowerOfLower(u: Table, s: string)
    requires u.Valid() && forall k | 0 <= k < |s| :: IsAscii(s[k]) && AsciiLower(s[k]) == s[k]
    ensures u.Lower(s) == s
  {
    if s != "" { LowerOfLower(u, s[1..]); }
  }

  lemma {:induction false} FrequencyIsLower(u: Table, f: string)
    requires u.Valid() && f in FREQUENCIES
    ensures u.Lower(f) == f
  {
    assert forall k | 0 <= k < |f| :: IsAscii(f[k]) && AsciiLower(f[k]) == f[k];
    LowerOfLower(u, f);
  }

  lemma {:induction false} EmployerIsRead(u: Table, e: string, f: string, gross: nat, net: nat, debt: nat)
    requires u.Valid() && IsEmployer(u, e)
    ensures ParseTextField(u, BuildPayStubText(e, f, gross, net, debt), "EMPLOYER") == Some(e)
  {
    hide Clean, ParseTextField, Cents;
    var t := BuildPayStubText(e, f, gross, net, debt);
    var b, at := Closing(f, gross, net, debt), |HEADER|;
    assert b != "" && b[0] == '\n' by { StubIsFramed(e, f, gross, net, debt); }
    assert t == HEADER + "EMPLOYER" + ": " + e + b;
    assert t[at..at + 8] == "EMPLOYER" && t[at + 10..at + 10 + |e|] == e;
    assert t[..at + 3] == HEADER + "EMP";
    assert LineAt(t, at, "EMPLOYER", e);
    hide BuildPayStubText, LineAt;
    HeaderHasNoPl();
    BareHasNoPair(u, t[..at + 3], 'P', 'L');
    hide Bare;
    forall i, j | i < at ensures !Matches(u, LabelColon(u, "EMPLOYER"), t, i, j) {
      if Matches(u, LabelColon(u, "EMPLOYER"), t, i, j) {
        EmployerNeedsPl(u, t, at, i, j);
      }
    }
    ReadText(u, t, at, "EMPLOYER", e);
  }

  lemma {:induction false} EmployerNeedsPl(u: Table, t: string, at: nat, i: int, j: int)
    requires Matches(u, LabelColon(u, "EMPLOYER"), t, i, j) && i < at && at + 3 <= |t|
    ensures !NoPair(u, t[..at + 3], 'P', 'L')
  {
    hide Matches;
    var w := "EMPLOYER";
    var m := Split(u, Word(u, w), Cat(Many(u.spaces, 0), One({':'})), t, i, j);
    WordMatches(u, w, t, i, m);
    assert t[i + 2] in u.Fold(w[2]) && t[i + 3] in u.Fold(w[3]);
    var s := t[..at + 3];
    assert s[i + 2] == t[i + 2] && s[i + 2 + 1] == t[i + 3];
  }

  /**
   Extraction undoes printing: every field comes back, per-period amounts converted to monthly
   ones and rounded to the cent, at the highest confidence.
   */
  lemma {:induction false} ExtractionUndoesPrinting(u: Table, e: string, f: string, gross: nat, net: nat, debt: nat)
    requires u.Valid() && PayPeriods(f).Some? && IsEmployer(u, e) && LabelFree(u, e)
    ensures Extract(u, BuildPayStubText(e, f, gross, net, debt)) == Some(Extracted(
              TwelfthOfYear(gross as real / 100.0, f),
              TwelfthOfYear(net as real / 100.0, f),
              debt as real / 100.0, Some(e), f, 0.95))
  {
    hide BuildPayStubText, ParseMoneyField, ParseTextField, Frequency, Confidence, RoundTo, PerMonth, LabelFree,
         IsEmployer, PayPeriods, TwelfthOfYear, FREQUENCIES;
    MultipliersArePeriods(gross as real / 100.0, f);
    MultipliersArePeriods(net as real / 100.0, f);
    FrequencyIsRead(u, e, f, gross, net, debt);
    MoneyIsRead(u, e, f, gross, net, debt);
    EmployerIsRead(u, e, f, gross, net, debt);
    ConfidenceLevels(4);
  }

  // ----- The sanitizer on a pay stub -----

  lemma {:induction false} ClosingIsCalm(f: string, gross: nat, net: nat, debt: nat)
    requires f in FREQUENCIES
    ensures Calm(Closing(f, gross, net, debt))
  {
    PayLineIsCalm();
    GrossLineIsCalm();
    NetLineIsCalm();
    DebtLineIsCalm();
    FrequencyIsCalm(f, 'y');
    CentsAreCalm(gross, 'y');
    CentsAreCalm(net, 'y');
    CentsAreCalm(debt, 'y');
    assert Calm("\n");
    ClosingIsLines(f, gross, net, debt);
    hide Calm, Cents, Closing;
    CalmConcat(PAY_LINE, f);
    CalmConcat(Lines1(f), GROSS_LINE);
    CalmConcat(Lines1(f) + GROSS_LINE, Cents(gross));
    CalmConcat(Lines2(f, gross), NET_LINE);
    CalmConcat(Lines2(f, gross) + NET_LINE, Cents(net));
    CalmConcat(Lines3(f, gross, net), DEBT_LINE);
    CalmConcat(Lines3(f, gross, net) + DEBT_LINE, Cents(debt));
    CalmConcat(Lines4(f, gross, net, debt), "\n");
  }

  /** The first word of pattern `n`, and where its injection pair stands in it. */
  function Lead(n: nat): (string, nat)
    requires n < 7
  {
    match n
    case 0 => ("ignore ", 1)
    case 1 => ("disregard ", 4)
    case 2 => ("you are now", 0)
    case 3 => ("system", 1)
    case 4 => ("new instructions", 1)
    case 5 => ("act as ", 0)
    case _ => ("reveal your ", 1)
  }

  lemma {:induction false} LeadHasPair(n: nat)
    requires n < 7
    ensures var (w, o) := Lead(n); Solid(w, o + 2) && InjectionPair(w[o], w[o + 1])
    ensures var (w, _) := Lead(n); forall k | 0 <= k < |w| :: IsAsciiLetter(w[k]) || w[k] == '_' || w[k] == ' '
  {
  }

  /** A match of any pattern but the line-anchored one starts with its first word. */
  lemma {:induction false} StartsWithLead(u: Table, n: nat, t: string, i: int, j: int) returns (m: int)
    requires n < 7 && n != 3 && Matches(u, PromptGuard.Patterns(u)[n], t, i, j)
    ensures Matches(u, Word(u, Lead(n).0), t, i, m) && m <= j
  {
    hide Matches;
    var p := PromptGuard.Patterns(u)[n];
    if n == 2 || n == 5 {
      var core := p.right.left;
      var a := Split(u, Bound, Cat(core, Bound), t, i, j);
      var c := Split(u, core, Bound, t, a, j);
      BoundIsEmpty(u, t, i, a);
      if n == 2 {
        m := c;
      } else {
        m := Split(u, core.left, core.right, t, a, c);
      }
    } else {
      m := Split(u, p.left, p.right, t, i, j);
    }
  }

  lemma {:induction false} BoundIsEmpty(u: Table, t: string, i: int, j: int)
    requires Matches(u, Bound, t, i, j)
    ensures i == j
  {
  }

  lemma {:induction false} PhrasesAvoidNewline(u: Table, n: nat)
    requires u.Valid() && n < 7 && n != 3 && n != 4
    ensures Avoids(PromptGuard.Patterns(u)[n], {'\n'})
  {
    hide Avoids, Demands, UsesBound, PromptGuard.IgnoreInstructions, PromptGuard.Disregard, PromptGuard.RevealPrompt,
         PromptGuard.YouAreNowCore, PromptGuard.ActAsCore;
    PromptGuard.IgnoreInstructionsIsLoose(u);
    PromptGuard.DisregardIsLoose(u);
    PromptGuard.RevealPromptIsLoose(u);
    PromptGuard.CoresAreLoose(u);
    var p := PromptGuard.Patterns(u)[n];
    var core := if n == 2 || n == 5 then p.right.left else p;
    AvoidsFewer(core, PromptGuard.WIDE, {'\n'});
    AnchoredAvoids(core);
  }

  lemma {:induction false} AnchoredAvoids(core: Pattern)
    requires Avoids(core, {'\n'})
    ensures Avoids(Anchored(core), {'\n'})
  {
    assert Avoids(Cat(core, Bound), {'\n'});
  }

  /** Around an employer without injection pairs in the fixed text, phrases can only match inside the employer. */
  lemma {:induction false} PhraseLiesInside(u: Table, n: nat, e: string, b: string, i: int, j: int)
    requires u.Valid() && n < 7 && n != 3 && Framed(OPENING, e, b) && Calm(b)
    requires Matches(u, PromptGuard.Patterns(u)[n], OPENING + e + b, i, j)
    ensures |OPENING| <= i && j <= |OPENING| + |e|
  {
    var t, w, o := OPENING + e + b, Lead(n).0, Lead(n).1;
    OpeningIsCalm();
    LeadHasPair(n);
    hide Calm, Framed, Matches, Avoids, Lead;
    var m := StartsWithLead(u, n, t, i, j);
    CalmHasNoPair(u, OPENING, w[o], w[o + 1]);
    CalmHasNoPair(u, b, w[o], w[o + 1]);
    assert b[..|b|] == b;
    WordLength(u, w, t, i, m);
    WordStartsInside(u, w, o, OPENING, e, b, |b|, i, m);
    if n == 4 {
      NewInstructionsIsColon(u);
      ColonEndsInside(u, w, OPENING, e, b, i, j);
    } else {
      PhrasesAvoidNewline(u, n);
      EndsInside(u, PromptGuard.Patterns(u)[n], OPENING, e, b, i, j);
    }
  }

  lemma {:induction false} WordLength(u: Table, w: string, t: string, i: int, j: int)
    requires Matches(u, Word(u, w), t, i, j)
    ensures j == i + |w| && j <= |t|
  {
    WordMatches(u, w, t, i, j);
  }

  lemma {:induction false} NewInstructionsIsColon(u: Table)
    ensures PromptGuard.Patterns(u)[4] == LabelColon(u, Lead(4).0)
  {
  }

  /** A pay stub never has a line that poses as a system message. */
  lemma {:induction false} NoSystemRole(u: Table, e: string, b: string, i: int, j: int)
    requires u.Valid() && Framed(OPENING, e, b) && Calm(b)
    ensures !Matches(u, PromptGuard.SystemRole(u), OPENING + e + b, i, j)
  {
    var t, a := OPENING + e + b, |OPENING|;
    OpeningIsCalm();
    LeadHasPair(3);
    hide Calm, Matches, Word, Table.Valid;
    if Matches(u, PromptGuard.SystemRole(u), t, i, j) {
      var colon := Cat(Many(u.spaces, 0), One({':'}));
      var rest := Cat(Word(u, "system"), colon);
      var h := Split(u, LineStart, Cat(Many(u.spaces, 0), rest), t, i, j);
      var k := Split(u, Many(u.spaces, 0), rest, t, h, j);
      var m := Split(u, Word(u, "system"), colon, t, k, j);
      CalmHasNoPair(u, OPENING, 'y', 's');
      CalmHasNoPair(u, b, 'y', 's');
      assert b[..|b|] == b;
      WordLength(u, "system", t, k, m);
      WordStartsInside(u, "system", 1, OPENING, e, b, |b|, k, m);
      LineStartsBefore(u, e, b, i, h, k);
      assert false;
    }
  }

  /** Between a line start and a place inside the employer there is more than blanks. */
  lemma {:induction false} LineStartsBefore(u: Table, e: string, b: string, i: int, h: int, k: int)
    requires u.Valid() && Framed(OPENING, e, b) && |OPENING| <= k <= |OPENING| + |e|
    requires Matches(u, LineStart, OPENING + e + b, i, h)
    ensures !Matches(u, Many(u.spaces, 0), OPENING + e + b, h, k)
  {
    var t, a := OPENING + e + b, |OPENING|;
    AsciiFacts(u);
    assert h == i && AtLineStart(t, i);
    assert t[a - 2] == ':' && t[a - 1] == ' ';
    assert forall q | a <= q < a + |e| :: t[q] == e[q - a];
    assert forall q | a - 2 <= q < k :: t[q] != '\n';
    assert t[a - 2] !in u.spaces;
  }

  /** The employer has no injection phrase; the line-anchored pattern cannot apply to it. */
  ghost predicate InjectionFree(u: Table, e: string) {
    forall n: nat | n < 7 && n != 3 :: PatternClean(u, n, e)
  }

  /** The sanitizer leaves a pay stub alone exactly when the employer has no injection phrase. */
  lemma {:induction false} SanitizerKeepsStub(u: Table, e: string, f: string, gross: nat, net: nat, debt: nat)
    requires u.Valid() && f in FREQUENCIES && '\n' !in e
    ensures var t := BuildPayStubText(e, f, gross, net, debt);
            PromptGuard.Sanitized(u, t) == t <==> InjectionFree(u, e)
  {
    var b := Closing(f, gross, net, debt);
    var t := OPENING + e + b;
    StubIsFramed(e, f, gross, net, debt);
    ClosingIsCalm(f, gross, net, debt);
    assert BuildPayStubText(e, f, gross, net, debt) == t;
    hide Calm, Framed, Closing, BuildPayStubText, PatternClean;
    StubIsCleanIff(u, e, b);
    PromptGuard.UnchangedIffNothingMatches(u, t);
  }

  lemma {:induction false} StubIsCleanIff(u: Table, e: string, b: string)
    requires u.Valid() && Framed(OPENING, e, b) && Calm(b)
    ensures Substitution.AllClean(u, PromptGuard.Patterns(u), OPENING + e + b) <==> InjectionFree(u, e)
  {
    hide Calm, Framed, Matches;
    var t := OPENING + e + b;
    assert PatternClean(u, 3, t) by {
      forall i, j ensures !Matches(u, PromptGuard.SystemRole(u), t, i, j) { NoSystemRole(u, e, b, i, j); }
      ThirdIsSystemRole(u);
    }
    AllCleanMeans(u, t);
    hide PatternClean;
    forall n: nat | n < 7 && n != 3 ensures PatternClean(u, n, t) <==> PatternClean(u, n, e) {
      PhraseClean(u, n, e, b);
    }
  }

  lemma {:induction false} AllCleanMeans(u: Table, s: string)
    ensures Substitution.AllClean(u, PromptGuard.Patterns(u), s) <==> forall n: nat | n < 7 :: PatternClean(u, n, s)
  {
    hide Clean;
    ThirdIsSystemRole(u);
    hide PromptGuard.Patterns;
    if Substitution.AllClean(u, PromptGuard.Patterns(u), s) {
      forall n: nat | n < 7 ensures PatternClean(u, n, s) {}
    }
    if forall n: nat | n < 7 :: PatternClean(u, n, s) {
      forall k | 0 <= k < 7 ensures Clean(u, PromptGuard.Patterns(u)[k], s) { assert PatternClean(u, k, s); }
    }
  }

  ghost predicate PatternClean(u: Table, n: nat, s: string)
    requires n < 7
  {
    Clean(u, PromptGuard.Patterns(u)[n], s)
  }

  lemma {:induction false} ThirdIsSystemRole(u: Table)
    ensures |PromptGuard.Patterns(u)| == 7 && PromptGuard.Patterns(u)[3] == PromptGuard.SystemRole(u)
  {
  }

  lemma {:induction false} PhraseClean(u: Table, n: nat, e: string, b: string)
    requires u.Valid() && n < 7 && n != 3 && Framed(OPENING, e, b) && Calm(b)
    ensures PatternClean(u, n, OPENING + e + b) <==> PatternClean(u, n, e)
  {
    ThirdIsSystemRole(u);
    hide Calm, Framed, Matches, PromptGuard.Patterns, UsesLineStart;
    var p, t, a := PromptGuard.Patterns(u)[n], OPENING + e + b, |OPENING|;
    PhraseIsLineFree(u, n);
    forall i, j ensures Matches(u, p, t, i, j) ==> Matches(u, p, e, i - a, j - a) {
      if Matches(u, p, t, i, j) {
        PhraseLiesInside(u, n, e, b, i, j);
        InsideIsMatch(u, p, OPENING, e, b, i, j);
      }
    }
    forall i, j ensures Matches(u, p, e, i, j) ==> Matches(u, p, t, i + a, j + a) {
      if Matches(u, p, e, i, j) { InsideIsMatch(u, p, OPENING, e, b, i + a, j + a); }
    }
  }

  lemma {:induction false} PhraseIsLineFree(u: Table, n: nat)
    requires u.Valid() && n < 7 && n != 3
    ensures !UsesLineStart(PromptGuard.Patterns(u)[n])
  {
    hide Word, PromptGuard.Target, PromptGuard.Colon, Avoids, UsesBound, Table.Valid;
    PromptGuard.PlainTarget(u);
    PromptGuard.PlainColon(u);
    forall w ensures !UsesLineStart(Word(u, w)) { WordIsContextFree(u, w); }
    assert !UsesLineStart(Cat(PromptGuard.Target(u), Word(u, " instructions")));
    assert !UsesLineStart(PromptGuard.ActAsCore(u)) by {
      assert !UsesLineStart(Cat(Word(u, "a"), Maybe(Word(u, "n"))));
      assert !UsesLineStart(PromptGuard.ActAsCore(u).right);
    }
    assert !UsesLineStart(Cat(PromptGuard.ActAsCore(u), Bound));
    assert !UsesLineStart(Cat(PromptGuard.YouAreNowCore(u), Bound));
    assert !UsesLineStart(Cat(Maybe(Word(u, "system ")), Word(u, "prompt")));
  }

  /** What the extraction node reads from a printed stub, sanitizer included, is what was printed. */
  lemma {:induction false} PrintSanitizeExtract(u: Table, e: string, f: string, gross: nat, net: nat, debt: nat)
    requires u.Valid() && PayPeriods(f).Some? && IsEmployer(u, e) && LabelFree(u, e) && InjectionFree(u, e)
    ensures Extract(u, PromptGuard.Sanitized(u, BuildPayStubText(e, f, gross, net, debt))) == Some(Extracted(
              TwelfthOfYear(gross as real / 100.0, f),
              TwelfthOfYear(net as real / 100.0, f),
              debt as real / 100.0, Some(e), f, 0.95))
  {
    hide Extract, BuildPayStubText, PromptGuard.Sanitized, LabelFree, InjectionFree, PayPeriods, TwelfthOfYear;
    MultipliersArePeriods(0.0, f);
    SanitizerKeepsStub(u, e, f, gross, net, debt);
    ExtractionUndoesPrinting(u, e, f, gross, net, debt);
  }
}
