/**
 What redaction is about, character by character: email addresses, social security numbers, phone numbers and
 card numbers as stretches of a text, with no regular expression in sight.
 */
module PiiShapes {
  import opened Wrappers
  import opened CharTable
  import opened PiiRedaction
  import opened Regex
  import opened Substitution

  // ----- The four shapes -----

  predicate LocalChar(c: char) {
    IsAsciiLetter(c) || IsAsciiDigit(c) || c == '.' || c == '_' || c == '%' || c == '+' || c == '-'
  }

  predicate DomainChar(c: char) { IsAsciiLetter(c) || IsAsciiDigit(c) || c == '.' || c == '-' }

  /** `local@domain.tld`, with the at sign and the last dot at the given places. */
  predicate EmailAt(s: string, i: int, at: int, dot: int, j: int) {
    && 0 <= i < at && at + 1 < dot && dot + 3 <= j <= |s|
    && (forall k | i <= k < at :: LocalChar(s[k]))
    && s[at] == '@'
    && (forall k | at < k < dot :: DomainChar(s[k]))
    && s[dot] == '.'
    && forall k | dot < k < j :: IsAsciiLetter(s[k])
  }

  predicate DigitsAt(u: Table, s: string, i: int, n: nat) {
    0 <= i && i + n <= |s| && forall k | i <= k < i + n :: s[k] in u.digits
  }

  /** No word goes on to the left of `i`, and none to the right of `j`. */
  predicate Alone(u: Table, s: string, i: int, j: int) { !WordAt(u, s, i - 1) && !WordAt(u, s, j) }

  /** `ddd-dd-dddd` on its own. */
  predicate SsnAt(u: Table, s: string, i: int) {
    && DigitsAt(u, s, i, 3) && DigitsAt(u, s, i + 4, 2) && DigitsAt(u, s, i + 7, 4)
    && s[i + 3] == '-' && s[i + 6] == '-'
    && Alone(u, s, i, i + 11)
  }

  /** From `a` to `b` there is nothing, or this one character. */
  predicate Perhaps(s: string, a: int, b: int, c: char) {
    0 <= a <= b <= |s| && (b == a || (b == a + 1 && s[a] == c))
  }

  /** From `a` to `b` there is nothing, or a hyphen, a point or white space. */
  predicate Gap(u: Table, s: string, a: int, b: int) {
    0 <= a <= b <= |s| && (b == a || (b == a + 1 && (s[a] == '-' || s[a] == '.' || s[a] in u.spaces)))
  }

  /** Nothing, or a country code: a `1`, perhaps with a plus sign before it and a separator behind it. */
  ghost predicate CodeAt(u: Table, s: string, i: int, a: int) {
    || i == a
    || (exists one :: Perhaps(s, i, one, '+') && 0 <= one < |s| && s[one] == '1' && Gap(u, s, one + 1, a))
  }

  /** From `start` on: three digits, three digits and four, perhaps a bracket behind the first, perhaps separated. */
  predicate NumberAt(u: Table, s: string, start: int, close: int, second: int, third: int) {
    && DigitsAt(u, s, start, 3) && Perhaps(s, start + 3, close, ')') && Gap(u, s, close, second)
    && DigitsAt(u, s, second, 3) && Gap(u, s, second + 3, third)
    && DigitsAt(u, s, third, 4)
  }

  /** A phone number between word boundaries, perhaps with a country code and an opening bracket. */
  ghost predicate PhoneAt(u: Table, s: string, i: int, open: int, start: int, close: int, second: int, third: int) {
    && CodeAt(u, s, i, open) && Perhaps(s, open, start, '(')
    && NumberAt(u, s, start, close, second, third)
    && AtBoundary(u, s, i) && AtBoundary(u, s, third + 4)
  }

  /** `n` digits from `i` to `j`, each perhaps with a blank or hyphen behind it. */
  predicate SpacedDigits(u: Table, s: string, i: int, j: int, n: nat)
    decreases n
  {
    if n == 0 then 0 <= i == j <= |s|
    else
      && 0 <= i < |s| && s[i] in u.digits
      && (SpacedDigits(u, s, i + 1, j, n - 1)
          || (i + 1 < |s| && (s[i + 1] == ' ' || s[i + 1] == '-') && SpacedDigits(u, s, i + 2, j, n - 1)))
  }

  /** A card number: 13 to 16 such digits between word boundaries. */
  predicate CardAt(u: Table, s: string, i: int, j: int, n: nat) {
    13 <= n <= 16 && SpacedDigits(u, s, i, j, n) && AtBoundary(u, s, i) && AtBoundary(u, s, j)
  }

  ghost predicate HasEmail(s: string) { exists i, at, dot, j :: EmailAt(s, i, at, dot, j) }

  ghost predicate HasSsn(u: Table, s: string) { exists i :: SsnAt(u, s, i) }

  ghost predicate HasPhone(u: Table, s: string) {
    exists i, open, start, close, second, third :: PhoneAt(u, s, i, open, start, close, second, third)
  }

  ghost predicate HasCard(u: Table, s: string) { exists i, j, n: nat :: CardAt(u, s, i, j, n) }

  /** The text holds something personal. */
  ghost predicate Personal(u: Table, s: string) {
    HasEmail(s) || HasSsn(u, s) || HasPhone(u, s) || HasCard(u, s)
  }

  // ----- The parts of the patterns, spelled out -----

  lemma {:induction false} OneMeans(u: Table, cs: set<char>, s: string, i: int, j: int)
    ensures Matches(u, One(cs), s, i, j) <==> 0 <= i < |s| && j == i + 1 && s[i] in cs
    ensures Matches(u, Maybe(One(cs)), s, i, j) <==>
            0 <= i <= j <= |s| && (j == i || (j == i + 1 && s[i] in cs))
  {
  }

  lemma {:induction false} ManyMeans(u: Table, cs: set<char>, least: nat, s: string, i: int, j: int)
    ensures Matches(u, Many(cs, least), s, i, j) <==>
            0 <= i <= j <= |s| && i + least <= j && forall k | i <= k < j :: s[k] in cs
  {
  }

  lemma {:induction false} EmptyMeans(u: Table, s: string, i: int, j: int)
    ensures Matches(u, Empty, s, i, j) <==> 0 <= i == j <= |s|
    ensures Matches(u, Bound, s, i, j) <==> 0 <= i == j <= |s| && AtBoundary(u, s, i)
  {
  }

  lemma {:induction false} DigitsMean(u: Table, n: nat, s: string, i: int, j: int)
    ensures Matches(u, Digits(u, n), s, i, j) <==> j == i + n && DigitsAt(u, s, i, n)
    decreases n
  {
    hide Matches;
    if n == 0 {
      EmptyMeans(u, s, i, j);
    } else {
      var one, rest := One(u.digits.Keys), Digits(u, n - 1);
      OneMeans(u, u.digits.Keys, s, i, i + 1);
      DigitsMean(u, n - 1, s, i + 1, j);
      if Matches(u, Cat(one, rest), s, i, j) {
        var m := Split(u, one, rest, s, i, j);
        OneMeans(u, u.digits.Keys, s, i, m);
      }
      if j == i + n && DigitsAt(u, s, i, n) { Joined(u, one, rest, s, i, i + 1, j); }
    }
  }

  /** An anchored pattern is its body between boundaries. */
  lemma {:induction false} AnchoredMeans(u: Table, p: Pattern, s: string, i: int, j: int)
    ensures Matches(u, Anchored(p), s, i, j) <==> Matches(u, p, s, i, j) && AtBoundary(u, s, i) && AtBoundary(u, s, j)
  {
    hide Matches, AtBoundary;
    if Matches(u, Anchored(p), s, i, j) {
      var m := Split(u, Bound, Cat(p, Bound), s, i, j);
      var n := Split(u, p, Bound, s, m, j);
      EmptyMeans(u, s, i, m);
      EmptyMeans(u, s, n, j);
    }
    if Matches(u, p, s, i, j) && AtBoundary(u, s, i) && AtBoundary(u, s, j) {
      MatchIsInside(u, p, s, i, j);
      EmptyMeans(u, s, i, i);
      EmptyMeans(u, s, j, j);
      Joined(u, p, Bound, s, i, j, j);
      Joined(u, Bound, Cat(p, Bound), s, i, i, j);
    }
  }

  lemma {:induction false} MatchIsInside(u: Table, p: Pattern, s: string, i: int, j: int)
    requires Matches(u, p, s, i, j)
    ensures 0 <= i <= j <= |s|
  {
  }

  /** Where the parts of a row meet. */
  ghost predicate Meets(u: Table, ps: seq<Pattern>, s: string, cuts: seq<int>) {
    |cuts| == |ps| + 1 && forall k | 0 <= k < |ps| :: Matches(u, ps[k], s, cuts[k], cuts[k + 1])
  }

  lemma {:induction false} RowMeets(u: Table, ps: seq<Pattern>, s: string, i: int, j: int) returns (cuts: seq<int>)
    requires Matches(u, Row(ps), s, i, j)
    ensures Meets(u, ps, s, cuts) && cuts[0] == i && cuts[|ps|] == j
    decreases |ps|
  {
    hide Matches;
    if ps == [] {
      EmptyMeans(u, s, i, j);
      cuts := [i];
    } else {
      var m := Split(u, ps[0], Row(ps[1..]), s, i, j);
      var rest := RowMeets(u, ps[1..], s, m, j);
      cuts := [i] + rest;
    }
  }

  lemma {:induction false} MeetsRow(u: Table, ps: seq<Pattern>, s: string, cuts: seq<int>)
    requires Meets(u, ps, s, cuts) && 0 <= cuts[|ps|] <= |s|
    ensures Matches(u, Row(ps), s, cuts[0], cuts[|ps|])
    decreases |ps|
  {
    hide Matches;
    if ps == [] {
      EmptyMeans(u, s, cuts[0], cuts[0]);
    } else {
      forall k | 0 <= k < |ps[1..]| ensures Matches(u, ps[1..][k], s, cuts[1..][k], cuts[1..][k + 1]) {
        assert Matches(u, ps[k + 1], s, cuts[k + 1], cuts[k + 2]);
      }
      MeetsRow(u, ps[1..], s, cuts[1..]);
      Joined(u, ps[0], Row(ps[1..]), s, cuts[0], cuts[1], cuts[|ps|]);
    }
  }

  // ----- Email -----

  lemma {:induction false} EmailCharacters()
    ensures forall c :: c in EMAIL_LOCAL <==> LocalChar(c)
    ensures forall c :: c in EMAIL_DOMAIN <==> DomainChar(c)
    ensures forall c :: c in LETTERS <==> IsAsciiLetter(c)
  {
  }

  /** The stretch is an email address. */
  ghost predicate EmailIs(s: string, i: int, j: int) { exists at, dot :: EmailAt(s, i, at, dot, j) }

  /** The matches of the first pattern are the email addresses. */
  lemma {:induction false} EmailMatches(u: Table, s: string, i: int, j: int)
    ensures Matches(u, Email(), s, i, j) <==> EmailIs(s, i, j)
  {
    hide Matches, Row, EmailAt;
    var ps := EmailParts();
    if Matches(u, Email(), s, i, j) {
      var c := RowMeets(u, ps, s, i, j);
      EmailPartsMean(u, s, c);
    }
    forall at, dot | EmailAt(s, i, at, dot, j) ensures Matches(u, Email(), s, i, j) {
      var c := [i, at, at + 1, dot, dot + 1, j];
      EmailPartsMean(u, s, c);
      EmailInside(s, i, at, dot, j);
      MeetsRow(u, ps, s, c);
    }
  }

  lemma {:induction false} EmailInside(s: string, i: int, at: int, dot: int, j: int)
    requires EmailAt(s, i, at, dot, j)
    ensures 0 <= i < at < dot < j <= |s|
  {
  }

  lemma {:induction false} EmailMeans(u: Table, s: string)
    ensures Clean(u, Email(), s) <==> !HasEmail(s)
  {
    hide Matches, Email, EmailAt;
    forall i, j ensures Matches(u, Email(), s, i, j) <==> EmailIs(s, i, j) { EmailMatches(u, s, i, j); }
    forall i, at, dot, j | EmailAt(s, i, at, dot, j) ensures EmailIs(s, i, j) {
    }
  }

  lemma {:induction false} EmailPartsMean(u: Table, s: string, c: seq<int>)
    requires |c| == 6
    ensures Meets(u, EmailParts(), s, c) <==>
            EmailAt(s, c[0], c[1], c[3], c[5]) && c[2] == c[1] + 1 && c[4] == c[3] + 1
  {
    hide Matches, LocalChar, DomainChar, LETTERS, EMAIL_LOCAL, EMAIL_DOMAIN;
    EmailCharacters();
    ManyMeans(u, EMAIL_LOCAL, 1, s, c[0], c[1]);
    OneMeans(u, {'@'}, s, c[1], c[2]);
    ManyMeans(u, EMAIL_DOMAIN, 1, s, c[2], c[3]);
    OneMeans(u, {'.'}, s, c[3], c[4]);
    ManyMeans(u, LETTERS, 2, s, c[4], c[5]);
    var ps := EmailParts();
    assert Meets(u, ps, s, c) <==>
      && Matches(u, ps[0], s, c[0], c[1]) && Matches(u, ps[1], s, c[1], c[2]) && Matches(u, ps[2], s, c[2], c[3])
      && Matches(u, ps[3], s, c[3], c[4]) && Matches(u, ps[4], s, c[4], c[5]);
  }

  // ----- SSN -----

  /** The matches of the second pattern are the social security numbers. */
  lemma {:induction false} SsnMatches(u: Table, s: string, i: int, j: int)
    requires u.Valid()
    ensures Matches(u, Ssn(u), s, i, j) <==> SsnAt(u, s, i) && j == i + 11
  {
    hide Matches, Row, Digits, Table.Valid, DigitsAt, AtBoundary, Alone;
    var ps := SsnParts(u);
    AnchoredMeans(u, Row(ps), s, i, j);
    if Matches(u, Row(ps), s, i, j) {
      var c := RowMeets(u, ps, s, i, j);
      SsnPartsMean(u, s, c);
      LastDigit(u, s, i, 3);
      LastDigit(u, s, i + 7, 4);
      Edges(u, s, i, j);
    }
    if SsnAt(u, s, i) {
      var c := [i, i + 3, i + 4, i + 6, i + 7, i + 11];
      SsnPartsMean(u, s, c);
      LastDigit(u, s, i, 3);
      LastDigit(u, s, i + 7, 4);
      MeetsRow(u, ps, s, c);
      Edges(u, s, i, i + 11);
    }
  }

  lemma {:induction false} SsnMeans(u: Table, s: string)
    requires u.Valid()
    ensures Clean(u, Ssn(u), s) <==> !HasSsn(u, s)
  {
    hide Matches, Ssn, SsnAt, Table.Valid;
    forall i, j ensures Matches(u, Ssn(u), s, i, j) <==> SsnAt(u, s, i) && j == i + 11 { SsnMatches(u, s, i, j); }
    forall i | SsnAt(u, s, i) ensures Matches(u, Ssn(u), s, i, i + 11) { SsnMatches(u, s, i, i + 11); }
  }

  lemma {:induction false} SsnPartsMean(u: Table, s: string, c: seq<int>)
    requires |c| == 6
    ensures Meets(u, SsnParts(u), s, c) <==>
            && c == [c[0], c[0] + 3, c[0] + 4, c[0] + 6, c[0] + 7, c[0] + 11]
            && DigitsAt(u, s, c[0], 3) && DigitsAt(u, s, c[0] + 4, 2) && DigitsAt(u, s, c[0] + 7, 4)
            && s[c[0] + 3] == '-' && s[c[0] + 6] == '-'
  {
    hide Matches, Digits;
    DigitsMean(u, 3, s, c[0], c[1]);
    OneMeans(u, {'-'}, s, c[1], c[2]);
    DigitsMean(u, 2, s, c[2], c[3]);
    OneMeans(u, {'-'}, s, c[3], c[4]);
    DigitsMean(u, 4, s, c[4], c[5]);
    var ps := SsnParts(u);
    assert Meets(u, ps, s, c) <==>
      && Matches(u, ps[0], s, c[0], c[1]) && Matches(u, ps[1], s, c[1], c[2]) && Matches(u, ps[2], s, c[2], c[3])
      && Matches(u, ps[3], s, c[3], c[4]) && Matches(u, ps[4], s, c[4], c[5]);
  }

  lemma {:induction false} LastDigit(u: Table, s: string, i: int, n: nat)
    requires u.Valid() && DigitsAt(u, s, i, n) && n > 0
    ensures 0 <= i && i + n <= |s| && WordAt(u, s, i) && WordAt(u, s, i + n - 1)
  {
  }

  /** Between words characters inside and none outside there are boundaries. */
  lemma {:induction false} Edges(u: Table, s: string, i: int, j: int)
    ensures WordAt(u, s, i) && WordAt(u, s, j - 1) ==>
              (Alone(u, s, i, j) <==> AtBoundary(u, s, i) && AtBoundary(u, s, j))
  {
  }

  // ----- Phone -----

  lemma {:induction false} GapMeans(u: Table, s: string, a: int, b: int)
    ensures Matches(u, Optional(Separators(u)), s, a, b) <==> Gap(u, s, a, b)
  {
    OneMeans(u, Separators(u), s, a, b);
  }

  lemma {:induction false} PerhapsMeans(u: Table, s: string, a: int, b: int, c: char)
    ensures Matches(u, Optional({c}), s, a, b) <==> Perhaps(s, a, b, c)
  {
    OneMeans(u, {c}, s, a, b);
  }

  lemma {:induction false} CodeMeans(u: Table, s: string, i: int, a: int)
    ensures Matches(u, CountryCode(u), s, i, a) <==> CodeAt(u, s, i, a) && 0 <= i <= a <= |s|
  {
    hide Separators, Optional, Gap, Perhaps;
    var sign, digit, gap := Optional({'+'}), One({'1'}), Optional(Separators(u));
    var code := Cat(sign, Cat(digit, gap));
    assert Matches(u, CountryCode(u), s, i, a) <==> Matches(u, code, s, i, a) || (0 <= i == a <= |s|);
    hide Matches;
    if Matches(u, code, s, i, a) {
      var one := Split(u, sign, Cat(digit, gap), s, i, a);
      var m := Split(u, digit, gap, s, one, a);
      MatchIsInside(u, code, s, i, a);
      PerhapsMeans(u, s, i, one, '+');
      OneMeans(u, {'1'}, s, one, m);
      GapMeans(u, s, m, a);
    }
    forall one | Perhaps(s, i, one, '+') && 0 <= one < |s| && s[one] == '1' && Gap(u, s, one + 1, a)
      ensures Matches(u, code, s, i, a)
    {
      PerhapsMeans(u, s, i, one, '+');
      OneMeans(u, {'1'}, s, one, one + 1);
      GapMeans(u, s, one + 1, a);
      Joined(u, digit, gap, s, one, one + 1, a);
      Joined(u, sign, Cat(digit, gap), s, i, one, a);
    }
  }

  /** The stretch is a phone number. */
  ghost predicate PhoneIs(u: Table, s: string, i: int, j: int) {
    exists open, start, close, second, third ::
      PhoneAt(u, s, i, open, start, close, second, third) && j == third + 4
  }

  /** The matches of the third pattern are the phone numbers. */
  lemma {:induction false} PhoneMatches(u: Table, s: string, i: int, j: int)
    ensures Matches(u, Phone(u), s, i, j) <==> PhoneIs(u, s, i, j)
  {
    hide Matches, Row, Digits, Gap, DigitsAt, AtBoundary, Separators, CountryCode, Optional, CodeAt, Perhaps, NumberAt;
    var ps := PhoneParts(u);
    AnchoredMeans(u, Row(ps), s, i, j);
    if Matches(u, Phone(u), s, i, j) {
      var c := RowMeets(u, ps, s, i, j);
      PhonePartsMean(u, s, c);
      assert PhoneAt(u, s, c[0], c[1], c[2], c[4], c[5], c[7]);
    }
    forall open, start, close, second, third | PhoneAt(u, s, i, open, start, close, second, third) && j == third + 4
      ensures Matches(u, Phone(u), s, i, j)
    {
      var c := [i, open, start, start + 3, close, second, second + 3, third, third + 4];
      PhonePartsMean(u, s, c);
      CodeInside(u, s, i, open, start);
      NumberEnds(u, s, start, close, second, third);
      MeetsRow(u, ps, s, c);
    }
  }

  lemma {:induction false} PhoneMeans(u: Table, s: string)
    ensures Clean(u, Phone(u), s) <==> !HasPhone(u, s)
  {
    hide Matches, Phone, PhoneAt;
    forall i, j ensures Matches(u, Phone(u), s, i, j) <==> PhoneIs(u, s, i, j) { PhoneMatches(u, s, i, j); }
    forall i, open, start, close, second, third | PhoneAt(u, s, i, open, start, close, second, third)
      ensures PhoneIs(u, s, i, third + 4)
    {
    }
  }

  lemma {:induction false} CodeInside(u: Table, s: string, i: int, open: int, start: int)
    requires CodeAt(u, s, i, open) && Perhaps(s, open, start, '(')
    ensures 0 <= i <= open <= |s|
  {
  }

  lemma {:induction false} NumberEnds(u: Table, s: string, start: int, close: int, second: int, third: int)
    requires NumberAt(u, s, start, close, second, third)
    ensures 0 <= start && third + 4 <= |s|
  {
  }

  lemma {:induction false} PhonePartsMean(u: Table, s: string, c: seq<int>)
    requires |c| == 9
    ensures Meets(u, PhoneParts(u), s, c) <==>
            && CodeAt(u, s, c[0], c[1]) && Perhaps(s, c[1], c[2], '(')
            && NumberAt(u, s, c[2], c[4], c[5], c[7])
            && c[3] == c[2] + 3 && c[6] == c[5] + 3 && c[8] == c[7] + 4 && 0 <= c[0] <= c[1] <= |s|
  {
    hide Matches, Digits, Gap, Separators, CountryCode, Optional, CodeAt, Perhaps;
    CodeMeans(u, s, c[0], c[1]);
    PerhapsMeans(u, s, c[1], c[2], '(');
    DigitsMean(u, 3, s, c[2], c[3]);
    PerhapsMeans(u, s, c[3], c[4], ')');
    GapMeans(u, s, c[4], c[5]);
    DigitsMean(u, 3, s, c[5], c[6]);
    GapMeans(u, s, c[6], c[7]);
    DigitsMean(u, 4, s, c[7], c[8]);
    hide DigitsAt;
    var ps := PhoneParts(u);
    assert Meets(u, ps, s, c) <==>
      && Matches(u, ps[0], s, c[0], c[1]) && Matches(u, ps[1], s, c[1], c[2]) && Matches(u, ps[2], s, c[2], c[3])
      && Matches(u, ps[3], s, c[3], c[4]) && Matches(u, ps[4], s, c[4], c[5]) && Matches(u, ps[5], s, c[5], c[6])
      && Matches(u, ps[6], s, c[6], c[7]) && Matches(u, ps[7], s, c[7], c[8]);
  }

  // ----- Card -----

  lemma {:induction false} CardDigitMeans(u: Table, s: string, i: int, j: int)
    ensures Matches(u, CardDigit(u), s, i, j) <==>
            && 0 <= i < |s| && s[i] in u.digits
            && (j == i + 1 || (j == i + 2 && i + 1 < |s| && (s[i + 1] == ' ' || s[i + 1] == '-')))
  {
    hide Matches;
    var digit, gap := One(u.digits.Keys), Maybe(One({' ', '-'}));
    if Matches(u, CardDigit(u), s, i, j) {
      var m := Split(u, digit, gap, s, i, j);
      OneMeans(u, u.digits.Keys, s, i, m);
      OneMeans(u, {' ', '-'}, s, m, j);
    }
    OneMeans(u, u.digits.Keys, s, i, i + 1);
    OneMeans(u, {' ', '-'}, s, i + 1, j);
    if Matches(u, digit, s, i, i + 1) && Matches(u, gap, s, i + 1, j) { Joined(u, digit, gap, s, i, i + 1, j); }
  }

  lemma {:induction false} TimesMeans(u: Table, n: nat, s: string, i: int, j: int)
    ensures Matches(u, Times(CardDigit(u), n), s, i, j) <==> SpacedDigits(u, s, i, j, n)
    decreases n
  {
    hide Matches, CardDigit;
    if n == 0 {
      EmptyMeans(u, s, i, j);
    } else {
      var one, rest := CardDigit(u), Times(CardDigit(u), n - 1);
      CardDigitMeans(u, s, i, i + 1);
      CardDigitMeans(u, s, i, i + 2);
      TimesMeans(u, n - 1, s, i + 1, j);
      TimesMeans(u, n - 1, s, i + 2, j);
      if Matches(u, Cat(one, rest), s, i, j) {
        var m := Split(u, one, rest, s, i, j);
        CardDigitMeans(u, s, i, m);
      }
      if Matches(u, one, s, i, i + 1) && Matches(u, rest, s, i + 1, j) { Joined(u, one, rest, s, i, i + 1, j); }
      if Matches(u, one, s, i, i + 2) && Matches(u, rest, s, i + 2, j) { Joined(u, one, rest, s, i, i + 2, j); }
    }
  }

  /** Some number of digits up to `n`. */
  ghost predicate UpToDigits(u: Table, s: string, i: int, j: int, n: nat) {
    exists k: nat :: k <= n && SpacedDigits(u, s, i, j, k)
  }

  lemma {:induction false} UpToMeans(u: Table, n: nat, s: string, i: int, j: int)
    ensures Matches(u, UpTo(CardDigit(u), n), s, i, j) <==> UpToDigits(u, s, i, j, n)
    decreases n
  {
    hide Matches, CardDigit;
    EmptyMeans(u, s, i, j);
    assert SpacedDigits(u, s, i, j, 0) <==> 0 <= i == j <= |s|;
    if n > 0 {
      var one, rest := CardDigit(u), UpTo(CardDigit(u), n - 1);
      MaybeMeans(u, Cat(one, rest), s, i, j);
      if Matches(u, Cat(one, rest), s, i, j) {
        var m := Split(u, one, rest, s, i, j);
        CardDigitMeans(u, s, i, m);
        UpToMeans(u, n - 1, s, m, j);
        var k: nat :| k <= n - 1 && SpacedDigits(u, s, m, j, k);
        assert SpacedDigits(u, s, i, j, k + 1);
      }
      forall k: nat | k <= n && SpacedDigits(u, s, i, j, k) ensures Matches(u, UpTo(CardDigit(u), n), s, i, j) {
        if k > 0 {
          var m := if SpacedDigits(u, s, i + 1, j, k - 1) then i + 1 else i + 2;
          CardDigitMeans(u, s, i, m);
          UpToMeans(u, n - 1, s, m, j);
          Joined(u, one, rest, s, i, m, j);
        }
      }
    }
  }

  lemma {:induction false} MaybeMeans(u: Table, p: Pattern, s: string, i: int, j: int)
    ensures Matches(u, Maybe(p), s, i, j) <==> Matches(u, p, s, i, j) || 0 <= i == j <= |s|
  {
  }

  lemma {:induction false} DigitsJoin(u: Table, s: string, i: int, m: int, j: int, a: nat, b: nat)
    requires SpacedDigits(u, s, i, m, a) && SpacedDigits(u, s, m, j, b)
    ensures SpacedDigits(u, s, i, j, a + b)
    decreases a
  {
    if a > 0 {
      if SpacedDigits(u, s, i + 1, m, a - 1) { DigitsJoin(u, s, i + 1, m, j, a - 1, b); }
      else { DigitsJoin(u, s, i + 2, m, j, a - 1, b); }
    }
  }

  lemma {:induction false} DigitsPart(u: Table, s: string, i: int, j: int, a: nat, b: nat) returns (m: int)
    requires SpacedDigits(u, s, i, j, a + b)
    ensures SpacedDigits(u, s, i, m, a) && SpacedDigits(u, s, m, j, b)
    decreases a
  {
    if a == 0 {
      m := i;
      DigitsInside(u, s, i, j, b);
    } else if SpacedDigits(u, s, i + 1, j, a - 1 + b) {
      m := DigitsPart(u, s, i + 1, j, a - 1, b);
    } else {
      m := DigitsPart(u, s, i + 2, j, a - 1, b);
    }
  }

  lemma {:induction false} DigitsInside(u: Table, s: string, i: int, j: int, n: nat)
    requires SpacedDigits(u, s, i, j, n)
    ensures 0 <= i <= j <= |s|
    decreases n
  {
    if n > 0 {
      if SpacedDigits(u, s, i + 1, j, n - 1) { DigitsInside(u, s, i + 1, j, n - 1); }
      else { DigitsInside(u, s, i + 2, j, n - 1); }
    }
  }

  /** The stretch is a card number. */
  ghost predicate CardIs(u: Table, s: string, i: int, j: int) { exists n: nat :: CardAt(u, s, i, j, n) }

  /** The matches of the fourth pattern are the card numbers. */
  lemma {:induction false} CardMatches(u: Table, s: string, i: int, j: int)
    ensures Matches(u, Card(u), s, i, j) <==> CardIs(u, s, i, j)
  {
    hide Matches, Times, UpTo, SpacedDigits, AtBoundary, CardDigit;
    var a, b := Times(CardDigit(u), 13), UpTo(CardDigit(u), 3);
    AnchoredMeans(u, Cat(a, b), s, i, j);
    if Matches(u, Card(u), s, i, j) {
      var m := Split(u, a, b, s, i, j);
      TimesMeans(u, 13, s, i, m);
      UpToMeans(u, 3, s, m, j);
      var k: nat :| k <= 3 && SpacedDigits(u, s, m, j, k);
      DigitsJoin(u, s, i, m, j, 13, k);
      assert CardAt(u, s, i, j, 13 + k);
    }
    forall n: nat | CardAt(u, s, i, j, n) ensures Matches(u, Card(u), s, i, j) {
      var m := DigitsPart(u, s, i, j, 13, n - 13);
      TimesMeans(u, 13, s, i, m);
      UpToMeans(u, 3, s, m, j);
      Joined(u, a, b, s, i, m, j);
    }
  }

  lemma {:induction false} CardMeans(u: Table, s: string)
    ensures Clean(u, Card(u), s) <==> !HasCard(u, s)
  {
    hide Matches, Card, CardAt;
    forall i, j ensures Matches(u, Card(u), s, i, j) <==> CardIs(u, s, i, j) { CardMatches(u, s, i, j); }
    forall i, j, n: nat | CardAt(u, s, i, j, n) ensures CardIs(u, s, i, j) {
    }
  }

  // ----- Main results -----

  lemma {:induction false} PersonalMeans(u: Table, s: string)
    requires u.Valid()
    ensures AllClean(u, Patterns(u), s) <==> !Personal(u, s)
  {
    hide Clean, Email, Ssn, Phone, Card, HasEmail, HasSsn, HasPhone, HasCard;
    EmailMeans(u, s);
    SsnMeans(u, s);
    PhoneMeans(u, s);
    CardMeans(u, s);
    var ps := Patterns(u);
    assert AllClean(u, ps, s) <==> Clean(u, ps[0], s) && Clean(u, ps[1], s) && Clean(u, ps[2], s) && Clean(u, ps[3], s);
  }

  /** Redaction changes a text exactly when it holds an email address, an SSN, a phone number or a card number. */
  lemma {:induction false} ChangedIffPersonal(u: Table, text: string)
    requires u.Valid()
    ensures Redacted(u, text) != text <==> Personal(u, text)
  {
    hide Personal, Redacted, AllClean;
    PersonalMeans(u, text);
    UnchangedIffNothingMatches(u, text);
  }

  /** None of them is anywhere in what comes out. */
  lemma {:induction false} NothingPersonalIsLeft(u: Table, text: string)
    requires u.Valid()
    ensures !Personal(u, Redacted(u, text))
  {
    hide Personal, Redacted, AllClean;
    NothingIsLeft(u, text);
    PersonalMeans(u, Redacted(u, text));
  }

  /** A ten-digit number on its own is a phone number, with any separators, whatever bracket stands before it. */
  lemma {:induction false} PlainNumberIsPersonal(
      u: Table, s: string, start: int, close: int, second: int, third: int)
    requires u.Valid() && NumberAt(u, s, start, close, second, third) && Alone(u, s, start, third + 4)
    ensures Personal(u, s) && Redacted(u, s) != s
  {
    hide Redacted, HasEmail, HasSsn, HasCard, Gap;
    LastDigit(u, s, start, 3);
    LastDigit(u, s, third, 4);
    Edges(u, s, start, third + 4);
    assert CodeAt(u, s, start, start) && Perhaps(s, start, start, '(');
    hide NumberAt, CodeAt, Perhaps, AtBoundary;
    assert PhoneAt(u, s, start, start, start, close, second, third);
    ChangedIffPersonal(u, s);
  }

  // ----- What is replaced, and by what -----

  lemma {:induction false} SameThere(t: string, a: nat, x: string)
    requires StandsAt(t, a, x)
    ensures forall k | 0 <= k < |x| :: t[a + k] == x[k]
  {
    forall k | 0 <= k < |x| ensures t[a + k] == x[k] { assert t[a..a + |x|][k] == x[k]; }
  }

  lemma {:induction false} EmailByItself(u: Table, t: string, a: nat, x: string)
    requires StandsAt(t, a, x) && Matches(u, Email(), t, a, a + |x|)
    ensures HasEmail(x)
  {
    hide Matches, Email, LocalChar, DomainChar;
    SameThere(t, a, x);
    EmailMatches(u, t, a, a + |x|);
    var at, dot :| EmailAt(t, a, at, dot, a + |x|);
    forall k | 0 <= k < at - a ensures LocalChar(x[k]) { assert LocalChar(t[a + k]); }
    forall k | at - a < k < dot - a ensures DomainChar(x[k]) { assert DomainChar(t[a + k]); }
    forall k | dot - a < k < |x| ensures IsAsciiLetter(x[k]) { assert IsAsciiLetter(t[a + k]); }
    assert EmailAt(x, 0, at - a, dot - a, |x|);
  }

  lemma {:induction false} DigitsMove(u: Table, t: string, a: nat, x: string, i: int, n: nat)
    requires StandsAt(t, a, x) && DigitsAt(u, t, i, n) && a <= i && i + n <= a + |x|
    ensures DigitsAt(u, x, i - a, n)
  {
    SameThere(t, a, x);
    forall k | i - a <= k < i - a + n ensures x[k] in u.digits { assert t[a + k] in u.digits; }
  }

  lemma {:induction false} SsnByItself(u: Table, t: string, a: nat, x: string)
    requires u.Valid() && StandsAt(t, a, x) && Matches(u, Ssn(u), t, a, a + |x|)
    ensures HasSsn(u, x)
  {
    hide Matches, Ssn, DigitsAt;
    SameThere(t, a, x);
    SsnMatches(u, t, a, a + |x|);
    DigitsMove(u, t, a, x, a, 3);
    DigitsMove(u, t, a, x, a + 4, 2);
    DigitsMove(u, t, a, x, a + 7, 4);
    assert SsnAt(u, x, 0);
  }

  lemma {:induction false} NumberMoves(
      u: Table, t: string, a: nat, x: string, start: int, close: int, second: int, third: int)
    requires StandsAt(t, a, x) && NumberAt(u, t, start, close, second, third) && a <= start && third + 4 == a + |x|
    ensures NumberAt(u, x, start - a, close - a, second - a, third - a) && 0 <= start - a < |x|
  {
    SameThere(t, a, x);
    DigitsMove(u, t, a, x, start, 3);
    DigitsMove(u, t, a, x, second, 3);
    DigitsMove(u, t, a, x, third, 4);
  }

  lemma {:induction false} NumberIsWord(u: Table, s: string, start: int, close: int, second: int, third: int)
    requires u.Valid() && NumberAt(u, s, start, close, second, third)
    ensures 0 <= start && third + 4 <= |s| && WordAt(u, s, start) && WordAt(u, s, third + 3)
  {
    LastDigit(u, s, start, 3);
    LastDigit(u, s, third, 4);
  }

  lemma {:induction false} CodeMoves(u: Table, t: string, a: nat, x: string, one: int, open: int, start: int)
    requires StandsAt(t, a, x) && a <= one < start <= a + |x|
    requires t[one] == '1' && Gap(u, t, one + 1, open) && Perhaps(t, open, start, '(')
    ensures CodeAt(u, x, one - a, open - a) && Perhaps(x, open - a, start - a, '(')
  {
    SameThere(t, a, x);
    assert Perhaps(x, one - a, one - a, '+') && Gap(u, x, one - a + 1, open - a);
  }

  lemma {:induction false} SignIsNoWord(u: Table, t: string, a: nat, one: int)
    requires u.Valid() && (Perhaps(t, a, one, '+') || Perhaps(t, a, one, '('))
    ensures a <= one <= a + 1 && (one > a ==> !WordAt(u, t, a))
    ensures one < |t| && t[one] == '1' ==> WordAt(u, t, one)
  {
    assert IsAscii('+') && IsAscii('(') && IsAscii('1');
  }

  /** A match of the phone pattern has a phone number in it, perhaps without its bracket or plus sign. */
  lemma {:induction false} PhoneByItself(u: Table, t: string, a: nat, x: string)
    requires u.Valid() && StandsAt(t, a, x) && Matches(u, Phone(u), t, a, a + |x|)
    ensures HasPhone(u, x)
  {
    hide Matches, Phone, Table.Valid, Gap, NumberAt, Perhaps;
    SameThere(t, a, x);
    PhoneMatches(u, t, a, a + |x|);
    var open, bracket, close, second, third :|
      PhoneAt(u, t, a, open, bracket, close, second, third) && a + |x| == third + 4;
    CodeInside(u, t, a, open, bracket);
    PerhapsInside(t, open, bracket, '(');
    NumberMoves(u, t, a, x, bracket, close, second, third);
    var start, last := bracket - a, third - a;
    NumberIsWord(u, x, start, close - a, second - a, last);
    if open > a {
      var one :| Perhaps(t, a, one, '+') && 0 <= one < |t| && t[one] == '1' && Gap(u, t, one + 1, open);
      SignIsNoWord(u, t, a, one);
      GapInside(u, t, one + 1, open);
      CodeMoves(u, t, a, x, one, open, bracket);
      assert PhoneAt(u, x, one - a, open - a, start, close - a, second - a, last);
    } else {
      SignIsNoWord(u, t, a, bracket);
      PerhapsNothing(x, start, '(');
      assert PhoneAt(u, x, start, start, start, close - a, second - a, last);
    }
  }

  lemma {:induction false} PerhapsInside(s: string, a: int, b: int, c: char)
    requires Perhaps(s, a, b, c)
    ensures a <= b
  {
  }

  lemma {:induction false} PerhapsNothing(s: string, a: int, c: char)
    requires 0 <= a <= |s|
    ensures Perhaps(s, a, a, c)
  {
  }

  lemma {:induction false} GapInside(u: Table, s: string, a: int, b: int)
    requires Gap(u, s, a, b)
    ensures a <= b
  {
  }

  // A card number may be cut with the blank or hyphen behind its last digit.

  lemma {:induction false} SpacedDigitsMove(u: Table, t: string, a: nat, x: string, i: int, j: int, n: nat)
    requires StandsAt(t, a, x) && SpacedDigits(u, t, i, j, n) && a <= i && j <= a + |x|
    ensures SpacedDigits(u, x, i - a, j - a, n)
    decreases n
  {
    if n > 0 {
      var m := if SpacedDigits(u, t, i + 1, j, n - 1) then i + 1 else i + 2;
      DigitsInside(u, t, m, j, n - 1);
      SameThere(t, a, x);
      assert t[a + (i - a)] == x[i - a];
      if m == i + 2 { assert t[a + (i + 1 - a)] == x[i + 1 - a]; }
      SpacedDigitsMove(u, t, a, x, m, j, n - 1);
    }
  }

  /** The digits end at a digit, or with one blank or hyphen behind it. */
  lemma {:induction false} LastGap(u: Table, s: string, i: int, j: int, n: nat) returns (e: int)
    requires u.Valid() && n > 0 && SpacedDigits(u, s, i, j, n)
    ensures SpacedDigits(u, s, i, e, n) && 0 <= i < e <= j <= |s| && s[i] in u.digits && s[e - 1] in u.digits
    ensures e == j || (e == j - 1 && (s[e] == ' ' || s[e] == '-'))
    decreases n
  {
    DigitsInside(u, s, i, j, n);
    if n == 1 {
      e := i + 1;
      assert SpacedDigits(u, s, e, e, 0);
    } else {
      var m := if SpacedDigits(u, s, i + 1, j, n - 1) then i + 1 else i + 2;
      e := LastGap(u, s, m, j, n - 1);
    }
  }

  /** A match of the card pattern has a card number in it, perhaps without the blank or hyphen at its end. */
  lemma {:induction false} CardByItself(u: Table, t: string, a: nat, x: string)
    requires u.Valid() && StandsAt(t, a, x) && Matches(u, Card(u), t, a, a + |x|)
    ensures HasCard(u, x)
  {
    hide Matches, Card, SpacedDigits, Table.Valid;
    CardMatches(u, t, a, a + |x|);
    var n: nat :| CardAt(u, t, a, a + |x|, n);
    SpacedDigitsMove(u, t, a, x, a, a + |x|, n);
    var e := LastGap(u, x, 0, |x|, n);
    DigitEdges(u, x, e);
    assert CardAt(u, x, 0, e, n);
  }

  lemma {:induction false} DigitEdges(u: Table, x: string, e: int)
    requires u.Valid() && 0 < e <= |x| && x[0] in u.digits && x[e - 1] in u.digits
    requires e == |x| || x[e] == ' ' || x[e] == '-'
    ensures AtBoundary(u, x, 0) && AtBoundary(u, x, e)
  {
    assert IsAscii(' ') && IsAscii('-');
  }

  lemma {:induction false} MatchIsPersonal(u: Table, n: nat, x: string)
    requires u.Valid() && n < 4 && MatchedSomewhere(u, Patterns(u)[n], x)
    ensures Personal(u, x)
  {
    hide Matches, Email, Ssn, Phone, Card, HasEmail, HasSsn, HasPhone, HasCard, StandsAt;
    var t: string, a: nat :| StandsAt(t, a, x) && Matches(u, Patterns(u)[n], t, a, a + |x|);
    match n
    case 0 => EmailByItself(u, t, a, x);
    case 1 => SsnByItself(u, t, a, x);
    case 2 => PhoneByItself(u, t, a, x);
    case 3 => CardByItself(u, t, a, x);
  }

  /** The pieces make up the text, every cut is personal on its own, and with the mask for each cut they give `out`. */
  ghost predicate MasksPersonal(u: Table, text: string, ps: seq<Piece>, out: string) {
    && Original(ps) == text && Replaced(ps, "***REDACTED***") == out
    && forall k | 0 <= k < |ps| && ps[k].Cut? :: Personal(u, ps[k].text)
  }

  /** Redaction masks personal stretches, and copies everything else. */
  lemma {:induction false} OnlyPersonalIsMasked(u: Table, text: string)
    requires u.Valid()
    ensures exists ps :: MasksPersonal(u, text, ps, Redacted(u, text))
  {
    hide Insulates, Passes, CutUp, Whole, Original, Replaced, MatchedSomewhere, Personal, Patterns;
    var qs := Patterns(u);
    var ps := CutUp(u, qs, REDACTED, Whole(text));
    FourPatterns(u);
    forall n | 0 <= n < 4 ensures Insulates(u, qs[n], REDACTED, qs[n]) { LaterPassesInsulate(u, n, n); }
    WholeIsKept(text, REDACTED);
    WholeCutsNothing(u, text);
    PassesCutInput(u, qs, REDACTED, Whole(text));
    PassesCutMatches(u, [], qs, REDACTED, Whole(text));
    assert [] + qs == qs;
    forall k | 0 <= k < |ps| && ps[k].Cut? ensures Personal(u, ps[k].text) {
      var n :| 0 <= n < 4 && MatchedSomewhere(u, qs[n], ps[k].text);
      MatchIsPersonal(u, n, ps[k].text);
    }
    assert MasksPersonal(u, text, ps, Redacted(u, text));
  }

  lemma {:induction false} FourPatterns(u: Table)
    ensures |Patterns(u)| == 4
  {
  }

  // ----- An address is masked whole -----

  lemma {:induction false} EndsAfterNext(u: Table, b: Pattern, s: string, i: nat, starts: seq<nat>)
    requires Between(starts, i, |s|) && starts != []
    ensures EndsAfter(u, b, s, i, starts) == Ends(u, b, s, starts[0]) + EndsAfter(u, b, s, i, starts[1..])
  {
  }

  /** The first of the starts from which `b` matches decides. */
  lemma {:induction false} FirstDecides(u: Table, b: Pattern, s: string, i: nat, starts: seq<nat>, n: nat)
    requires Between(starts, i, |s|) && n < |starts| && MatchEnd(u, b, s, starts[n]).Some?
    requires forall k | 0 <= k < n :: MatchEnd(u, b, s, starts[k]).None?
    ensures EndsAfter(u, b, s, i, starts) != []
    ensures Some(EndsAfter(u, b, s, i, starts)[0]) == MatchEnd(u, b, s, starts[n])
    decreases n
  {
    hide Ends, EndsAfter;
    EndsAfterNext(u, b, s, i, starts);
    if n > 0 {
      assert MatchEnd(u, b, s, starts[0]).None?;
      FirstDecides(u, b, s, i, starts[1..], n - 1);
    }
  }

  lemma {:induction false} CountdownAt(hi: int, lo: nat, k: nat)
    requires k <= hi - lo
    ensures k < |Countdown(hi, lo)| && Countdown(hi, lo)[k] == hi - k
    decreases k
  {
    if k > 0 { CountdownAt(hi - 1, lo, k - 1); }
  }

  lemma {:induction false} EndsOfCat(u: Table, cs: set<char>, least: nat, b: Pattern, s: string, i: nat)
    requires i <= |s|
    ensures Between(Countdown(i + RunLength(cs, s, i), i + least), i, |s|)
    ensures Ends(u, Cat(Many(cs, least), b), s, i)
            == EndsAfter(u, b, s, i, Countdown(i + RunLength(cs, s, i), i + least))
  {
    hide EndsAfter, RunLength, Countdown;
  }

  lemma {:induction false} GreedyThen(u: Table, cs: set<char>, least: nat, b: Pattern, s: string, i: nat, m: nat)
    requires i <= |s| && i + least <= m <= i + RunLength(cs, s, i)
    requires MatchEnd(u, b, s, m).Some? && forall k | m < k <= i + RunLength(cs, s, i) :: MatchEnd(u, b, s, k).None?
    ensures MatchEnd(u, Cat(Many(cs, least), b), s, i) == MatchEnd(u, b, s, m)
  {
    hide Ends, EndsAfter, Countdown, RunLength;
    EndsOfCat(u, cs, least, b, s, i);
    var hi := i + RunLength(cs, s, i);
    var starts := Countdown(hi, i + least);
    forall k: nat | k <= hi - m ensures k < |starts| && starts[k] == hi - k { CountdownAt(hi, i + least, k); }
    assert |starts| > hi - m by { CountdownAt(hi, i + least, hi - m); }
    forall k: nat | k < hi - m ensures MatchEnd(u, b, s, starts[k]).None? { assert starts[k] == hi - k; }
    FirstDecides(u, b, s, i, starts, hi - m);
  }

  lemma {:induction false} OneThen(u: Table, c: char, b: Pattern, s: string, i: nat)
    requires i < |s| && s[i] == c
    ensures MatchEnd(u, Cat(One({c}), b), s, i) == MatchEnd(u, b, s, i + 1)
  {
    var one := One({c});
    assert Ends(u, one, s, i) == [i + 1];
    assert EndsAfter(u, b, s, i, [i + 1]) == Ends(u, b, s, i + 1) + EndsAfter(u, b, s, i, [i + 1][1..]);
    assert [i + 1][1..] == [] && EndsAfter(u, b, s, i, []) == [];
  }

  /** `\.[a-zA-Z]{2,}` */
  function Ending(): Pattern { Row([One({'.'}), Many(LETTERS, 2)]) }

  /** A point and two letters stand at `k`. */
  predicate EndingAt(s: string, k: int) {
    0 <= k && k + 2 < |s| && s[k] == '.' && IsAsciiLetter(s[k + 1]) && IsAsciiLetter(s[k + 2])
  }

  lemma {:induction false} EndingMeans(u: Table, s: string, k: nat)
    requires k <= |s|
    ensures MatchEnd(u, Ending(), s, k).Some? <==> EndingAt(s, k)
    ensures EndingAt(s, k) ==> MatchEnd(u, Ending(), s, k) == Some(k + 1 + RunLength(LETTERS, s, k + 1))
  {
    hide Matches, Ends, MatchEnd;
    EmailCharacters();
    var ps := [One({'.'}), Many(LETTERS, 2)];
    if MatchEnd(u, Ending(), s, k).Some? {
      MatchEndIsMatch(u, Ending(), s, k);
      var c := RowMeets(u, ps, s, k, MatchEnd(u, Ending(), s, k).value);
      OneMeans(u, {'.'}, s, c[0], c[1]);
      assert Matches(u, ps[1], s, c[1], c[2]);
      ManyMeans(u, LETTERS, 2, s, c[1], c[2]);
    }
    if EndingAt(s, k) {
      var e := k + 1 + RunLength(LETTERS, s, k + 1);
      assert RunLength(LETTERS, s, k + 1) >= 2;
      LettersEnd(u, s, k + 1);
      OneThen(u, '.', Row([Many(LETTERS, 2)]), s, k);
      assert ps[1..] == [Many(LETTERS, 2)];
    }
  }

  lemma {:induction false} LettersEnd(u: Table, s: string, i: nat)
    requires i <= |s| && RunLength(LETTERS, s, i) >= 2
    ensures MatchEnd(u, Row([Many(LETTERS, 2)]), s, i) == Some(i + RunLength(LETTERS, s, i))
  {
    hide RunLength;
    var m := i + RunLength(LETTERS, s, i);
    assert [Many(LETTERS, 2)][1..] == [];
    assert Row([Many(LETTERS, 2)]) == Cat(Many(LETTERS, 2), Empty);
    assert MatchEnd(u, Empty, s, m) == Some(m);
    GreedyThen(u, LETTERS, 2, Empty, s, i, m);
  }

  /** The last place up to `hi` with a point and two letters behind it. */
  lemma {:induction false} LastEnding(s: string, lo: int, hi: int) returns (k: int)
    requires EndingAt(s, lo) && lo <= hi
    ensures lo <= k <= hi && EndingAt(s, k) && forall m | k < m <= hi :: !EndingAt(s, m)
    decreases hi
  {
    if lo == hi || EndingAt(s, hi) { k := hi; } else { k := LastEnding(s, lo, hi - 1); }
  }

  /** What the email pattern takes from `i` on reaches as far as any address that starts there. */
  lemma {:induction false} AddressIsTakenWhole(u: Table, s: string, i: nat, at: int, dot: int, j: int)
    requires EmailAt(s, i, at, dot, j)
    ensures MatchEnd(u, Email(), s, i).Some? && MatchEnd(u, Email(), s, i).value >= j
  {
    hide Matches, MatchEnd, Ends, RunLength, Row, LETTERS, EMAIL_LOCAL, EMAIL_DOMAIN;
    EmailCharacters();
    assert at == i + RunLength(EMAIL_LOCAL, s, i) by {
      RunStops(EMAIL_LOCAL, s, i, at);
    }
    var d := at + 1;
    var run := RunLength(EMAIL_DOMAIN, s, d);
    assert dot < d + run by { RunReaches(EMAIL_DOMAIN, s, d, dot); }
    var last := LastEnding(s, dot, d + run);
    forall k: nat | last < k <= d + run ensures MatchEnd(u, Ending(), s, k).None? { EndingMeans(u, s, k); }
    EndingMeans(u, s, last);
    GreedyThen(u, EMAIL_DOMAIN, 1, Ending(), s, d, last);
    var rest := Cat(Many(EMAIL_DOMAIN, 1), Ending());
    OneThen(u, '@', rest, s, at);
    GreedyThen(u, EMAIL_LOCAL, 1, Cat(One({'@'}), rest), s, i, at);
    EmailIsRow();
    var e := last + 1 + RunLength(LETTERS, s, last + 1);
    if dot == last { RunReachesEnd(LETTERS, s, last + 1, j); } else { NoPointInside(s, dot, j, last); }
  }

  lemma {:induction false} NoPointInside(s: string, dot: int, j: int, last: int)
    requires 0 <= dot < last < |s| && s[last] == '.' && j <= |s| && forall k | dot < k < j :: IsAsciiLetter(s[k])
    ensures j <= last
  {
    assert !IsAsciiLetter(s[last]);
  }

  lemma {:induction false} EmailIsRow()
    ensures Email() == Cat(Many(EMAIL_LOCAL, 1), Cat(One({'@'}), Cat(Many(EMAIL_DOMAIN, 1), Ending())))
  {
    var ps := EmailParts();
    assert ps[1..][1..] == ps[2..] && ps[2..][1..] == ps[3..];
    assert ps[3..] == [One({'.'}), Many(LETTERS, 2)];
    assert Row(ps) == Cat(ps[0], Row(ps[1..])) && Row(ps[1..]) == Cat(ps[1], Row(ps[2..]));
    assert Row(ps[2..]) == Cat(ps[2], Row(ps[3..]));
  }

  lemma {:induction false} RunStops(cs: set<char>, s: string, i: nat, m: int)
    requires i <= m < |s| && s[m] !in cs && forall k | i <= k < m :: s[k] in cs
    ensures m == i + RunLength(cs, s, i)
  {
    var r := RunLength(cs, s, i);
  }

  lemma {:induction false} RunReaches(cs: set<char>, s: string, i: nat, m: int)
    requires i <= m < |s| && forall k | i <= k <= m :: s[k] in cs
    ensures m < i + RunLength(cs, s, i)
  {
    var r := RunLength(cs, s, i);
  }

  lemma {:induction false} RunReachesEnd(cs: set<char>, s: string, i: nat, m: int)
    requires i <= m <= |s| && forall k | i <= k < m :: s[k] in cs
    ensures m <= i + RunLength(cs, s, i)
  {
    var r := RunLength(cs, s, i);
  }
}
