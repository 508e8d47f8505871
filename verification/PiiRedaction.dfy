/** `redact_text` (infrastructure/pii_redaction.py): four ordered replacement passes. */
module PiiRedaction {
  import opened CharTable
  import opened Regex
  import opened Substitution

  const REDACTED := "***REDACTED***"

  const EMAIL_LOCAL := LETTERS_AND_DIGITS + {'.', '_', '%', '+', '-'}
  const EMAIL_DOMAIN := LETTERS_AND_DIGITS + {'.', '-'}

  /** `[a-zA-Z0-9._%+\-]+@[a-zA-Z0-9.\-]+\.[a-zA-Z]{2,}` */
  function EmailParts(): seq<Pattern> {
    [Many(EMAIL_LOCAL, 1), One({'@'}), Many(EMAIL_DOMAIN, 1), One({'.'}), Many(LETTERS, 2)]
  }

  function Email(): Pattern { Row(EmailParts()) }

  function Digits(u: Table, n: nat): Pattern { Times(One(u.digits.Keys), n) }

  function Optional(cs: set<char>): Pattern { Maybe(One(cs)) }

  /** `\d{3}-\d{2}-\d{4}` */
  function SsnParts(u: Table): seq<Pattern> {
    [Digits(u, 3), One({'-'}), Digits(u, 2), One({'-'}), Digits(u, 4)]
  }

  function Ssn(u: Table): Pattern { Anchored(Row(SsnParts(u))) }

  /** `[-.\s]` */
  function Separators(u: Table): set<char> { {'-', '.'} + u.spaces }

  /** `(?:\+?1[-.\s]?)?` */
  function CountryCode(u: Table): Pattern {
    Maybe(Cat(Optional({'+'}), Cat(One({'1'}), Optional(Separators(u)))))
  }

  /** `(?:\+?1[-.\s]?)?\(?\d{3}\)?[-.\s]?\d{3}[-.\s]?\d{4}` */
  function PhoneParts(u: Table): seq<Pattern> {
    [CountryCode(u), Optional({'('}), Digits(u, 3), Optional({')'}), Optional(Separators(u)),
     Digits(u, 3), Optional(Separators(u)), Digits(u, 4)]
  }

  function Phone(u: Table): Pattern { Anchored(Row(PhoneParts(u))) }

  function CardDigit(u: Table): Pattern { Cat(One(u.digits.Keys), Maybe(One({' ', '-'}))) }

  /** `\b(?:\d[ -]?){13,16}\b` */
  function Card(u: Table): Pattern {
    Anchored(Cat(Times(CardDigit(u), 13), UpTo(CardDigit(u), 3)))
  }

  function Patterns(u: Table): seq<Pattern> {
    [Email(), Ssn(u), Phone(u), Card(u)]
  }

  /** What `redact_text` returns: the four passes in order. */
  function Redacted(u: Table, text: string): string {
    Passes(u, Patterns(u), REDACTED, text)
  }

  /** `redact_text`, with the source's early exit and its loop over the patterns. */
  method RedactText(u: Table, text: string) returns (redacted: string)
    ensures redacted == Redacted(u, text)
  {
    if text == "" {
      EmptyStays(u, Patterns(u));
      return text;
    }
    redacted := text;
    var patterns := Patterns(u);
    for n := 0 to |patterns|
      invariant Passes(u, patterns[n..], REDACTED, redacted) == Redacted(u, text)
    {
      assert patterns[n..][1..] == patterns[n + 1..];
      redacted := Sub(u, patterns[n], REDACTED, redacted);
    }
  }

  lemma {:induction false} EmptyStays(u: Table, qs: seq<Pattern>)
    ensures Passes(u, qs, REDACTED, "") == ""
  {
    if qs != [] {
      assert Sub(u, qs[0], REDACTED, "") == "";
      EmptyStays(u, qs[1..]);
    }
  }

  // ----- The four patterns, as the substitution theory sees them -----

  /** The placeholder has no digit and no `@`, one of which every pattern needs. */
  const STOP: set<char> := {'*', 'R', 'E', 'D', 'A', 'C', 'T'}

  /** What the theory needs of a pattern body. */
  ghost predicate Redactable(p: Pattern) {
    Avoids(p, {'*'}) && Demands(p, STOP) && !UsesLineStart(p) && !UsesBound(p)
  }

  /** A harmless part: it avoids the placeholder's `*` and looks at no context. */
  ghost predicate Plain(p: Pattern) {
    Avoids(p, {'*'}) && !UsesLineStart(p) && !UsesBound(p)
  }

  lemma {:induction false} DigitsOutside(u: Table)
    requires u.Valid()
    ensures u.digits.Keys !! STOP && u.spaces !! STOP
  {
    assert forall c | c in STOP :: IsAscii(c) && !IsAsciiDigit(c) && !IsAsciiSpace(c);
  }

  lemma {:induction false} DigitsAreRedactable(u: Table, n: nat)
    requires u.Valid() && n > 0
    ensures Redactable(Digits(u, n))
  {
    DigitsOutside(u);
    TimesAvoids(One(u.digits.Keys), n, {'*'});
    RepetitionIsContextFree(One(u.digits.Keys), n);
    assert Digits(u, n) == Cat(One(u.digits.Keys), Times(One(u.digits.Keys), n - 1));
  }

  /** A row of plain parts, one of which demands a digit or an `@`, is redactable. */
  lemma {:induction false} RowIsRedactable(ps: seq<Pattern>, k: nat)
    requires k < |ps| && (forall m | 0 <= m < |ps| :: Plain(ps[m])) && Demands(ps[k], STOP)
    ensures Redactable(Row(ps))
  {
    RowAvoids(ps, {'*'});
    RowDemands(ps, k, STOP);
    RowIsContextFree(ps);
  }

  lemma {:induction false} EmailIsRedactable()
    ensures Redactable(Email())
  {
    RowIsRedactable(EmailParts(), 1);
  }

  lemma {:induction false} SsnIsRedactable(u: Table)
    requires u.Valid()
    ensures Redactable(Row(SsnParts(u)))
  {
    hide Digits, Row;
    DigitsAreRedactable(u, 2);
    DigitsAreRedactable(u, 3);
    DigitsAreRedactable(u, 4);
    RowIsRedactable(SsnParts(u), 0);
  }

  lemma {:induction false} PlainOne(cs: set<char>)
    requires '*' !in cs
    ensures Plain(One(cs)) && Plain(Optional(cs))
  {
    var p := One(cs);
    assert Avoids(p, {'*'}) && !UsesBound(p) && !UsesLineStart(p);
  }

  lemma {:induction false} PlainCat(a: Pattern, b: Pattern)
    requires Plain(a) && Plain(b)
    ensures Plain(Cat(a, b)) && Plain(Maybe(Cat(a, b)))
  {
    var p := Cat(a, b);
    assert Avoids(p, {'*'}) && !UsesBound(p) && !UsesLineStart(p);
  }

  lemma {:induction false} SeparatorsArePlain(u: Table)
    requires u.Valid()
    ensures Plain(Optional(Separators(u))) && Plain(CountryCode(u))
  {
    hide Plain, Optional;
    DigitsOutside(u);
    assert '*' in STOP;
    var sep := Optional(Separators(u));
    PlainOne(Separators(u));
    PlainOne({'1'});
    PlainOne({'+'});
    PlainCat(One({'1'}), sep);
    PlainCat(Optional({'+'}), Cat(One({'1'}), sep));
  }

  lemma {:induction false} PhoneIsRedactable(u: Table)
    requires u.Valid()
    ensures Redactable(Row(PhoneParts(u)))
  {
    hide Digits, Row, CountryCode, Separators;
    SeparatorsArePlain(u);
    DigitsAreRedactable(u, 3);
    DigitsAreRedactable(u, 4);
    PlainOne({'('});
    PlainOne({')'});
    RowIsRedactable(PhoneParts(u), 2);
  }

  lemma {:induction false} CardIsRedactable(u: Table)
    requires u.Valid()
    ensures Redactable(Cat(Times(CardDigit(u), 13), UpTo(CardDigit(u), 3)))
  {
    hide UpTo;
    DigitsOutside(u);
    TimesAvoids(CardDigit(u), 13, {'*'});
    UpToAvoids(CardDigit(u), 3, {'*'});
    RepetitionIsContextFree(CardDigit(u), 13);
    RepetitionIsContextFree(CardDigit(u), 3);
    var t := Times(CardDigit(u), 13);
    assert Demands(t, STOP) by {
      assert t == Cat(CardDigit(u), Times(CardDigit(u), 12));
      assert Demands(CardDigit(u), STOP);
    }
  }

  /** What the theory needs of a whole pattern: as of its body, but it may be anchored. */
  ghost predicate Fit(p: Pattern) {
    Avoids(p, {'*'}) && Demands(p, STOP) && !UsesLineStart(p) && (UsesBound(p) ==> Bordered(p))
  }

  lemma {:induction false} AnchoredIsFit(p: Pattern)
    requires Redactable(p)
    ensures Fit(Anchored(p)) && Bordered(Anchored(p))
  {
    BoundKeeps(p, Bound);
    BoundKeeps(Bound, Cat(p, Bound));
  }

  lemma {:induction false} BoundKeeps(a: Pattern, b: Pattern)
    requires Avoids(a, {'*'}) && Avoids(b, {'*'}) && (Demands(a, STOP) || Demands(b, STOP))
    requires !UsesLineStart(a) && !UsesLineStart(b)
    ensures Avoids(Cat(a, b), {'*'}) && Demands(Cat(a, b), STOP) && !UsesLineStart(Cat(a, b))
  {
  }

  lemma {:induction false} AllFit(u: Table, n: nat)
    requires u.Valid() && n < 4
    ensures Fit(Patterns(u)[n])
    ensures if n == 0 then !UsesBound(Patterns(u)[n]) else Bordered(Patterns(u)[n])
  {
    hide Avoids, Demands, Row, EmailParts, SsnParts, PhoneParts, Times, UpTo, UsesLineStart, UsesBound;
    EmailIsRedactable();
    SsnIsRedactable(u);
    PhoneIsRedactable(u);
    CardIsRedactable(u);
    AnchoredIsFit(Row(SsnParts(u)));
    AnchoredIsFit(Row(PhoneParts(u)));
    AnchoredIsFit(Cat(Times(CardDigit(u), 13), UpTo(CardDigit(u), 3)));
  }

  lemma {:induction false} PlaceholderShape()
    ensures |REDACTED| == 14 && {REDACTED[0], REDACTED[13]} == {'*'}
    ensures forall c | c in REDACTED :: c in STOP
  {
  }

  /** No pass brings about a match of its own pattern or of an earlier one. */
  lemma {:induction false} LaterPassesInsulate(u: Table, n: nat, k: nat)
    requires u.Valid() && n <= k < 4
    ensures Insulates(u, Patterns(u)[k], REDACTED, Patterns(u)[n])
  {
    assert |Patterns(u)| == 4;
    hide Patterns, Avoids, Demands, Clean, UsesBound, UsesLineStart, Bordered;
    AllFit(u, n);
    AllFit(u, k);
    var p := Patterns(u)[n];
    DemandsLess(p, STOP);
    PlaceholderShape();
    DemandsRefuse(u, p, STOP, REDACTED);
  }

  // ----- Main results -----

  /** Nothing that looks like an email, an SSN, a phone or a card number is left anywhere. */
  lemma {:induction false} NothingIsLeft(u: Table, text: string)
    requires u.Valid()
    ensures AllClean(u, Patterns(u), Redacted(u, text))
  {
    hide Insulates, Clean, Passes;
    forall n | 0 <= n < 4 ensures Clean(u, Patterns(u)[n], Redacted(u, text)) {
      forall k | n <= k < 4 ensures Insulates(u, Patterns(u)[k], REDACTED, Patterns(u)[n]) {
        LaterPassesInsulate(u, n, k);
      }
      PassesClean(u, Patterns(u), REDACTED, n, text);
    }
  }

  /** The text comes back unchanged exactly when no pattern matches anywhere in it. */
  lemma {:induction false} UnchangedIffNothingMatches(u: Table, text: string)
    requires u.Valid()
    ensures Redacted(u, text) == text <==> AllClean(u, Patterns(u), text)
  {
    hide Avoids, Demands, Passes, Clean;
    forall n | 0 <= n < 4 ensures Avoids(Patterns(u)[n], {'*'}) && Demands(Patterns(u)[n], {}) {
      AllFit(u, n);
      DemandsLess(Patterns(u)[n], STOP);
    }
    PassesMarks(u, Patterns(u), REDACTED, '*', text);
  }

  /** Redacting redacted text changes nothing, whatever the text. */
  lemma {:induction false} RedactionIsIdempotent(u: Table, text: string)
    requires u.Valid()
    ensures Redacted(u, Redacted(u, text)) == Redacted(u, text)
  {
    hide Redacted, Patterns;
    NothingIsLeft(u, text);
    UnchangedIffNothingMatches(u, Redacted(u, text));
  }

  // ----- Something that is redacted -----

  const SSN := "123-45-6789"

  lemma {:induction false} SsnShape()
    ensures |SSN| == 11 && SSN[3] == '-' && SSN[6] == '-'
    ensures forall k | 0 <= k < 11 && k != 3 && k != 6 :: IsAsciiDigit(SSN[k])
  {
  }

  lemma {:induction false} DigitRun(u: Table, s: string, i: nat, n: nat)
    requires i + n <= |s| && forall k | i <= k < i + n :: s[k] in u.digits
    ensures Matches(u, Digits(u, n), s, i, i + n)
    decreases n
  {
    if n > 0 {
      DigitRun(u, s, i + 1, n - 1);
      assert Matches(u, One(u.digits.Keys), s, i, i + 1);
    }
  }

  /** A row from part `k` on: that part, then the rest. */
  lemma {:induction false} RowJoined(u: Table, ps: seq<Pattern>, k: nat, s: string, i: int, m: int, j: int)
    requires k < |ps| && Matches(u, ps[k], s, i, m) && Matches(u, Row(ps[k + 1..]), s, m, j)
    ensures Matches(u, Row(ps[k..]), s, i, j)
  {
    hide Matches;
    assert ps[k..][1..] == ps[k + 1..];
    Joined(u, ps[k], Row(ps[k + 1..]), s, i, m, j);
  }

  lemma {:induction false} SsnCharacters(u: Table, s: string, i: nat)
    requires u.Valid() && i + 11 <= |s| && s[i..i + 11] == SSN
    ensures s[i + 3] == '-' && s[i + 6] == '-'
    ensures forall m | i <= m < i + 11 && m != i + 3 && m != i + 6 :: s[m] in u.digits && s[m] in u.words
  {
    SsnShape();
    forall m | i <= m < i + 11 ensures s[m] == SSN[m - i] { assert s[m] == s[i..i + 11][m - i]; }
    forall m | i <= m < i + 11 && m != i + 3 && m != i + 6 ensures s[m] in u.digits && s[m] in u.words {
      assert IsAsciiDigit(SSN[m - i]);
    }
  }

  lemma {:induction false} SsnSigns(u: Table, s: string, i: nat)
    requires i + 11 <= |s| && s[i + 3] == '-' && s[i + 6] == '-'
    ensures Matches(u, One({'-'}), s, i + 3, i + 4) && Matches(u, One({'-'}), s, i + 6, i + 7)
    ensures Matches(u, Row([]), s, i + 11, i + 11)
  {
  }

  lemma {:induction false} SsnBody(u: Table, s: string, i: nat)
    requires u.Valid() && i + 11 <= |s| && s[i..i + 11] == SSN
    ensures Matches(u, Row(SsnParts(u)), s, i, i + 11)
  {
    hide Matches, Digits, Row, Table.Valid;
    SsnCharacters(u, s, i);
    SsnSigns(u, s, i);
    var ps := SsnParts(u);
    DigitRun(u, s, i, 3);
    DigitRun(u, s, i + 4, 2);
    DigitRun(u, s, i + 7, 4);
    assert ps[5..] == [] && ps[0..] == ps;
    RowJoined(u, ps, 4, s, i + 7, i + 11, i + 11);
    RowJoined(u, ps, 3, s, i + 6, i + 7, i + 11);
    RowJoined(u, ps, 2, s, i + 4, i + 6, i + 11);
    RowJoined(u, ps, 1, s, i + 3, i + 4, i + 11);
    RowJoined(u, ps, 0, s, i, i + 3, i + 11);
  }

  /** The number on its own, with no word character on either side, is a match of the second pattern. */
  lemma {:induction false} SsnMatches(u: Table, s: string, i: nat)
    requires u.Valid() && i + 11 <= |s| && s[i..i + 11] == SSN
    requires i > 0 ==> s[i - 1] !in u.words
    requires i + 11 < |s| ==> s[i + 11] !in u.words
    ensures Matches(u, Ssn(u), s, i, i + 11)
  {
    hide Row, Table.Valid;
    SsnCharacters(u, s, i);
    assert Matches(u, Bound, s, i, i) && Matches(u, Bound, s, i + 11, i + 11);
    hide Matches;
    SsnBody(u, s, i);
    Joined(u, Row(SsnParts(u)), Bound, s, i, i + 11, i + 11);
    Joined(u, Bound, Cat(Row(SsnParts(u)), Bound), s, i, i, i + 11);
  }

  /** A text with such a number is changed by redaction. */
  lemma {:induction false} SsnIsRedacted(u: Table, s: string, i: nat)
    requires u.Valid() && i + 11 <= |s| && s[i..i + 11] == SSN
    requires i > 0 ==> s[i - 1] !in u.words
    requires i + 11 < |s| ==> s[i + 11] !in u.words
    ensures Redacted(u, s) != s
  {
    hide Redacted, Ssn, Phone, Card, Email, Matches;
    SsnMatches(u, s, i);
    assert Patterns(u)[1] == Ssn(u);
    assert !Clean(u, Patterns(u)[1], s);
    UnchangedIffNothingMatches(u, s);
  }
}
