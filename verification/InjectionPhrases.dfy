/**
 What the sanitizer is about, word by word: the phrases it looks for as stretches of a text, with no regular
 expression in sight.
 */
module InjectionPhrases {
  import opened CharTable
  import opened PiiShapes
  import opened PromptGuard
  import opened PromptGuardGap
  import opened Regex
  import opened Substitution

  // ----- Phrases -----

  /** From `i` to `j` the text reads `w`, upper and lower case alike. */
  predicate Reads(u: Table, s: string, i: int, j: int, w: string) {
    0 <= i && j == i + |w| <= |s| && forall k | 0 <= k < |w| :: s[i + k] in u.Fold(w[k])
  }

  /** A choice of "all " or not, "the " or not, and one of "previous", "prior" and "above". */
  predicate IsTarget(x: string, y: string, z: string) {
    (x == "" || x == "all ") && (y == "" || y == "the ") && (z == "previous" || z == "prior" || z == "above")
  }

  /** "ignore all the previous instructions", and its eleven relatives */
  ghost predicate IgnoreAt(u: Table, s: string, i: int, j: int) {
    exists x, y, z :: IsTarget(x, y, z) && Reads(u, s, i, j, "ignore " + (x + (y + z) + " instructions"))
  }

  /** "disregard all the previous", and its eleven relatives */
  ghost predicate DisregardAt(u: Table, s: string, i: int, j: int) {
    exists x, y, z :: IsTarget(x, y, z) && Reads(u, s, i, j, "disregard " + (x + (y + z)))
  }

  /** "you are now" on its own */
  predicate YouAreNowAt(u: Table, s: string, i: int, j: int) {
    Reads(u, s, i, j, "you are now") && Alone(u, s, i, j)
  }

  predicate BlankAt(u: Table, s: string, i: int, j: int) {
    0 <= i <= j <= |s| && forall k | i <= k < j :: s[k] in u.spaces
  }

  /** `w`, perhaps white space, and a colon. */
  ghost predicate HeadingAt(u: Table, s: string, i: int, j: int, w: string) {
    exists m :: Reads(u, s, i, m, w) && BlankAt(u, s, m, j - 1) && 0 <= j - 1 < |s| && s[j - 1] == ':'
  }

  /** "system:" at the start of a line, perhaps with white space before it */
  ghost predicate SystemAt(u: Table, s: string, i: int, j: int) {
    && (i == 0 || (0 < i <= |s| && s[i - 1] == '\n'))
    && exists m :: BlankAt(u, s, i, m) && HeadingAt(u, s, m, j, "system")
  }

  /** "act as a", "act as an" or "act as the", on its own */
  predicate ActAsAt(u: Table, s: string, i: int, j: int) {
    && (Reads(u, s, i, j, "act as a") || Reads(u, s, i, j, "act as an") || Reads(u, s, i, j, "act as the"))
    && Alone(u, s, i, j)
  }

  predicate RevealAt(u: Table, s: string, i: int, j: int) {
    Reads(u, s, i, j, "reveal your prompt") || Reads(u, s, i, j, "reveal your system prompt")
  }

  /** The stretch is a phrase that the sanitizer takes away for good. */
  ghost predicate PlainInjectionAt(u: Table, s: string, i: int, j: int) {
    || IgnoreAt(u, s, i, j) || DisregardAt(u, s, i, j) || SystemAt(u, s, i, j)
    || HeadingAt(u, s, i, j, "new instructions") || RevealAt(u, s, i, j)
  }

  /** The stretch is an injection phrase. */
  ghost predicate InjectionAt(u: Table, s: string, i: int, j: int) {
    PlainInjectionAt(u, s, i, j) || YouAreNowAt(u, s, i, j) || ActAsAt(u, s, i, j)
  }

  /** A phrase in lower case is read wherever its letters stand, in either case. */
  lemma {:induction false} EitherCaseReads(u: Table, s: string, i: nat, w: string)
    requires u.Valid() && i + |w| <= |s|
    requires forall k | 0 <= k < |w| :: IsAscii(w[k]) && IsAscii(s[i + k]) && AsciiLower(s[i + k]) == w[k]
    ensures Reads(u, s, i, i + |w|, w)
  {
    forall k | 0 <= k < |w| ensures s[i + k] in u.Fold(w[k]) {
      if IsAsciiLetter(w[k]) {
        BothCases(u, w[k], s[i + k]);
      } else {
        assert s[i + k] == w[k];
      }
    }
  }

  lemma {:induction false} BothCases(u: Table, c: char, d: char)
    requires u.Valid() && IsAsciiLetter(c) && IsAscii(d) && AsciiLower(d) == c
    ensures d in u.Fold(c)
  {
    assert u.FoldsLetter(c);
    assert d == c || d == AsciiUpper(c);
  }

  // ----- The patterns, spelled out -----

  lemma {:induction false} WordReads(u: Table, w: string, s: string, i: int, j: int)
    ensures Matches(u, Word(u, w), s, i, j) <==> Reads(u, s, i, j, w)
  {
    WordMatches(u, w, s, i, j);
  }

  lemma {:induction false} ReadsBoth(u: Table, s: string, i: int, j: int, a: string, b: string)
    ensures Reads(u, s, i, j, a + b) <==> Reads(u, s, i, i + |a|, a) && Reads(u, s, i + |a|, j, b)
  {
    if Reads(u, s, i, j, a + b) {
      forall k | 0 <= k < |a| ensures s[i + k] in u.Fold(a[k]) { assert (a + b)[k] == a[k]; }
      forall k | 0 <= k < |b| ensures s[i + |a| + k] in u.Fold(b[k]) { assert (a + b)[|a| + k] == b[k]; }
    }
  }

  /** A word and what follows it. */
  lemma {:induction false} WordThen(u: Table, w: string, p: Pattern, s: string, i: int, j: int)
    ensures Matches(u, Cat(Word(u, w), p), s, i, j) <==>
            Reads(u, s, i, i + |w|, w) && Matches(u, p, s, i + |w|, j)
  {
    hide Matches, Reads;
    if Matches(u, Cat(Word(u, w), p), s, i, j) {
      var m := Split(u, Word(u, w), p, s, i, j);
      WordReads(u, w, s, i, m);
      ReadsLength(u, s, i, m, w);
    }
    WordReads(u, w, s, i, i + |w|);
    if Reads(u, s, i, i + |w|, w) && Matches(u, p, s, i + |w|, j) { Joined(u, Word(u, w), p, s, i, i + |w|, j); }
  }

  lemma {:induction false} ReadsLength(u: Table, s: string, i: int, j: int, w: string)
    requires Reads(u, s, i, j, w)
    ensures 0 <= i && j == i + |w| <= |s|
  {
  }

  lemma {:induction false} OrMeans(u: Table, a: Pattern, b: Pattern, s: string, i: int, j: int)
    ensures Matches(u, Or(a, b), s, i, j) <==> Matches(u, a, s, i, j) || Matches(u, b, s, i, j)
  {
  }

  /** Perhaps a word, and what follows it. */
  lemma {:induction false} PerhapsThen(u: Table, w: string, p: Pattern, s: string, i: int, j: int)
    ensures Matches(u, Cat(Maybe(Word(u, w)), p), s, i, j) <==>
            Matches(u, p, s, i, j) || (Reads(u, s, i, i + |w|, w) && Matches(u, p, s, i + |w|, j))
  {
    hide Matches, Reads;
    var q := Maybe(Word(u, w));
    if Matches(u, Cat(q, p), s, i, j) {
      var m := Split(u, q, p, s, i, j);
      MaybeMeans(u, Word(u, w), s, i, m);
      WordReads(u, w, s, i, m);
      if Reads(u, s, i, m, w) { ReadsLength(u, s, i, m, w); }
    }
    if Matches(u, p, s, i, j) {
      MatchIsInside(u, p, s, i, j);
      MaybeMeans(u, Word(u, w), s, i, i);
      Joined(u, q, p, s, i, i, j);
    }
    if Reads(u, s, i, i + |w|, w) && Matches(u, p, s, i + |w|, j) {
      WordReads(u, w, s, i, i + |w|);
      MaybeMeans(u, Word(u, w), s, i, i + |w|);
      Joined(u, q, p, s, i, i + |w|, j);
    }
  }

  // ----- Patterns 1 and 2 -----

  ghost predicate ReadsKind(u: Table, s: string, i: int, j: int) {
    Reads(u, s, i, j, "previous") || Reads(u, s, i, j, "prior") || Reads(u, s, i, j, "above")
  }

  lemma {:induction false} KindReads(u: Table, s: string, i: int, j: int)
    ensures Matches(u, Or(Word(u, "previous"), Or(Word(u, "prior"), Word(u, "above"))), s, i, j)
            <==> ReadsKind(u, s, i, j)
  {
    hide Matches, Reads;
    WordReads(u, "previous", s, i, j);
    WordReads(u, "prior", s, i, j);
    WordReads(u, "above", s, i, j);
    OrMeans(u, Word(u, "prior"), Word(u, "above"), s, i, j);
    OrMeans(u, Word(u, "previous"), Or(Word(u, "prior"), Word(u, "above")), s, i, j);
  }

  ghost predicate TargetAt(u: Table, s: string, i: int, j: int) {
    exists x, y, z :: IsTarget(x, y, z) && Reads(u, s, i, j, x + (y + z))
  }

  lemma {:induction false} NothingRead(u: Table, s: string, i: int)
    ensures Reads(u, s, i, i, "") <==> 0 <= i <= |s|
  {
  }

  lemma {:induction false} TargetMeans(u: Table, s: string, i: int, j: int)
    ensures Matches(u, Target(u), s, i, j) <==> TargetAt(u, s, i, j)
  {
    hide Matches, Reads, ReadsKind;
    var kind := Or(Word(u, "previous"), Or(Word(u, "prior"), Word(u, "above")));
    PerhapsThen(u, "all ", Cat(Maybe(Word(u, "the ")), kind), s, i, j);
    PerhapsThen(u, "the ", kind, s, i, j);
    PerhapsThen(u, "the ", kind, s, i + 4, j);
    KindReads(u, s, i, j);
    KindReads(u, s, i + 4, j);
    KindReads(u, s, i + 8, j);
    if Matches(u, Target(u), s, i, j) {
      var x := if Matches(u, Cat(Maybe(Word(u, "the ")), kind), s, i, j) then "" else "all ";
      var m := i + |x|;
      var y := if ReadsKind(u, s, m, j) then "" else "the ";
      var z := KindOf(u, s, m + |y|, j);
      MatchIsInside(u, Target(u), s, i, j);
      NothingRead(u, s, i);
      NothingRead(u, s, m);
      if y != "" { ReadsLength(u, s, m, m + |y|, y); }
      if x != "" { ReadsLength(u, s, i, m, x); }
      ReadsBoth(u, s, m, j, y, z);
      ReadsBoth(u, s, i, j, x, y + z);
    }
    forall x, y, z | IsTarget(x, y, z) && Reads(u, s, i, j, x + (y + z)) ensures Matches(u, Target(u), s, i, j) {
      ReadsBoth(u, s, i, j, x, y + z);
      ReadsBoth(u, s, i + |x|, j, y, z);
      KindIsRead(u, s, i + |x| + |y|, j, z);
    }
  }

  lemma {:induction false} KindOf(u: Table, s: string, i: int, j: int) returns (z: string)
    requires ReadsKind(u, s, i, j)
    ensures IsTarget("", "", z) && Reads(u, s, i, j, z)
  {
    if Reads(u, s, i, j, "previous") { z := "previous"; }
    else if Reads(u, s, i, j, "prior") { z := "prior"; }
    else { z := "above"; }
  }

  lemma {:induction false} KindIsRead(u: Table, s: string, i: int, j: int, z: string)
    requires IsTarget("", "", z) && Reads(u, s, i, j, z)
    ensures ReadsKind(u, s, i, j)
  {
  }

  lemma {:induction false} IgnoreMeans(u: Table, s: string, i: int, j: int)
    ensures Matches(u, IgnoreInstructions(u), s, i, j) <==> IgnoreAt(u, s, i, j)
  {
    hide Matches, Reads, Target, IsTarget;
    var tail := Word(u, " instructions");
    WordThen(u, "ignore ", Cat(Target(u), tail), s, i, j);
    if Matches(u, IgnoreInstructions(u), s, i, j) {
      var m := Split(u, Target(u), tail, s, i + 7, j);
      TargetMeans(u, s, i + 7, m);
      WordReads(u, " instructions", s, m, j);
      var x, y, z :| IsTarget(x, y, z) && Reads(u, s, i + 7, m, x + (y + z));
      ReadsLength(u, s, i + 7, m, x + (y + z));
      Assoc(x, y + z, " instructions");
      ReadsBoth(u, s, i + 7, j, x + (y + z), " instructions");
      ReadsBoth(u, s, i, j, "ignore ", x + (y + z) + " instructions");
    }
    forall x, y, z | IsTarget(x, y, z) && Reads(u, s, i, j, "ignore " + (x + (y + z) + " instructions"))
      ensures Matches(u, IgnoreInstructions(u), s, i, j)
    {
      var m := i + 7 + |x + (y + z)|;
      ReadsBoth(u, s, i, j, "ignore ", x + (y + z) + " instructions");
      ReadsBoth(u, s, i + 7, j, x + (y + z), " instructions");
      TargetMeans(u, s, i + 7, m);
      WordReads(u, " instructions", s, m, j);
      Joined(u, Target(u), tail, s, i + 7, m, j);
    }
  }

  lemma {:induction false} Assoc(x: string, y: string, z: string)
    ensures x + y + z == x + (y + z)
  {
  }

  lemma {:induction false} DisregardMeans(u: Table, s: string, i: int, j: int)
    ensures Matches(u, Disregard(u), s, i, j) <==> DisregardAt(u, s, i, j)
  {
    hide Matches, Reads, Target, IsTarget;
    WordThen(u, "disregard ", Target(u), s, i, j);
    TargetMeans(u, s, i + 10, j);
    forall x: string, y: string, z: string
      ensures Reads(u, s, i, j, "disregard " + (x + (y + z))) <==>
              Reads(u, s, i, i + 10, "disregard ") && Reads(u, s, i + 10, j, x + (y + z))
    {
      ReadsBoth(u, s, i, j, "disregard ", x + (y + z));
    }
  }

  // ----- The headings -----

  lemma {:induction false} BlankMeans(u: Table, s: string, i: int, j: int)
    ensures Matches(u, Many(u.spaces, 0), s, i, j) <==> BlankAt(u, s, i, j)
  {
    ManyMeans(u, u.spaces, 0, s, i, j);
  }

  lemma {:induction false} ColonMeans(u: Table, s: string, m: int, j: int)
    ensures Matches(u, Colon(u), s, m, j) <==> BlankAt(u, s, m, j - 1) && 0 <= j - 1 < |s| && s[j - 1] == ':'
  {
    hide Matches, BlankAt;
    var blank, colon := Many(u.spaces, 0), One({':'});
    if Matches(u, Colon(u), s, m, j) {
      var k := Split(u, blank, colon, s, m, j);
      OneMeans(u, {':'}, s, k, j);
      BlankMeans(u, s, m, k);
    }
    BlankMeans(u, s, m, j - 1);
    OneMeans(u, {':'}, s, j - 1, j);
    if Matches(u, blank, s, m, j - 1) && Matches(u, colon, s, j - 1, j) { Joined(u, blank, colon, s, m, j - 1, j); }
  }

  lemma {:induction false} HeadingMeans(u: Table, w: string, s: string, i: int, j: int)
    ensures Matches(u, Cat(Word(u, w), Colon(u)), s, i, j) <==> HeadingAt(u, s, i, j, w)
  {
    hide Matches, Reads, Colon, BlankAt;
    WordThen(u, w, Colon(u), s, i, j);
    ColonMeans(u, s, i + |w|, j);
    forall m | Reads(u, s, i, m, w) ensures m == i + |w| { ReadsLength(u, s, i, m, w); }
  }

  lemma {:induction false} LineStartMeans(u: Table, s: string, i: int, j: int)
    ensures Matches(u, LineStart, s, i, j) <==> 0 <= i == j <= |s| && (i == 0 || s[i - 1] == '\n')
  {
  }

  lemma {:induction false} SystemMeans(u: Table, s: string, i: int, j: int)
    ensures Matches(u, SystemRole(u), s, i, j) <==> SystemAt(u, s, i, j)
  {
    hide Matches, HeadingAt, BlankAt, Word, Colon;
    var blank, role := Many(u.spaces, 0), Cat(Word(u, "system"), Colon(u));
    if Matches(u, SystemRole(u), s, i, j) {
      var k := Split(u, LineStart, Cat(blank, role), s, i, j);
      LineStartMeans(u, s, i, k);
      var m := Split(u, blank, role, s, k, j);
      BlankMeans(u, s, i, m);
      HeadingMeans(u, "system", s, m, j);
    }
    forall m | SystemAt(u, s, i, j) && BlankAt(u, s, i, m) && HeadingAt(u, s, m, j, "system")
      ensures Matches(u, SystemRole(u), s, i, j)
    {
      LineStartMeans(u, s, i, i);
      BlankMeans(u, s, i, m);
      HeadingMeans(u, "system", s, m, j);
      Joined(u, blank, role, s, i, m, j);
      Joined(u, LineStart, Cat(blank, role), s, i, i, j);
    }
  }

  // ----- The bounded phrases and the last pattern -----

  lemma {:induction false} RevealMeans(u: Table, s: string, i: int, j: int)
    ensures Matches(u, RevealPrompt(u), s, i, j) <==> RevealAt(u, s, i, j)
  {
    hide Matches, Reads;
    var prompt := Word(u, "prompt");
    WordThen(u, "reveal your ", Cat(Maybe(Word(u, "system ")), prompt), s, i, j);
    PerhapsThen(u, "system ", prompt, s, i + 12, j);
    WordReads(u, "prompt", s, i + 12, j);
    WordReads(u, "prompt", s, i + 19, j);
    ReadsBoth(u, s, i, j, "reveal your ", "prompt");
    ReadsBoth(u, s, i + 12, j, "system ", "prompt");
    ReadsBoth(u, s, i, j, "reveal your ", "system prompt");
    assert "reveal your " + "prompt" == "reveal your prompt";
    assert "system " + "prompt" == "system prompt";
    assert "reveal your " + "system prompt" == "reveal your system prompt";
  }

  lemma {:induction false} ArticleMeans(u: Table, s: string, i: int, j: int)
    ensures Matches(u, Or(Cat(Word(u, "a"), Maybe(Word(u, "n"))), Word(u, "the")), s, i, j) <==>
            Reads(u, s, i, j, "a") || Reads(u, s, i, j, "an") || Reads(u, s, i, j, "the")
  {
    hide Matches, Reads;
    OrMeans(u, Cat(Word(u, "a"), Maybe(Word(u, "n"))), Word(u, "the"), s, i, j);
    WordThen(u, "a", Maybe(Word(u, "n")), s, i, j);
    MaybeMeans(u, Word(u, "n"), s, i + 1, j);
    WordReads(u, "n", s, i + 1, j);
    WordReads(u, "the", s, i, j);
    ReadsBoth(u, s, i, j, "a", "n");
    assert "a" + "n" == "an";
    if Reads(u, s, i, i + 1, "a") { ReadsLength(u, s, i, i + 1, "a"); }
    if Reads(u, s, i, j, "a") { ReadsLength(u, s, i, j, "a"); }
  }

  lemma {:induction false} ActAsCoreMeans(u: Table, s: string, i: int, j: int)
    ensures Matches(u, ActAsCore(u), s, i, j) <==>
            Reads(u, s, i, j, "act as a") || Reads(u, s, i, j, "act as an") || Reads(u, s, i, j, "act as the")
  {
    hide Matches, Reads;
    WordThen(u, "act as ", Or(Cat(Word(u, "a"), Maybe(Word(u, "n"))), Word(u, "the")), s, i, j);
    ArticleMeans(u, s, i + 7, j);
    ReadsBoth(u, s, i, j, "act as ", "a");
    ReadsBoth(u, s, i, j, "act as ", "an");
    ReadsBoth(u, s, i, j, "act as ", "the");
    assert "act as " + "a" == "act as a" && "act as " + "an" == "act as an" && "act as " + "the" == "act as the";
  }

  /** A phrase between word boundaries stands on its own. */
  lemma {:induction false} BoundedMeans(u: Table, core: Pattern, s: string, i: int, j: int)
    requires u.Valid() && IsCore(u, core)
    ensures Matches(u, Anchored(core), s, i, j) <==> Matches(u, core, s, i, j) && Alone(u, s, i, j)
  {
    hide Matches, IsCore, AtBoundary, Alone;
    AnchoredMeans(u, core, s, i, j);
    if Matches(u, core, s, i, j) {
      CoreEnds(u, core, s, i, j);
      Edges(u, s, i, j);
    }
  }

  // ----- Main results -----

  ghost predicate Injected(u: Table, s: string) { exists i, j :: InjectionAt(u, s, i, j) }

  ghost predicate PlainlyInjected(u: Table, s: string) { exists i, j :: PlainInjectionAt(u, s, i, j) }

  lemma {:induction false} PlainMeans(u: Table, s: string, i: int, j: int)
    requires u.Valid()
    ensures PlainInjectionAt(u, s, i, j) <==>
            exists n | 0 <= n < 7 && Unanchored(n) :: Matches(u, Patterns(u)[n], s, i, j)
  {
    hide Matches, IgnoreInstructions, Disregard, NewInstructions, SystemRole, RevealPrompt, YouAreNow, ActAs, IgnoreAt,
      DisregardAt, SystemAt, HeadingAt, RevealAt;
    IgnoreMeans(u, s, i, j);
    DisregardMeans(u, s, i, j);
    SystemMeans(u, s, i, j);
    NewInstructionsMean(u, s, i, j);
    RevealMeans(u, s, i, j);
    var ps := Patterns(u);
    assert Unanchored(0) && Unanchored(1) && Unanchored(3) && Unanchored(4) && Unanchored(6);
    assert ps[0] == IgnoreInstructions(u) && ps[1] == Disregard(u) && ps[3] == SystemRole(u);
    assert ps[4] == NewInstructions(u) && ps[6] == RevealPrompt(u);
  }

  lemma {:induction false} NewInstructionsMean(u: Table, s: string, i: int, j: int)
    ensures Matches(u, NewInstructions(u), s, i, j) <==> HeadingAt(u, s, i, j, "new instructions")
  {
    hide Matches, HeadingAt, Word, Colon;
    HeadingMeans(u, "new instructions", s, i, j);
  }

  lemma {:induction false} BoundedPhrasesMean(u: Table, s: string, i: int, j: int)
    requires u.Valid()
    ensures Matches(u, YouAreNow(u), s, i, j) <==> YouAreNowAt(u, s, i, j)
    ensures Matches(u, ActAs(u), s, i, j) <==> ActAsAt(u, s, i, j)
  {
    hide Matches, Reads, Alone, ActAsCore, Anchored;
    BoundedMeans(u, YouAreNowCore(u), s, i, j);
    BoundedMeans(u, ActAsCore(u), s, i, j);
    WordReads(u, "you are now", s, i, j);
    ActAsCoreMeans(u, s, i, j);
  }

  lemma {:induction false} InjectionMeans(u: Table, s: string, i: int, j: int)
    requires u.Valid()
    ensures InjectionAt(u, s, i, j) <==> exists n | 0 <= n < 7 :: Matches(u, Patterns(u)[n], s, i, j)
  {
    hide Matches, IgnoreInstructions, Disregard, NewInstructions, SystemRole, RevealPrompt, YouAreNow, ActAs,
      PlainInjectionAt, YouAreNowAt, ActAsAt;
    PlainMeans(u, s, i, j);
    BoundedPhrasesMean(u, s, i, j);
    var ps := Patterns(u);
    assert ps[2] == YouAreNow(u) && ps[5] == ActAs(u);
    assert forall n | 0 <= n < 7 :: Unanchored(n) || n == 2 || n == 5;
  }

  /** The sanitizer changes a text, and warns, exactly when the text has an injection phrase. */
  lemma {:induction false} ChangedIffInjected(u: Table, text: string)
    requires u.Valid()
    ensures Sanitized(u, text) != text <==> Injected(u, text)
  {
    hide Matches, Patterns, InjectionAt, Sanitized;
    UnchangedIffNothingMatches(u, text);
    SevenPatterns(u);
    if Injected(u, text) {
      var i, j :| InjectionAt(u, text, i, j);
      InjectionMeans(u, text, i, j);
      var n :| 0 <= n < 7 && Matches(u, Patterns(u)[n], text, i, j);
      assert !Clean(u, Patterns(u)[n], text);
    }
    if !AllClean(u, Patterns(u), text) {
      var n :| 0 <= n < 7 && !Clean(u, Patterns(u)[n], text);
      var i, j :| Matches(u, Patterns(u)[n], text, i, j);
      InjectionMeans(u, text, i, j);
    }
  }

  lemma {:induction false} SevenPatterns(u: Table)
    ensures |Patterns(u)| == 7
  {
  }

  /** No phrase without word boundaries is anywhere in the output. */
  lemma {:induction false} NoPlainPhraseIsLeft(u: Table, text: string)
    requires u.Valid()
    ensures !PlainlyInjected(u, Sanitized(u, text))
  {
    hide Matches, Patterns, PlainInjectionAt, Sanitized;
    var out := Sanitized(u, text);
    SevenPatterns(u);
    forall n: nat | Unanchored(n) ensures Clean(u, Patterns(u)[n], out) { UnanchoredPatternsAreGone(u, text, n); }
    forall i, j ensures !PlainInjectionAt(u, out, i, j) { PlainMeans(u, out, i, j); }
  }

  // ----- What is replaced, and by what -----

  lemma {:induction false} ReadsMove(u: Table, t: string, a: nat, x: string, i: int, j: int, w: string)
    requires StandsAt(t, a, x) && Reads(u, t, i, j, w) && a <= i && j <= a + |x|
    ensures Reads(u, x, i - a, j - a, w)
  {
    SameThere(t, a, x);
    forall k | 0 <= k < |w| ensures x[i - a + k] in u.Fold(w[k]) { assert t[a + (i - a + k)] == x[i - a + k]; }
  }

  lemma {:induction false} BlankMoves(u: Table, t: string, a: nat, x: string, i: int, j: int)
    requires StandsAt(t, a, x) && BlankAt(u, t, i, j) && a <= i && j <= a + |x|
    ensures BlankAt(u, x, i - a, j - a)
  {
    SameThere(t, a, x);
    forall k | i - a <= k < j - a ensures x[k] in u.spaces { assert t[a + k] in u.spaces; }
  }

  lemma {:induction false} HeadingMoves(u: Table, t: string, a: nat, x: string, i: int, w: string)
    requires StandsAt(t, a, x) && HeadingAt(u, t, i, a + |x|, w) && a <= i
    ensures HeadingAt(u, x, i - a, |x|, w)
  {
    hide Reads, BlankAt;
    var j := a + |x|;
    SameThere(t, a, x);
    var m :| Reads(u, t, i, m, w) && BlankAt(u, t, m, j - 1) && 0 <= j - 1 < |t| && t[j - 1] == ':';
    ReadsLength(u, t, i, m, w);
    BlankLength(u, t, m, j - 1);
    ReadsMove(u, t, a, x, i, m, w);
    BlankMoves(u, t, a, x, m, j - 1);
    assert t[a + (|x| - 1)] == x[|x| - 1];
  }

  lemma {:induction false} BlankLength(u: Table, s: string, i: int, j: int)
    requires BlankAt(u, s, i, j)
    ensures 0 <= i <= j <= |s|
  {
  }

  lemma {:induction false} SystemMoves(u: Table, t: string, a: nat, x: string)
    requires StandsAt(t, a, x) && SystemAt(u, t, a, a + |x|)
    ensures SystemAt(u, x, 0, |x|)
  {
    hide HeadingAt, BlankAt, StandsAt;
    var m :| BlankAt(u, t, a, m) && HeadingAt(u, t, m, a + |x|, "system");
    HeadingLength(u, t, m, a + |x|, "system");
    BlankLength(u, t, a, m);
    BlankMoves(u, t, a, x, a, m);
    HeadingMoves(u, t, a, x, m, "system");
  }

  lemma {:induction false} HeadingLength(u: Table, s: string, i: int, j: int, w: string)
    requires HeadingAt(u, s, i, j, w)
    ensures 0 <= i <= j <= |s|
  {
  }

  /** A phrase stays a phrase on its own. */
  lemma {:induction false} PhraseByItself(u: Table, t: string, a: nat, x: string)
    requires StandsAt(t, a, x) && InjectionAt(u, t, a, a + |x|)
    ensures InjectionAt(u, x, 0, |x|)
  {
    hide Reads, StandsAt, IsTarget, SystemAt, HeadingAt;
    var j := a + |x|;
    if SystemAt(u, t, a, j) { SystemMoves(u, t, a, x); }
    if HeadingAt(u, t, a, j, "new instructions") { HeadingMoves(u, t, a, x, a, "new instructions"); }
    forall w | Reads(u, t, a, j, w) ensures Reads(u, x, 0, |x|, w) { ReadsMove(u, t, a, x, a, j, w); }
    assert Alone(u, x, 0, |x|);
  }

  /** The pieces make up the text, every cut is a phrase, and with the placeholder for each cut they give `out`. */
  ghost predicate ReplacesPhrases(u: Table, text: string, ps: seq<Piece>, out: string) {
    && Original(ps) == text && Replaced(ps, "[REDACTED: POTENTIAL PROMPT INJECTION]") == out
    && forall k | 0 <= k < |ps| && ps[k].Cut? :: InjectionAt(u, ps[k].text, 0, |ps[k].text|)
  }

  /** The sanitizer replaces injection phrases, and copies everything else. */
  lemma {:induction false} OnlyPhrasesAreReplaced(u: Table, text: string)
    requires u.Valid()
    ensures exists ps :: ReplacesPhrases(u, text, ps, Sanitized(u, text))
  {
    hide Insulates, Passes, CutUp, Whole, Original, Replaced, MatchedSomewhere, InjectionAt, Patterns;
    var qs := Patterns(u);
    var ps := Pieces(u, text);
    SevenPatterns(u);
    PiecesOfText(u, text);
    WholeCutsNothing(u, text);
    PassesCutMatches(u, [], qs, PLACEHOLDER, Whole(text));
    assert [] + qs == qs;
    forall k | 0 <= k < |ps| && ps[k].Cut? ensures InjectionAt(u, ps[k].text, 0, |ps[k].text|) {
      var n :| 0 <= n < 7 && MatchedSomewhere(u, qs[n], ps[k].text);
      MatchIsPhrase(u, n, ps[k].text);
    }
    assert ReplacesPhrases(u, text, ps, Sanitized(u, text));
  }

  lemma {:induction false} MatchIsPhrase(u: Table, n: nat, x: string)
    requires u.Valid() && n < 7 && |Patterns(u)| == 7 && MatchedSomewhere(u, Patterns(u)[n], x)
    ensures InjectionAt(u, x, 0, |x|)
  {
    hide Matches, Patterns, InjectionAt, StandsAt;
    var t: string, a: nat :| StandsAt(t, a, x) && Matches(u, Patterns(u)[n], t, a, a + |x|);
    InjectionMeans(u, t, a, a + |x|);
    PhraseByItself(u, t, a, x);
  }
}
