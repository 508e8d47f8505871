/** `sanitize_untrusted_text` (infrastructure/prompt_guard.py). */
module PromptGuard {
  import opened CharTable
  import opened Regex
  import opened Substitution

  const PLACEHOLDER := "[REDACTED: POTENTIAL PROMPT INJECTION]"

  // ----- The seven patterns, all under IGNORECASE -----

  /** `(all )?(the )?(previous|prior|above)` */
  function Target(u: Table): Pattern {
    Cat(Maybe(Word(u, "all ")), Cat(Maybe(Word(u, "the ")),
        Or(Word(u, "previous"), Or(Word(u, "prior"), Word(u, "above")))))
  }

  /** `ignore (all )?(the )?(previous|prior|above) instructions` */
  function IgnoreInstructions(u: Table): Pattern {
    Cat(Word(u, "ignore "), Cat(Target(u), Word(u, " instructions")))
  }

  /** `disregard (all )?(the )?(previous|prior|above)` */
  function Disregard(u: Table): Pattern { Cat(Word(u, "disregard "), Target(u)) }

  /** `you are now`, without its word boundaries */
  function YouAreNowCore(u: Table): Pattern { Word(u, "you are now") }

  /** `\byou are now\b` */
  function YouAreNow(u: Table): Pattern { Anchored(YouAreNowCore(u)) }

  /** `\s*:` */
  function Colon(u: Table): Pattern { Cat(Many(u.spaces, 0), One({':'})) }

  /** `^\s*system\s*:` under MULTILINE */
  function SystemRole(u: Table): Pattern {
    Cat(LineStart, Cat(Many(u.spaces, 0), Cat(Word(u, "system"), Colon(u))))
  }

  /** `new instructions\s*:` */
  function NewInstructions(u: Table): Pattern { Cat(Word(u, "new instructions"), Colon(u)) }

  /** `act as (an?|the)`, without its word boundaries */
  function ActAsCore(u: Table): Pattern {
    Cat(Word(u, "act as "), Or(Cat(Word(u, "a"), Maybe(Word(u, "n"))), Word(u, "the")))
  }

  /** `\bact as (an?|the)\b` */
  function ActAs(u: Table): Pattern { Anchored(ActAsCore(u)) }

  /** `reveal your (system )?prompt` */
  function RevealPrompt(u: Table): Pattern {
    Cat(Word(u, "reveal your "), Cat(Maybe(Word(u, "system ")), Word(u, "prompt")))
  }

  function Patterns(u: Table): seq<Pattern> {
    [IgnoreInstructions(u), Disregard(u), YouAreNow(u), SystemRole(u), NewInstructions(u), ActAs(u),
     RevealPrompt(u)]
  }

  /** What `sanitize_untrusted_text` returns: the seven passes in order. */
  function Sanitized(u: Table, text: string): string {
    Passes(u, Patterns(u), PLACEHOLDER, text)
  }

  /** `sanitize_untrusted_text`; `triggered` is whether it logs its warning. */
  method SanitizeUntrustedText(u: Table, text: string) returns (sanitized: string, triggered: bool)
    requires u.Valid()
    ensures sanitized == Sanitized(u, text)
    ensures triggered <==> sanitized != text
  {
    hide Clean, MatchEnd, Sub, Count, Find;
    var patterns := Patterns(u);
    sanitized, triggered := text, false;
    for n := 0 to |patterns|
      invariant Passes(u, patterns[n..], PLACEHOLDER, sanitized) == Sanitized(u, text)
      invariant Count('[', sanitized) >= Count('[', text)
      invariant if triggered then Count('[', sanitized) > Count('[', text) else sanitized == text
    {
      assert patterns[n..][1..] == patterns[n + 1..];
      PassTriggers(u, n, sanitized);
      if Find(u, patterns[n], sanitized, 0).Some? {
        triggered := true;
        sanitized := Sub(u, patterns[n], PLACEHOLDER, sanitized);
      }
    }
  }

  // ----- The patterns, as the substitution theory sees them -----

  const MARKS: set<char> := {'[', ']'}

  /** Brackets and the newline: characters no phrase pattern contains. */
  const WIDE: set<char> := {'[', ']', '\n'}

  /** The characters of the placeholder. */
  const STOP: set<char> :=
    {'[', ']', ':', ' ', 'R', 'E', 'D', 'A', 'C', 'T', 'P', 'O', 'N', 'I', 'L', 'M', 'J'}

  /** None of `marks`, some character foreign to the placeholder, no word boundary. */
  ghost predicate Loose(p: Pattern, marks: set<char>) {
    Avoids(p, marks) && Demands(p, STOP) && !UsesBound(p)
  }

  ghost predicate Plain(p: Pattern, marks: set<char>) {
    Avoids(p, marks) && !UsesBound(p) && !UsesLineStart(p)
  }

  lemma {:induction false} PlaceholderShape()
    ensures |PLACEHOLDER| == 38 && {PLACEHOLDER[0], PLACEHOLDER[37]} == MARKS && PLACEHOLDER[37] != '\n'
    ensures forall c | c in PLACEHOLDER :: c in STOP
    ensures '[' in PLACEHOLDER
  {
    assert PLACEHOLDER[0] == '[';
  }

  lemma {:induction false} PlainCat(a: Pattern, b: Pattern, marks: set<char>)
    requires Plain(a, marks) && Plain(b, marks)
    ensures Plain(Cat(a, b), marks) && Plain(Or(a, b), marks) && Plain(Maybe(a), marks)
  {
  }

  lemma {:induction false} LooseCat(a: Pattern, b: Pattern, marks: set<char>)
    requires (Loose(a, marks) && Plain(b, marks)) || (Plain(a, marks) && Loose(b, marks))
    ensures Loose(Cat(a, b), marks)
  {
  }

  lemma {:induction false} LooseFewer(p: Pattern)
    requires Loose(p, WIDE)
    ensures Loose(p, MARKS)
  {
    AvoidsFewer(p, WIDE, MARKS);
  }

  lemma {:induction false} LooseAtLineStart(p: Pattern)
    requires Loose(p, MARKS)
    ensures Loose(Cat(LineStart, p), MARKS)
  {
  }

  /** A letter or space stands for no bracket and no newline. */
  lemma {:induction false} PlainWord(u: Table, w: string, marks: set<char>)
    requires u.Valid() && marks <= WIDE
    requires forall k | 0 <= k < |w| :: IsAsciiLetter(w[k]) || w[k] == ' '
    ensures Plain(Word(u, w), marks)
  {
    WordIsContextFree(u, w);
    forall k | 0 <= k < |w| ensures u.Fold(w[k]) !! WIDE {
      if IsAsciiLetter(w[k]) {
        assert u.FoldsLetter(w[k]);
        assert forall c | c in WIDE :: IsAscii(c) && !IsAsciiWord(c);
      }
    }
    WordAvoids(u, w, WIDE);
    AvoidsFewer(Word(u, w), WIDE, marks);
  }

  /** A letter missing from the placeholder makes its word foreign to the placeholder. */
  lemma {:induction false} ForeignWord(u: Table, w: string, k: nat)
    requires u.Valid() && k < |w| && 'a' <= w[k] <= 'z'
    requires w[k] !in {'r', 'e', 'd', 'a', 'c', 't', 'p', 'o', 'n', 'i', 'l', 'm', 'j'}
    ensures Demands(Word(u, w), STOP)
  {
    LetterDemands(u, w, k, STOP);
  }

  lemma {:induction false} PlainTarget(u: Table)
    requires u.Valid()
    ensures Plain(Target(u), WIDE)
  {
    hide Word, Plain;
    PlainWord(u, "all ", WIDE);
    PlainWord(u, "the ", WIDE);
    PlainWord(u, "previous", WIDE);
    PlainWord(u, "prior", WIDE);
    PlainWord(u, "above", WIDE);
    PlainCat(Word(u, "prior"), Word(u, "above"), WIDE);
    var kind := Or(Word(u, "previous"), Or(Word(u, "prior"), Word(u, "above")));
    PlainCat(Word(u, "previous"), Or(Word(u, "prior"), Word(u, "above")), WIDE);
    PlainCat(Word(u, "the "), kind, WIDE);
    PlainCat(Maybe(Word(u, "the ")), kind, WIDE);
    PlainCat(Word(u, "all "), kind, WIDE);
    PlainCat(Maybe(Word(u, "all ")), Cat(Maybe(Word(u, "the ")), kind), WIDE);
  }

  lemma {:induction false} PlainColon(u: Table)
    requires u.Valid()
    ensures Plain(Colon(u), MARKS) && Plain(Many(u.spaces, 0), MARKS)
  {
    assert forall c | c in MARKS :: IsAscii(c) && !IsAsciiSpace(c);
    assert Plain(Many(u.spaces, 0), MARKS) && Plain(One({':'}), MARKS);
  }

  lemma {:induction false} LooseWord(u: Table, w: string, k: nat, marks: set<char>)
    requires u.Valid() && marks <= WIDE && k < |w| && 'a' <= w[k] <= 'z'
    requires w[k] !in {'r', 'e', 'd', 'a', 'c', 't', 'p', 'o', 'n', 'i', 'l', 'm', 'j'}
    requires forall k | 0 <= k < |w| :: IsAsciiLetter(w[k]) || w[k] == ' '
    ensures Loose(Word(u, w), marks) && Plain(Word(u, w), marks)
  {
    hide Word;
    PlainWord(u, w, marks);
    ForeignWord(u, w, k);
  }

  lemma {:induction false} IgnoreInstructionsIsLoose(u: Table)
    requires u.Valid()
    ensures Loose(IgnoreInstructions(u), WIDE)
  {
    hide Word, Target, Plain, Loose;
    PlainTarget(u);
    PlainWord(u, " instructions", WIDE);
    LooseWord(u, "ignore ", 1, WIDE);
    PlainCat(Target(u), Word(u, " instructions"), WIDE);
    LooseCat(Word(u, "ignore "), Cat(Target(u), Word(u, " instructions")), WIDE);
  }

  lemma {:induction false} DisregardIsLoose(u: Table)
    requires u.Valid()
    ensures Loose(Disregard(u), WIDE)
  {
    hide Word, Target, Plain, Loose;
    PlainTarget(u);
    LooseWord(u, "disregard ", 2, WIDE);
    LooseCat(Word(u, "disregard "), Target(u), WIDE);
  }

  lemma {:induction false} NewInstructionsIsLoose(u: Table)
    requires u.Valid()
    ensures Loose(NewInstructions(u), MARKS)
  {
    hide Word, Colon, Plain, Loose;
    PlainColon(u);
    LooseWord(u, "new instructions", 2, MARKS);
    LooseCat(Word(u, "new instructions"), Colon(u), MARKS);
  }

  lemma {:induction false} SystemRoleIsLoose(u: Table)
    requires u.Valid()
    ensures Loose(SystemRole(u), MARKS)
  {
    hide Word, Colon, Plain;
    PlainColon(u);
    LooseWord(u, "system", 0, MARKS);
    var word := Cat(Word(u, "system"), Colon(u));
    LooseCat(Word(u, "system"), Colon(u), MARKS);
    LooseCat(Many(u.spaces, 0), word, MARKS);
    LooseAtLineStart(Cat(Many(u.spaces, 0), word));
  }

  lemma {:induction false} CoresAreLoose(u: Table)
    requires u.Valid()
    ensures Loose(YouAreNowCore(u), WIDE) && Loose(ActAsCore(u), WIDE)
  {
    hide Word, Plain, Loose;
    LooseWord(u, "you are now", 0, WIDE);
    LooseWord(u, "act as ", 5, WIDE);
    PlainWord(u, "a", WIDE);
    PlainWord(u, "n", WIDE);
    PlainWord(u, "the", WIDE);
    PlainCat(Word(u, "n"), Word(u, "n"), WIDE);
    PlainCat(Word(u, "a"), Maybe(Word(u, "n")), WIDE);
    PlainCat(Cat(Word(u, "a"), Maybe(Word(u, "n"))), Word(u, "the"), WIDE);
    LooseCat(Word(u, "act as "), Or(Cat(Word(u, "a"), Maybe(Word(u, "n"))), Word(u, "the")), WIDE);
  }

  lemma {:induction false} RevealPromptIsLoose(u: Table)
    requires u.Valid()
    ensures Loose(RevealPrompt(u), WIDE)
  {
    hide Word, Plain, Loose;
    LooseWord(u, "reveal your ", 2, WIDE);
    PlainWord(u, "system ", WIDE);
    PlainWord(u, "prompt", WIDE);
    PlainCat(Word(u, "system "), Word(u, "prompt"), WIDE);
    PlainCat(Maybe(Word(u, "system ")), Word(u, "prompt"), WIDE);
    LooseCat(Word(u, "reveal your "), Cat(Maybe(Word(u, "system ")), Word(u, "prompt")), WIDE);
  }

  /** The patterns that use no word boundary: 1, 2, 4, 5 and 7, counting from one. */
  predicate Unanchored(n: nat) { n < 7 && n != 2 && n != 5 }

  lemma {:induction false} LoosePatterns(u: Table, n: nat)
    requires u.Valid() && Unanchored(n)
    ensures Loose(Patterns(u)[n], MARKS)
  {
    hide Loose, IgnoreInstructions, Disregard, NewInstructions, SystemRole, RevealPrompt, YouAreNow, ActAs;
    IgnoreInstructionsIsLoose(u);
    DisregardIsLoose(u);
    NewInstructionsIsLoose(u);
    SystemRoleIsLoose(u);
    RevealPromptIsLoose(u);
    LooseFewer(IgnoreInstructions(u));
    LooseFewer(Disregard(u));
    LooseFewer(RevealPrompt(u));
  }

  lemma {:induction false} PatternsAvoidMarks(u: Table, n: nat)
    requires u.Valid() && n < 7
    ensures Avoids(Patterns(u)[n], MARKS) && Demands(Patterns(u)[n], {})
  {
    hide Avoids, Demands, UsesBound, IgnoreInstructions, Disregard, NewInstructions, SystemRole,
         RevealPrompt, YouAreNowCore, ActAsCore;
    if Unanchored(n) {
      LoosePatterns(u, n);
      DemandsLess(Patterns(u)[n], STOP);
    } else {
      CoresAreLoose(u);
      var core := if n == 2 then YouAreNowCore(u) else ActAsCore(u);
      LooseFewer(core);
      AnchoredKeeps(core);
      DemandsLess(Anchored(core), STOP);
    }
  }

  lemma {:induction false} AnchoredKeeps(core: Pattern)
    requires Loose(core, MARKS)
    ensures Avoids(Anchored(core), MARKS) && Demands(Anchored(core), STOP)
  {
    assert Avoids(Cat(core, Bound), MARKS) && Demands(Cat(core, Bound), STOP);
  }

  /** A pattern without word boundaries cannot be brought about by any pass. */
  lemma {:induction false} LooseIsInsulated(u: Table, q: Pattern, p: Pattern)
    requires u.Valid() && Loose(p, MARKS)
    ensures Insulates(u, q, PLACEHOLDER, p)
  {
    hide Avoids, Demands, Clean;
    PlaceholderShape();
    DemandsLess(p, STOP);
    DemandsRefuse(u, p, STOP, PLACEHOLDER);
  }

  /** A pass changes its input, and gains a bracket, exactly when `search` finds something. */
  lemma {:induction false} PassTriggers(u: Table, n: nat, s: string)
    requires u.Valid() && n < 7
    ensures var out := Sub(u, Patterns(u)[n], PLACEHOLDER, s);
            if Find(u, Patterns(u)[n], s, 0).Some? then Count('[', out) > Count('[', s) else out == s
  {
    hide Avoids, Demands, Clean, Sub, Find, Count;
    PatternsAvoidMarks(u, n);
    AvoidsFewer(Patterns(u)[n], MARKS, {'['});
    PlaceholderShape();
    PassMarks(u, Patterns(u)[n], PLACEHOLDER, '[', s);
    FindIffNotClean(u, Patterns(u)[n], s);
  }

  // ----- Main results -----

  /**
   Whatever the input, the output has no match of patterns 1, 2, 4, 5 and 7. Placeholders are
   bracketed and no pattern contains a bracket, so no later pass can bring one back.
   */
  lemma {:induction false} UnanchoredPatternsAreGone(u: Table, text: string, n: nat)
    requires u.Valid() && Unanchored(n)
    ensures Clean(u, Patterns(u)[n], Sanitized(u, text))
  {
    hide Insulates, Clean, Passes, Loose, IgnoreInstructions, Disregard, NewInstructions, SystemRole,
         RevealPrompt, YouAreNow, ActAs;
    LoosePatterns(u, n);
    forall k | n <= k < 7 ensures Insulates(u, Patterns(u)[k], PLACEHOLDER, Patterns(u)[n]) {
      LooseIsInsulated(u, Patterns(u)[k], Patterns(u)[n]);
    }
    PassesClean(u, Patterns(u), PLACEHOLDER, n, text);
  }

  /** The sanitizer changes the text exactly when one of the seven patterns matches it. */
  lemma {:induction false} UnchangedIffNothingMatches(u: Table, text: string)
    requires u.Valid()
    ensures Sanitized(u, text) == text <==> AllClean(u, Patterns(u), text)
  {
    hide Avoids, Demands, Clean, Passes, Count;
    forall n | 0 <= n < 7 ensures Avoids(Patterns(u)[n], {'['}) && Demands(Patterns(u)[n], {}) {
      PatternsAvoidMarks(u, n);
      AvoidsFewer(Patterns(u)[n], MARKS, {'['});
    }
    PlaceholderShape();
    PassesMarks(u, Patterns(u), PLACEHOLDER, '[', text);
  }

  /** Sanitizing twice is sanitizing once exactly when the two patterns with word boundaries are gone. */
  lemma {:induction false} TwiceIsOnceIff(u: Table, text: string)
    requires u.Valid()
    ensures var out := Sanitized(u, text);
            Sanitized(u, out) == out <==> Clean(u, YouAreNow(u), out) && Clean(u, ActAs(u), out)
  {
    hide Sanitized, Clean, IgnoreInstructions, Disregard, NewInstructions, SystemRole, RevealPrompt, YouAreNow, ActAs;
    var out := Sanitized(u, text);
    UnchangedIffNothingMatches(u, out);
    forall n | 0 <= n < 7 && Unanchored(n) ensures Clean(u, Patterns(u)[n], out) {
      UnanchoredPatternsAreGone(u, text, n);
    }
    assert Patterns(u)[2] == YouAreNow(u) && Patterns(u)[5] == ActAs(u);
  }

  // ----- The two patterns with word boundaries -----

  predicate IsCore(u: Table, core: Pattern) { core == YouAreNowCore(u) || core == ActAsCore(u) }

  /** The phrase with a word character right in front of it, and right behind it. */
  function GluedBefore(u: Table, core: Pattern): Pattern { Cat(One(u.words), core) }

  function GluedAfter(u: Table, core: Pattern): Pattern { Cat(core, One(u.words)) }

  /** No occurrence of the phrase has a word character next to it. */
  ghost predicate Unglued(u: Table, core: Pattern, s: string) {
    Clean(u, GluedBefore(u, core), s) && Clean(u, GluedAfter(u, core), s)
  }

  lemma {:induction false} GluedIsLoose(u: Table, core: Pattern)
    requires u.Valid() && Loose(core, MARKS)
    ensures Loose(GluedBefore(u, core), MARKS) && Loose(GluedAfter(u, core), MARKS)
  {
    var word := One(u.words);
    assert '[' !in u.words && ']' !in u.words by { assert IsAscii('[') && IsAscii(']'); }
    assert Avoids(word, MARKS) && !UsesBound(word);
  }

  lemma {:induction false} CoreIsContextFree(u: Table, core: Pattern)
    requires u.Valid() && IsCore(u, core)
    ensures Loose(core, MARKS) && !UsesLineStart(core)
  {
    hide Word, Loose;
    CoresAreLoose(u);
    LooseFewer(core);
    WordIsContextFree(u, "you are now");
    WordIsContextFree(u, "act as ");
    WordIsContextFree(u, "a");
    WordIsContextFree(u, "n");
    WordIsContextFree(u, "the");
    var an := Cat(Word(u, "a"), Maybe(Word(u, "n")));
    assert !UsesLineStart(Maybe(Word(u, "n")));
    assert !UsesLineStart(an);
    assert !UsesLineStart(Or(an, Word(u, "the")));
  }

  /** A phrase starts and ends with a letter. */
  lemma {:induction false} CoreEnds(u: Table, core: Pattern, s: string, i: int, j: int)
    requires u.Valid() && IsCore(u, core) && Matches(u, core, s, i, j)
    ensures 0 <= i < j <= |s| && s[i] in u.words && s[j - 1] in u.words
  {
    hide Word, Matches, Table.Valid;
    if core == YouAreNowCore(u) {
      WordEnds(u, "you are now", s, i, j);
    } else {
      var an, the := Cat(Word(u, "a"), Maybe(Word(u, "n"))), Word(u, "the");
      var m := Split(u, Word(u, "act as "), Or(an, the), s, i, j);
      WordStarts(u, "act as ", s, i, m);
      ArticleEnds(u, s, m, j);
    }
  }

  lemma {:induction false} ArticleEnds(u: Table, s: string, m: int, j: int)
    requires u.Valid() && Matches(u, Or(Cat(Word(u, "a"), Maybe(Word(u, "n"))), Word(u, "the")), s, m, j)
    ensures 0 <= m < j <= |s| && s[j - 1] in u.words
  {
    hide Word, Matches, Table.Valid;
    var a, an, the := Word(u, "a"), Cat(Word(u, "a"), Maybe(Word(u, "n"))), Word(u, "the");
    OrMatches(u, an, the, s, m, j);
    if Matches(u, the, s, m, j) {
      WordEnds(u, "the", s, m, j);
    } else {
      var n := Split(u, a, Maybe(Word(u, "n")), s, m, j);
      WordEnds(u, "a", s, m, n);
      MaybeMatches(u, Word(u, "n"), s, n, j);
      if Matches(u, Word(u, "n"), s, n, j) { WordEnds(u, "n", s, n, j); }
    }
  }

  lemma {:induction false} OrMatches(u: Table, a: Pattern, b: Pattern, s: string, i: int, j: int)
    requires Matches(u, Or(a, b), s, i, j)
    ensures Matches(u, a, s, i, j) || Matches(u, b, s, i, j)
  {
  }

  lemma {:induction false} MaybeMatches(u: Table, p: Pattern, s: string, i: int, j: int)
    requires Matches(u, Maybe(p), s, i, j)
    ensures Matches(u, p, s, i, j) || j == i
  {
  }

  lemma {:induction false} WordStarts(u: Table, w: string, s: string, i: int, j: int)
    requires u.Valid() && w != "" && IsAsciiLetter(w[0]) && Matches(u, Word(u, w), s, i, j)
    ensures 0 <= i < j == i + |w| <= |s| && s[i] in u.words
  {
    WordMatches(u, w, s, i, j);
    assert s[i + 0] in u.Fold(w[0]);
    assert u.FoldsLetter(w[0]);
  }

  lemma {:induction false} WordEnds(u: Table, w: string, s: string, i: int, j: int)
    requires u.Valid() && w != "" && IsAsciiLetter(w[0]) && IsAsciiLetter(w[|w| - 1]) && Matches(u, Word(u, w), s, i, j)
    ensures 0 <= i < j == i + |w| <= |s| && s[i] in u.words && s[j - 1] in u.words
  {
    WordStarts(u, w, s, i, j);
    WordMatches(u, w, s, i, j);
    assert s[i + (|w| - 1)] in u.Fold(w[|w| - 1]);
    assert u.FoldsLetter(w[|w| - 1]);
  }

  /** An occurrence of the phrase stands free, between word boundaries, or is glued. */
  lemma {:induction false} FreeOrGlued(u: Table, core: Pattern, s: string)
    requires u.Valid() && IsCore(u, core) && Clean(u, Anchored(core), s) && Unglued(u, core, s)
    ensures Clean(u, core, s)
  {
    hide Matches, YouAreNowCore, ActAsCore;
    forall i, j ensures !Matches(u, core, s, i, j) {
      if Matches(u, core, s, i, j) {
        CoreEnds(u, core, s, i, j);
        Surroundings(u, core, s, i, j);
      }
    }
  }

  /** What stands around an occurrence decides which of the three patterns matches there. */
  lemma {:induction false} Surroundings(u: Table, core: Pattern, s: string, i: int, j: int)
    requires Matches(u, core, s, i, j) && 0 <= i < j <= |s| && s[i] in u.words && s[j - 1] in u.words
    ensures WordAt(u, s, i - 1) ==> Matches(u, GluedBefore(u, core), s, i - 1, j)
    ensures WordAt(u, s, j) ==> Matches(u, GluedAfter(u, core), s, i, j + 1)
    ensures !WordAt(u, s, i - 1) && !WordAt(u, s, j) ==> Matches(u, Anchored(core), s, i, j)
  {
    if WordAt(u, s, i - 1) { assert Matches(u, One(u.words), s, i - 1, i); }
    if WordAt(u, s, j) { assert Matches(u, One(u.words), s, j, j + 1); }
    if !WordAt(u, s, i - 1) && !WordAt(u, s, j) {
      assert Matches(u, Bound, s, i, i) && Matches(u, Bound, s, j, j);
      assert Matches(u, Cat(core, Bound), s, i, j);
    }
  }

  /** Its own pass takes an unglued phrase away for good. */
  lemma {:induction false} UngluedIsGone(u: Table, qs: seq<Pattern>, n: nat, core: Pattern, s: string)
    requires u.Valid() && IsCore(u, core) && Loose(core, MARKS)
    requires n < |qs| && qs[n] == Anchored(core) && Unglued(u, core, s)
    ensures Clean(u, core, Passes(u, qs, PLACEHOLDER, s))
    decreases n
  {
    hide Clean, Insulates, Loose, YouAreNowCore, ActAsCore, Sub, Passes;
    var out := Sub(u, qs[0], PLACEHOLDER, s);
    GluedIsLoose(u, core);
    LooseIsInsulated(u, qs[0], GluedBefore(u, core));
    LooseIsInsulated(u, qs[0], GluedAfter(u, core));
    StaysClean(u, qs[0], PLACEHOLDER, GluedBefore(u, core), s);
    StaysClean(u, qs[0], PLACEHOLDER, GluedAfter(u, core), s);
    PassesCons(u, qs, PLACEHOLDER, s);
    if n == 0 {
      AnchoredIsInsulated(u, core);
      BecomesClean(u, qs[0], PLACEHOLDER, s);
      FreeOrGlued(u, core, out);
      forall k | 0 <= k < |qs[1..]| ensures Insulates(u, qs[1..][k], PLACEHOLDER, core) {
        LooseIsInsulated(u, qs[1..][k], core);
      }
      PassesStayClean(u, qs[1..], PLACEHOLDER, core, out);
    } else {
      UngluedIsGone(u, qs[1..], n - 1, core, out);
    }
  }

  lemma {:induction false} PassesCons(u: Table, qs: seq<Pattern>, repl: string, s: string)
    requires qs != []
    ensures Passes(u, qs, repl, s) == Passes(u, qs[1..], repl, Sub(u, qs[0], repl, s))
  {
  }

  lemma {:induction false} AnchoredIsInsulated(u: Table, core: Pattern)
    requires u.Valid() && Loose(core, MARKS)
    ensures Insulates(u, Anchored(core), PLACEHOLDER, Anchored(core))
  {
    hide Avoids, Demands, Clean;
    PlaceholderShape();
    AnchoredKeeps(core);
    DemandsLess(Anchored(core), STOP);
    DemandsRefuse(u, Anchored(core), STOP, PLACEHOLDER);
    hide UsesBound;
    AnchoredUsesNoLineStart(core);
  }

  lemma {:induction false} AnchoredUsesNoLineStart(core: Pattern)
    ensures UsesLineStart(Anchored(core)) ==> PLACEHOLDER[|PLACEHOLDER| - 1] != '\n'
  {
    PlaceholderShape();
  }

  /**
   A text in which neither phrase is glued to a word comes out with no match of any of the seven patterns,
   and sanitizing it again changes nothing.
   */
  lemma {:induction false} AllGoneWithoutGluedPhrases(u: Table, text: string)
    requires u.Valid() && Unglued(u, YouAreNowCore(u), text) && Unglued(u, ActAsCore(u), text)
    ensures AllClean(u, Patterns(u), Sanitized(u, text))
    ensures Sanitized(u, Sanitized(u, text)) == Sanitized(u, text)
  {
    hide Unglued, Clean, Passes, Loose, IgnoreInstructions, Disregard, NewInstructions, SystemRole, RevealPrompt,
      YouAreNowCore, ActAsCore;
    var out := Sanitized(u, text);
    CoresAreLoose(u);
    forall n | 0 <= n < 7 ensures Clean(u, Patterns(u)[n], out) {
      if Unanchored(n) {
        UnanchoredPatternsAreGone(u, text, n);
      } else {
        var core := if n == 2 then YouAreNowCore(u) else ActAsCore(u);
        LooseFewer(core);
        UngluedIsGone(u, Patterns(u), n, core, text);
        AnchoredNeedsCore(u, core, out);
      }
    }
    hide Sanitized;
    UnchangedIffNothingMatches(u, out);
  }

  lemma {:induction false} AnchoredNeedsCore(u: Table, core: Pattern, s: string)
    requires Clean(u, core, s)
    ensures Clean(u, Anchored(core), s)
  {
    forall i, j ensures !Matches(u, Anchored(core), s, i, j) {
      if Matches(u, Anchored(core), s, i, j) {
        var m := Split(u, Bound, Cat(core, Bound), s, i, j);
        var n := Split(u, core, Bound, s, m, j);
      }
    }
  }
}
