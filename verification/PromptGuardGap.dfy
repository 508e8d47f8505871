/**
 Exactly when one pass over the seven patterns is not enough. The two patterns with word boundaries
 can get a new match from a pass that follows: cutting the text next to a phrase sets the phrase free.
 */
module PromptGuardGap {
  import opened Wrappers
  import opened CharTable
  import opened Regex
  import opened Substitution
  import opened PromptGuard

  // ----- Phrases that a cut sets free -----

  /** Nothing of a word stands at place `i` of the pieces: an end of the text, a cut, or another character. */
  predicate Edge(u: Table, ps: seq<Piece>, i: int) {
    0 <= i < |ps| ==> ps[i].Cut? || ps[i].c !in u.words
  }

  /** The pieces from `k` to `m` are an uncut phrase of the input, and on either side there is an edge. */
  ghost predicate Freed(u: Table, core: Pattern, ps: seq<Piece>, k: nat, m: nat) {
    && k < m <= |ps|
    && (forall i | k <= i < m :: ps[i].Kept?)
    && Matches(u, core, Original(ps[k..m]), 0, m - k)
    && Edge(u, ps, k - 1)
    && Edge(u, ps, m)
  }

  /** How much output the pieces before `k` give. */
  function Offset(ps: seq<Piece>, k: nat): nat
    requires k <= |ps|
  {
    |Replaced(ps[..k], PLACEHOLDER)|
  }

  lemma {:induction false} KeptReads(ps: seq<Piece>)
    requires forall i | 0 <= i < |ps| :: ps[i].Kept?
    ensures Replaced(ps, PLACEHOLDER) == Original(ps) && |Original(ps)| == |ps|
    decreases |ps|
  {
    if ps != [] { KeptReads(ps[1..]); }
  }

  lemma {:induction false} OffsetNext(ps: seq<Piece>, k: nat)
    requires k < |ps|
    ensures Replaced(ps[..k + 1], PLACEHOLDER) == Replaced(ps[..k], PLACEHOLDER) + Put(ps[k], PLACEHOLDER)
  {
    hide Replaced, Put;
    assert ps[..k + 1] == ps[..k] + [ps[k]];
    PiecesConcat(ps[..k], [ps[k]], PLACEHOLDER);
    OnePiece(ps[k], PLACEHOLDER);
  }

  /** The piece that gives the character at `x` of the output. */
  lemma {:induction false} Locate(ps: seq<Piece>, n: nat, x: nat) returns (k: nat)
    requires n <= |ps| && x < Offset(ps, n)
    ensures k < n && Offset(ps, k) <= x < Offset(ps, k) + |Put(ps[k], PLACEHOLDER)|
    decreases n
  {
    hide Replaced, Put;
    EmptyPieces(PLACEHOLDER);
    assert ps[..0] == [];
    OffsetNext(ps, n - 1);
    if Offset(ps, n - 1) <= x { k := n - 1; } else { k := Locate(ps, n - 1, x); }
  }

  /** The output around an offset, character by character. */
  lemma {:induction false} AroundOffset(ps: seq<Piece>, k: nat)
    requires k <= |ps|
    ensures var out, x := Replaced(ps, PLACEHOLDER), Offset(ps, k);
            && x <= |out| && out[..x] == Replaced(ps[..k], PLACEHOLDER) && out[x..] == Replaced(ps[k..], PLACEHOLDER)
            && (k == 0 ==> x == 0)
            && (k > 0 ==> x > 0 && out[x - 1] == if ps[k - 1].Cut? then ']' else ps[k - 1].c)
            && (k == |ps| ==> x == |out|)
            && (k < |ps| ==> x < |out| && out[x] == if ps[k].Cut? then '[' else ps[k].c)
  {
    hide Replaced;
    var out, x := Replaced(ps, PLACEHOLDER), Offset(ps, k);
    PlaceholderEnds();
    PiecesAt(ps, k, PLACEHOLDER);
    assert out[..x] == Replaced(ps[..k], PLACEHOLDER) && out[x..] == Replaced(ps[k..], PLACEHOLDER);
    EmptyPieces(PLACEHOLDER);
    if k == 0 { assert ps[..0] == []; }
    if k == |ps| { assert ps[k..] == []; }
    if k > 0 {
      OffsetNext(ps, k - 1);
      assert out[x - 1] == out[..x][x - 1];
    }
    if k < |ps| {
      assert ps[k..] == [ps[k]] + ps[k + 1..];
      PiecesOfCons(ps[k], ps[k + 1..], PLACEHOLDER);
      assert out[x] == out[x..][0];
    }
  }

  lemma {:induction false} PlaceholderEnds()
    ensures |PLACEHOLDER| == 38 && PLACEHOLDER[0] == '[' && PLACEHOLDER[37] == ']'
  {
  }

  /** Word characters next to an offset are the places that are no edges. */
  lemma {:induction false} WordsAroundOffset(u: Table, ps: seq<Piece>, k: nat)
    requires u.Valid() && k <= |ps|
    ensures var out, x := Replaced(ps, PLACEHOLDER), Offset(ps, k);
            && (WordAt(u, out, x - 1) <==> !Edge(u, ps, k - 1))
            && (WordAt(u, out, x) <==> !Edge(u, ps, k))
  {
    hide Replaced, Offset;
    AroundOffset(ps, k);
    assert IsAscii('[') && IsAscii(']');
  }

  /** A stretch of kept pieces, in the output. */
  lemma {:induction false} KeptStretch(ps: seq<Piece>, k: nat, m: nat)
    requires k <= m <= |ps| && forall i | k <= i < m :: ps[i].Kept?
    ensures var out, x := Replaced(ps, PLACEHOLDER), Offset(ps, k);
            Offset(ps, m) == x + (m - k) <= |out| && out[x..x + (m - k)] == Original(ps[k..m])
  {
    hide Replaced;
    KeptReads(ps[k..m]);
    AroundOffset(ps, k);
    AroundOffset(ps, m);
    assert ps[..m] == ps[..k] + ps[k..m];
    PiecesConcat(ps[..k], ps[k..m], PLACEHOLDER);
    var out, x, y := Replaced(ps, PLACEHOLDER), Offset(ps, k), Offset(ps, m);
    assert out[x..y] == out[..y][x..];
  }

  lemma {:induction false} SameCharacters(u: Table, p: Pattern, t: string, i: nat, j: nat, s: string, x: nat)
    requires !UsesBound(p) && !UsesLineStart(p) && i <= j <= |t| && x + (j - i) <= |s|
    requires t[i..j] == s[x..x + (j - i)] && Matches(u, p, t, i, j)
    ensures Matches(u, p, s, x, x + (j - i))
  {
    hide Matches;
    forall k: int | i <= k < j ensures t[k] == s[k + (x - i)] {
      assert t[k] == t[i..j][k - i] == s[x..x + (j - i)][k - i];
    }
    Transfer(u, p, t, i, j, s, x - i);
  }

  /** A phrase that is set free is a match of its pattern in the output. */
  lemma {:induction false} FreedMatches(u: Table, core: Pattern, ps: seq<Piece>, k: nat, m: nat)
    requires u.Valid() && IsCore(u, core) && Freed(u, core, ps, k, m)
    ensures !Clean(u, Anchored(core), Replaced(ps, PLACEHOLDER))
  {
    hide Matches, Replaced, Original, IsCore, Edge, Loose;
    var out, x := Replaced(ps, PLACEHOLDER), Offset(ps, k);
    var y := x + (m - k);
    KeptStretch(ps, k, m);
    var phrase := Original(ps[k..m]);
    CoreIsContextFree(u, core);
    NotUsingBound(core);
    assert phrase[0..m - k] == phrase;
    SameCharacters(u, core, phrase, 0, m - k, out, x);
    CoreEnds(u, core, out, x, y);
    WordsAroundOffset(u, ps, k);
    WordsAroundOffset(u, ps, m);
    Surroundings(u, core, out, x, y);
    NotClean(u, Anchored(core), out, x, y);
  }

  lemma {:induction false} NotUsingBound(core: Pattern)
    requires Loose(core, MARKS)
    ensures !UsesBound(core) && Avoids(core, MARKS)
  {
  }

  /** A match of an anchored phrase in the output is a phrase of the input that was set free. */
  lemma {:induction false} MatchIsFreed(u: Table, core: Pattern, ps: seq<Piece>, x: int, y: int)
    returns (k: nat, m: nat)
    requires u.Valid() && IsCore(u, core) && Matches(u, Anchored(core), Replaced(ps, PLACEHOLDER), x, y)
    ensures Freed(u, core, ps, k, m)
  {
    hide Matches, Replaced, Original, IsCore, Edge, Loose, Offset;
    var out := Replaced(ps, PLACEHOLDER);
    CoreInside(u, core, out, x, y);
    CoreEnds(u, core, out, x, y);
    CoreIsContextFree(u, core);
    k, m := PhraseIsKept(u, core, ps, x, y);
    WordsAroundOffset(u, ps, k);
    WordsAroundOffset(u, ps, m);
    var phrase := Original(ps[k..m]);
    assert phrase == phrase[0..y - x];
    NotUsingBound(core);
    SameCharacters(u, core, out, x, y, phrase, 0);
  }

  /** Inside its boundaries an anchored pattern is its body. */
  lemma {:induction false} CoreInside(u: Table, core: Pattern, s: string, x: int, y: int)
    requires Matches(u, Anchored(core), s, x, y)
    ensures Matches(u, core, s, x, y) && AtBoundary(u, s, x) && AtBoundary(u, s, y)
  {
    hide Matches, AtBoundary;
    var a := Split(u, Bound, Cat(core, Bound), s, x, y);
    var b := Split(u, core, Bound, s, a, y);
    BoundIsBoundary(u, s, x, a);
    BoundIsBoundary(u, s, b, y);
  }

  /** A match of a phrase in the output lies on kept pieces. */
  lemma {:induction false} PhraseIsKept(u: Table, core: Pattern, ps: seq<Piece>, x: nat, y: nat)
    returns (k: nat, m: nat)
    requires u.Valid() && Loose(core, MARKS) && x < y <= |Replaced(ps, PLACEHOLDER)|
    requires Matches(u, core, Replaced(ps, PLACEHOLDER), x, y)
    ensures k < m <= |ps| && m - k == y - x && (forall i | k <= i < m :: ps[i].Kept?)
    ensures Offset(ps, k) == x && Offset(ps, m) == y
    ensures |Original(ps[k..m])| == y - x && Replaced(ps, PLACEHOLDER)[x..y] == Original(ps[k..m])
  {
    hide Matches, Replaced, Original, Loose, Insulates;
    var out := Replaced(ps, PLACEHOLDER);
    assert ps[..|ps|] == ps;
    k := Locate(ps, |ps|, x);
    if ps[k].Cut? { NoPhraseInCut(u, core, ps, k, x, y); }
    AroundOffset(ps, k);
    NotUsingBound(core);
    AvoidsMarks(u, core, MARKS, out, x, y);
    PlaceholderEnds();
    var rest, n := Replaced(ps[k..], PLACEHOLDER), y - x;
    assert rest[..n] == out[x..y];
    KeptForward(ps[k..], n, PLACEHOLDER);
    WholeIsKept(rest[..n], PLACEHOLDER);
    m := k + n;
    assert ps[k..m] == ps[k..][..n];
    forall i | k <= i < m ensures ps[i].Kept? { assert ps[i] == ps[k..m][i - k]; }
    KeptStretch(ps, k, m);
    KeptReads(ps[k..m]);
  }

  lemma {:induction false} CutInOutput(ps: seq<Piece>, k: nat)
    requires k < |ps| && ps[k].Cut?
    ensures Replaced(ps, PLACEHOLDER)
            == Replaced(ps[..k], PLACEHOLDER) + PLACEHOLDER + Replaced(ps[k + 1..], PLACEHOLDER)
  {
    hide Replaced;
    PiecesAt(ps, k + 1, PLACEHOLDER);
    OffsetNext(ps, k);
  }

  lemma {:induction false} NoPhraseInCut(u: Table, core: Pattern, ps: seq<Piece>, k: nat, x: int, y: int)
    requires u.Valid() && Loose(core, MARKS) && k < |ps| && ps[k].Cut?
    requires Offset(ps, k) <= x < Offset(ps, k) + |PLACEHOLDER|
    ensures !Matches(u, core, Replaced(ps, PLACEHOLDER), x, y)
  {
    hide Matches, Replaced, Loose, Insulates;
    var before, after := Replaced(ps[..k], PLACEHOLDER), Replaced(ps[k + 1..], PLACEHOLDER);
    CutInOutput(ps, k);
    LooseIsInsulated(u, core, core);
    NoMatchInPlaceholder(u, core, PLACEHOLDER, core, before, after, x, y);
  }

  /** The output has a match of an anchored phrase exactly when some uncut phrase of the input has edges around it. */
  lemma {:induction false} PhraseIsLeftIff(u: Table, core: Pattern, ps: seq<Piece>)
    requires u.Valid() && IsCore(u, core)
    ensures !Clean(u, Anchored(core), Replaced(ps, PLACEHOLDER)) <==> exists k, m :: Freed(u, core, ps, k, m)
  {
    hide Matches, Replaced, IsCore, Freed;
    if !Clean(u, Anchored(core), Replaced(ps, PLACEHOLDER)) {
      var x, y :| Matches(u, Anchored(core), Replaced(ps, PLACEHOLDER), x, y);
      var k, m := MatchIsFreed(u, core, ps, x, y);
    }
    if k: nat, m: nat :| Freed(u, core, ps, k, m) {
      FreedMatches(u, core, ps, k, m);
    }
  }

  // ----- The whole sanitizer -----

  /** What the seven passes cut out of a text, as pieces of that text. */
  function Pieces(u: Table, text: string): seq<Piece> {
    CutUp(u, Patterns(u), PLACEHOLDER, Whole(text))
  }

  lemma {:induction false} SelfInsulated(u: Table, n: nat)
    requires u.Valid() && n < 7
    ensures Insulates(u, Patterns(u)[n], PLACEHOLDER, Patterns(u)[n])
  {
    hide Insulates, Loose, IgnoreInstructions, Disregard, NewInstructions, SystemRole, RevealPrompt, YouAreNowCore,
      ActAsCore;
    if Unanchored(n) {
      LoosePatterns(u, n);
      LooseIsInsulated(u, Patterns(u)[n], Patterns(u)[n]);
    } else {
      var core := if n == 2 then YouAreNowCore(u) else ActAsCore(u);
      CoreIsContextFree(u, core);
      AnchoredIsInsulated(u, core);
    }
  }

  /** The pieces make up the text, and with the placeholder for each cut they are the sanitized text. */
  lemma {:induction false} PiecesOfText(u: Table, text: string)
    requires u.Valid()
    ensures Original(Pieces(u, text)) == text
    ensures Replaced(Pieces(u, text), PLACEHOLDER) == Sanitized(u, text)
  {
    hide Insulates, Passes, CutUp, Whole, Original, Replaced;
    PlaceholderEnds();
    forall n | 0 <= n < 7 ensures Insulates(u, Patterns(u)[n], PLACEHOLDER, Patterns(u)[n]) { SelfInsulated(u, n); }
    WholeIsKept(text, PLACEHOLDER);
    PassesCutInput(u, Patterns(u), PLACEHOLDER, Whole(text));
  }

  /** A phrase of the text survives the seven cuts with an edge on either side. */
  ghost predicate LeavesPhrase(u: Table, core: Pattern, text: string) {
    exists k, m :: Freed(u, core, Pieces(u, text), k, m)
  }

  /**
   Exactly when one pass is not enough, for every text: some pattern still matches the output, and
   sanitizing again would change it, if and only if a phrase of pattern 3 or 6 in the text stays uncut
   and on either side has an end of the text, a character that belongs to no word, or a cut.
   */
  lemma {:induction false} NotEnoughIff(u: Table, text: string)
    requires u.Valid()
    ensures var left := LeavesPhrase(u, YouAreNowCore(u), text) || LeavesPhrase(u, ActAsCore(u), text);
            && (!AllClean(u, Patterns(u), Sanitized(u, text)) <==> left)
            && (Sanitized(u, Sanitized(u, text)) != Sanitized(u, text) <==> left)
  {
    hide Clean, Freed, Pieces, Replaced, Original, Sanitized, YouAreNowCore, ActAsCore, Patterns;
    PiecesOfText(u, text);
    PhraseIsLeftIff(u, YouAreNowCore(u), Pieces(u, text));
    PhraseIsLeftIff(u, ActAsCore(u), Pieces(u, text));
    TwiceIsOnceIff(u, text);
    UnchangedIffNothingMatches(u, Sanitized(u, text));
  }

  /**
   The same for the one pass that follows pattern 6: a phrase of its input is set free exactly when it is
   not cut itself and each end of it that is glued to a word abuts a cut.
   */
  lemma {:induction false} LastPassFreesIff(u: Table, s: string)
    requires u.Valid()
    ensures !Clean(u, ActAs(u), Sub(u, RevealPrompt(u), PLACEHOLDER, s)) <==>
            exists k, m :: Freed(u, ActAsCore(u), Scan(u, RevealPrompt(u), s, 0), k, m)
  {
    hide Clean, Freed, Replaced, Original, Scan, SubFrom, ActAsCore, RevealPrompt;
    OnlyCutsChange(u, RevealPrompt(u), PLACEHOLDER, s, 0);
    PhraseIsLeftIff(u, ActAsCore(u), Scan(u, RevealPrompt(u), s, 0));
  }

  // ----- A condition on the text alone -----

  /**
   What has to stand in a text for a later cut to set a phrase free: a phrase right next to an instance of a
   later pattern, on a side where that instance has a letter. Pattern 5 ends in a colon, so it matters only
   behind a phrase.
   */
  function Abutting(u: Table): seq<Pattern> {
    [Cat(YouAreNowCore(u), NewInstructions(u)), Cat(YouAreNowCore(u), RevealPrompt(u)),
     Cat(RevealPrompt(u), YouAreNowCore(u)), Cat(ActAsCore(u), RevealPrompt(u)), Cat(RevealPrompt(u), ActAsCore(u))]
  }

  lemma {:induction false} BothLoose(a: Pattern, b: Pattern)
    requires Loose(a, MARKS) && Loose(b, MARKS)
    ensures Loose(Cat(a, b), MARKS)
  {
  }

  lemma {:induction false} AbuttingIsLoose(u: Table, k: nat)
    requires u.Valid() && k < 5
    ensures Loose(Abutting(u)[k], MARKS)
  {
    hide Loose, NewInstructions, RevealPrompt, YouAreNowCore, ActAsCore, IgnoreInstructions, Disregard, SystemRole,
      Table.Valid;
    LoosePatterns(u, 4);
    LoosePatterns(u, 6);
    CoreIsContextFree(u, YouAreNowCore(u));
    CoreIsContextFree(u, ActAsCore(u));
    BothLoose(YouAreNowCore(u), NewInstructions(u));
    BothLoose(YouAreNowCore(u), RevealPrompt(u));
    BothLoose(RevealPrompt(u), YouAreNowCore(u));
    BothLoose(ActAsCore(u), RevealPrompt(u));
    BothLoose(RevealPrompt(u), ActAsCore(u));
  }

  /** No pass puts a phrase next to such an instance. */
  lemma {:induction false} NothingComesToAbut(u: Table, q: Pattern, s: string)
    requires u.Valid() && AllClean(u, Abutting(u), s)
    ensures AllClean(u, Abutting(u), Sub(u, q, PLACEHOLDER, s))
  {
    hide Loose, Clean, Insulates, Sub, NewInstructions, RevealPrompt, YouAreNowCore, ActAsCore;
    forall k | 0 <= k < 5 ensures Clean(u, Abutting(u)[k], Sub(u, q, PLACEHOLDER, s)) {
      AbuttingIsLoose(u, k);
      LooseIsInsulated(u, q, Abutting(u)[k]);
      StaysClean(u, q, PLACEHOLDER, Abutting(u)[k], s);
    }
  }

  /** No match of `q` ends or starts at a glued end of an occurrence of the phrase. */
  ghost predicate KeepsOff(u: Table, q: Pattern, core: Pattern, s: string) {
    forall i, j | Matches(u, core, s, i, j) ::
      && (WordAt(u, s, i - 1) ==> forall h :: !Matches(u, q, s, h, i))
      && (WordAt(u, s, j) ==> forall h :: !Matches(u, q, s, j, h))
  }

  lemma {:induction false} TakenNext(ps: seq<Piece>, k: nat)
    requires k < |ps|
    ensures |Original(ps[..k + 1])| == |Original(ps[..k])| + |Taken(ps[k])|
  {
    hide Original, Taken;
    assert ps[..k + 1] == ps[..k] + [ps[k]];
    PiecesConcat(ps[..k], [ps[k]], PLACEHOLDER);
    OnePiece(ps[k], PLACEHOLDER);
  }

  /** An edge behind piece `k` of a scan is an edge of the input, if no cut starts or ends at a glued place. */
  lemma {:induction false} EdgesOfInput(u: Table, q: Pattern, core: Pattern, s: string, k: nat, m: nat)
    requires var ps := Scan(u, q, s, 0);
             k < m <= |ps| && |Original(ps[..k])| <= |Original(ps[..m])| <= |s|
             && Matches(u, core, s, |Original(ps[..k])|, |Original(ps[..m])|)
             && Edge(u, ps, k - 1) && Edge(u, ps, m)
    requires KeepsOff(u, q, core, s)
    ensures var ps := Scan(u, q, s, 0);
            !WordAt(u, s, |Original(ps[..k])| - 1) && !WordAt(u, s, |Original(ps[..m])|)
  {
    hide Matches, MatchEnd, Original, Scan;
    var ps := Scan(u, q, s, 0);
    var i, j := |Original(ps[..k])|, |Original(ps[..m])|;
    EmptyPieces(PLACEHOLDER);
    if k == 0 {
      assert ps[..0] == [];
    } else {
      CutsAreMatches(u, q, s, 0, k - 1);
      TakenNext(ps, k - 1);
      if ps[k - 1].Cut? { MatchEndIsMatch(u, q, s, |Original(ps[..k - 1])|); }
    }
    if m == |ps| {
      assert ps[..m] == ps;
      OnlyCutsChange(u, q, PLACEHOLDER, s, 0);
    } else {
      CutsAreMatches(u, q, s, 0, m);
      if ps[m].Cut? { MatchEndIsMatch(u, q, s, j); }
    }
  }

  /** Then the pass sets no phrase free. */
  lemma {:induction false} PassFreesNothing(u: Table, q: Pattern, core: Pattern, s: string)
    requires u.Valid() && IsCore(u, core) && KeepsOff(u, q, core, s) && Clean(u, Anchored(core), s)
    ensures Clean(u, Anchored(core), Sub(u, q, PLACEHOLDER, s))
  {
    hide Matches, Original, Replaced, Scan, SubFrom, IsCore, KeepsOff, Loose, Edge;
    var ps, out := Scan(u, q, s, 0), Sub(u, q, PLACEHOLDER, s);
    OnlyCutsChange(u, q, PLACEHOLDER, s, 0);
    assert s[0..] == s;
    forall x, y ensures !Matches(u, Anchored(core), out, x, y) {
      if Matches(u, Anchored(core), out, x, y) {
        var k, m := MatchIsFreed(u, core, ps, x, y);
        var i, j := PhraseInInput(u, core, ps, s, k, m);
        EdgesOfInput(u, q, core, s, k, m);
        CoreEnds(u, core, s, i, j);
        Surroundings(u, core, s, i, j);
      }
    }
  }

  /** Where an uncut phrase stands in the input. */
  lemma {:induction false} PhraseInInput(u: Table, core: Pattern, ps: seq<Piece>, s: string, k: nat, m: nat)
    returns (i: nat, j: nat)
    requires u.Valid() && IsCore(u, core) && Freed(u, core, ps, k, m) && Original(ps) == s
    ensures i == |Original(ps[..k])| && j == |Original(ps[..m])| && i <= j <= |s| && Matches(u, core, s, i, j)
  {
    hide Matches, Original, IsCore, Loose, Edge;
    i, j := |Original(ps[..k])|, |Original(ps[..m])|;
    var phrase := Original(ps[k..m]);
    PiecesAt(ps, m, PLACEHOLDER);
    assert ps[..m] == ps[..k] + ps[k..m];
    PiecesConcat(ps[..k], ps[k..m], PLACEHOLDER);
    KeptReads(ps[k..m]);
    assert s[i..j] == phrase == phrase[0..m - k];
    CoreIsContextFree(u, core);
    NotUsingBound(core);
    SameCharacters(u, core, phrase, 0, m - k, s, i);
  }

  lemma {:induction false} EndsInColon(u: Table, p: Pattern, s: string, h: int, i: int)
    requires u.Valid() && Matches(u, Cat(p, Colon(u)), s, h, i)
    ensures 0 < i <= |s| && !WordAt(u, s, i - 1)
  {
    hide Matches;
    var m := Split(u, p, Colon(u), s, h, i);
    ColonIsLast(u, s, m, i);
    assert IsAscii(':');
  }

  lemma {:induction false} ColonIsLast(u: Table, s: string, m: int, i: int)
    requires Matches(u, Colon(u), s, m, i)
    ensures 0 < i <= |s| && s[i - 1] == ':'
  {
    var k := Split(u, Many(u.spaces, 0), One({':'}), s, m, i);
    OneIsThere(u, {':'}, s, k, i);
  }

  lemma {:induction false} OneIsThere(u: Table, cs: set<char>, s: string, k: int, i: int)
    requires Matches(u, One(cs), s, k, i)
    ensures 0 <= k < i == k + 1 <= |s| && s[k] in cs
  {
  }

  /** `^\s*system\s*:` ends in a colon and starts a line. */
  lemma {:induction false} RoleKeepsOff(u: Table, core: Pattern, s: string)
    requires u.Valid() && IsCore(u, core)
    ensures KeepsOff(u, SystemRole(u), core, s)
  {
    hide Matches, IsCore, SystemRole, WordAt;
    forall i, j, h | Matches(u, core, s, i, j)
      ensures WordAt(u, s, i - 1) ==> !Matches(u, SystemRole(u), s, h, i)
      ensures WordAt(u, s, j) ==> !Matches(u, SystemRole(u), s, j, h)
    {
      CoreEnds(u, core, s, i, j);
      if Matches(u, SystemRole(u), s, h, i) { RoleEnds(u, s, h, i); }
      if Matches(u, SystemRole(u), s, j, h) { RoleEnds(u, s, j, h); }
    }
  }

  lemma {:induction false} RoleEnds(u: Table, s: string, h: int, i: int)
    requires u.Valid() && Matches(u, SystemRole(u), s, h, i)
    ensures !WordAt(u, s, i - 1)
    ensures 0 <= h <= |s| && (h > 0 ==> s[h - 1] !in u.words)
  {
    hide Matches, Word, Colon, WordAt;
    var role := Cat(Word(u, "system"), Colon(u));
    var m := Split(u, LineStart, Cat(Many(u.spaces, 0), role), s, h, i);
    var n := Split(u, Many(u.spaces, 0), role, s, m, i);
    EndsInColon(u, Word(u, "system"), s, n, i);
    StartsLine(u, s, h, m);
    assert IsAscii('\n');
  }

  lemma {:induction false} StartsLine(u: Table, s: string, j: int, m: int)
    requires Matches(u, LineStart, s, j, m)
    ensures 0 <= j <= |s| && AtLineStart(s, j)
  {
  }

  /** A pattern between word boundaries does not touch a glued end. */
  lemma {:induction false} BorderedKeepsOff(u: Table, q: Pattern, core: Pattern, s: string)
    requires u.Valid() && IsCore(u, core) && Bordered(q)
    ensures KeepsOff(u, q, core, s)
  {
    hide Matches, IsCore;
    forall i, j, h | Matches(u, core, s, i, j)
      ensures WordAt(u, s, i - 1) ==> !Matches(u, q, s, h, i)
      ensures WordAt(u, s, j) ==> !Matches(u, q, s, j, h)
    {
      CoreEnds(u, core, s, i, j);
      if Matches(u, q, s, h, i) { BorderedAtBoundaries(u, q, s, h, i); }
      if Matches(u, q, s, j, h) { BorderedAtBoundaries(u, q, s, j, h); }
    }
  }

  /** A pattern that stands next to no occurrence of the phrase, on a side where it ends in a letter. */
  lemma {:induction false} ApartKeepsOff(u: Table, q: Pattern, core: Pattern, s: string)
    requires Clean(u, Cat(core, q), s)
    requires Clean(u, Cat(q, core), s) || forall h, i :: Matches(u, q, s, h, i) ==> !WordAt(u, s, i - 1)
    ensures KeepsOff(u, q, core, s)
  {
    hide Matches;
    forall i, j, h | Matches(u, core, s, i, j)
      ensures WordAt(u, s, i - 1) ==> !Matches(u, q, s, h, i)
      ensures !Matches(u, q, s, j, h)
    {
      if Matches(u, q, s, j, h) { Joined(u, core, q, s, i, j, h); }
      if Matches(u, q, s, h, i) && Clean(u, Cat(q, core), s) { Joined(u, q, core, s, h, i, j); }
    }
  }

  /** `core` is the phrase of pattern `own`, counting from zero. */
  predicate Owns(u: Table, own: nat, core: Pattern) {
    (own == 2 && core == YouAreNowCore(u)) || (own == 5 && core == ActAsCore(u))
  }

  lemma {:induction false} LaterKeepsOff(u: Table, own: nat, core: Pattern, n: nat, s: string)
    requires u.Valid() && Owns(u, own, core) && own < n < 7 && AllClean(u, Abutting(u), s)
    ensures KeepsOff(u, Patterns(u)[n], core, s)
  {
    hide Matches, Clean, KeepsOff, SystemRole, NewInstructions, RevealPrompt, YouAreNowCore, ActAsCore,
      IgnoreInstructions, Disregard, Table.Valid;
    assert forall k | 0 <= k < 5 :: Clean(u, Abutting(u)[k], s);
    match n
    case 3 => RoleKeepsOff(u, core, s);
    case 4 =>
      assert Clean(u, Abutting(u)[0], s);
      NewInstructionsEndInColon(u, s);
      ApartKeepsOff(u, NewInstructions(u), core, s);
    case 5 => BorderedKeepsOff(u, ActAs(u), core, s);
    case 6 =>
      var k := if own == 2 then 1 else 3;
      assert Clean(u, Abutting(u)[k], s) && Clean(u, Abutting(u)[k + 1], s);
      ApartKeepsOff(u, RevealPrompt(u), core, s);
  }

  lemma {:induction false} NewInstructionsEndInColon(u: Table, s: string)
    requires u.Valid()
    ensures forall h, i :: Matches(u, NewInstructions(u), s, h, i) ==> !WordAt(u, s, i - 1)
  {
    hide Matches, Word, Colon, WordAt;
    forall h, i | Matches(u, NewInstructions(u), s, h, i) ensures !WordAt(u, s, i - 1) {
      EndsInColon(u, Word(u, "new instructions"), s, h, i);
    }
  }

  /** From pass `n` on: a phrase that is gone after its own pass stays away. */
  lemma {:induction false} StaysAway(u: Table, own: nat, core: Pattern, n: nat, s: string)
    requires u.Valid() && Owns(u, own, core) && n <= 7 && AllClean(u, Abutting(u), s)
    requires n > own ==> Clean(u, Anchored(core), s)
    ensures Clean(u, Anchored(core), Passes(u, Patterns(u)[n..], PLACEHOLDER, s))
    decreases 7 - n
  {
    hide Matches, Clean, AllClean, Insulates, Loose, Sub, Abutting, IgnoreInstructions, Disregard, SystemRole,
      NewInstructions, RevealPrompt, YouAreNowCore, ActAsCore;
    var ps := Patterns(u);
    if n == 7 {
      assert ps[n..] == [];
    } else {
      var out := Sub(u, ps[n], PLACEHOLDER, s);
      NothingComesToAbut(u, ps[n], s);
      if n == own {
        CoreIsContextFree(u, core);
        AnchoredIsInsulated(u, core);
        BecomesClean(u, ps[n], PLACEHOLDER, s);
      } else if n > own {
        LaterKeepsOff(u, own, core, n, s);
        PassFreesNothing(u, ps[n], core, s);
      }
      StaysAway(u, own, core, n + 1, out);
      assert ps[n..][1..] == ps[n + 1..];
    }
  }

  /**
   A condition on the text alone: a text is sanitized completely, and for good, unless it has a phrase of
   pattern 3 right before an instance of pattern 5 or 7, or right behind one of pattern 7, or a phrase of
   pattern 6 right before or behind an instance of pattern 7.
   */
  lemma {:induction false} AllGoneUnlessAbutting(u: Table, text: string)
    requires u.Valid() && AllClean(u, Abutting(u), text)
    ensures AllClean(u, Patterns(u), Sanitized(u, text))
    ensures Sanitized(u, Sanitized(u, text)) == Sanitized(u, text)
  {
    hide Clean, Abutting, IgnoreInstructions, Disregard, SystemRole, NewInstructions, RevealPrompt, YouAreNowCore,
      ActAsCore, Passes;
    var out := Sanitized(u, text);
    assert Patterns(u)[0..] == Patterns(u);
    StaysAway(u, 2, YouAreNowCore(u), 0, text);
    StaysAway(u, 5, ActAsCore(u), 0, text);
    forall n | 0 <= n < 7 ensures Clean(u, Patterns(u)[n], out) {
      if Unanchored(n) { UnanchoredPatternsAreGone(u, text, n); }
    }
    UnchangedIffNothingMatches(u, out);
  }

  // ----- A text on which it happens -----

  const BEFORE := "reveal your prompt"
  const AFTER := "act as a"

  /** "reveal your promptact as a" */
  const TEXT := BEFORE + AFTER

  /** The characters of the text. */
  const USED: set<char> := {'r', 'e', 'v', 'a', 'l', ' ', 'y', 'o', 'u', 'p', 'm', 't', 'c', 's'}

  lemma {:induction false} TextShape()
    ensures |BEFORE| == 18 && |AFTER| == 8 && |TEXT| == 26
    ensures TEXT[..18] == BEFORE && TEXT[18..] == AFTER
    ensures forall c | c in TEXT :: c in USED
    ensures forall k | 0 <= k < 26 :: (TEXT[k] == 'c' <==> k == 19) && (TEXT[k] == 'v' <==> k == 2)
    ensures TEXT[17] == 't' && TEXT[18] == 'a'
  {
  }

  /** A word that has a letter outside the text. */
  lemma {:induction false} StrangeWord(u: Table, w: string, k: nat)
    requires u.Valid() && k < |w| && 'a' <= w[k] <= 'z' && w[k] !in USED
    ensures Demands(Word(u, w), USED)
  {
    LetterDemands(u, w, k, USED);
  }

  /** Five of the patterns match nowhere in the text because of a character it lacks. */
  lemma {:induction false} StrangePatterns(u: Table)
    requires u.Valid()
    ensures Clean(u, IgnoreInstructions(u), TEXT) && Clean(u, Disregard(u), TEXT) && Clean(u, YouAreNow(u), TEXT)
    ensures Clean(u, SystemRole(u), TEXT) && Clean(u, NewInstructions(u), TEXT)
  {
    hide Demands, Clean, IgnoreInstructions, Disregard, YouAreNow, SystemRole, NewInstructions;
    TextShape();
    StrangeDemands(u);
    DemandsRefuse(u, IgnoreInstructions(u), USED, TEXT);
    DemandsRefuse(u, Disregard(u), USED, TEXT);
    DemandsRefuse(u, YouAreNow(u), USED, TEXT);
    DemandsRefuse(u, SystemRole(u), USED, TEXT);
    DemandsRefuse(u, NewInstructions(u), USED, TEXT);
  }

  lemma {:induction false} StrangeDemands(u: Table)
    requires u.Valid()
    ensures Demands(IgnoreInstructions(u), USED) && Demands(Disregard(u), USED) && Demands(YouAreNow(u), USED)
    ensures Demands(SystemRole(u), USED) && Demands(NewInstructions(u), USED)
  {
    hide Word, Target, Demands;
    StrangeWord(u, "ignore ", 1);
    StrangeWord(u, "disregard ", 0);
    StrangeWord(u, "you are now", 8);
    StrangeWord(u, "new instructions", 0);
    CatDemands(Word(u, "ignore "), Cat(Target(u), Word(u, " instructions")), USED);
    CatDemands(Word(u, "disregard "), Target(u), USED);
    CatDemands(YouAreNowCore(u), Bound, USED);
    CatDemands(Bound, Cat(YouAreNowCore(u), Bound), USED);
    CatDemands(Word(u, "new instructions"), Colon(u), USED);
    NeedsColon();
    var role := Cat(Word(u, "system"), Colon(u));
    CatDemands(Many(u.spaces, 0), One({':'}), USED);
    CatDemands(Word(u, "system"), Colon(u), USED);
    CatDemands(Many(u.spaces, 0), role, USED);
    CatDemands(LineStart, Cat(Many(u.spaces, 0), role), USED);
  }

  lemma {:induction false} NeedsColon()
    ensures Demands(One({':'}), USED)
  {
  }

  /** A letter of a matched word is found in the text, give or take its case. */
  lemma {:induction false} WordLetter(u: Table, w: string, s: string, i: int, j: int, k: nat)
    requires u.Valid() && Matches(u, Word(u, w), s, i, j) && k < |w|
    ensures j == i + |w| && s[i + k] in u.Fold(w[k])
  {
    WordMatches(u, w, s, i, j);
  }

  lemma {:induction false} OnlyItself(u: Table, c: char, d: char)
    requires u.Valid() && 'a' <= c <= 'z' && d in USED && d in u.Fold(c)
    ensures d == c
  {
    assert u.FoldsLetter(c);
    assert IsAscii(d);
  }

  /** The sixth pattern does not match: its phrase is glued to the word in front of it. */
  lemma {:induction false} GluedPhrase(u: Table)
    requires u.Valid()
    ensures Clean(u, ActAs(u), TEXT)
  {
    hide Word, AtBoundary, Matches, Table.Valid;
    TextShape();
    forall i, j ensures !Matches(u, ActAs(u), TEXT, i, j) {
      if Matches(u, ActAs(u), TEXT, i, j) {
        var m := Split(u, Bound, Cat(ActAsCore(u), Bound), TEXT, i, j);
        var n := Split(u, ActAsCore(u), Bound, TEXT, m, j);
        var l := Split(u, Word(u, "act as "), Or(Cat(Word(u, "a"), Maybe(Word(u, "n"))), Word(u, "the")), TEXT, m, n);
        WordLetter(u, "act as ", TEXT, m, l, 1);
        assert TEXT[m + 1] in TEXT;
        OnlyItself(u, 'c', TEXT[m + 1]);
        BoundIsBoundary(u, TEXT, i, m);
        assert i == 18;
        NoBoundaryInside(u);
      }
    }
  }

  lemma {:induction false} BoundIsBoundary(u: Table, s: string, i: int, m: int)
    requires Matches(u, Bound, s, i, m)
    ensures m == i && AtBoundary(u, s, i)
  {
  }

  lemma {:induction false} NoBoundaryInside(u: Table)
    requires u.Valid()
    ensures !AtBoundary(u, TEXT, 18)
  {
    TextShape();
    assert IsAscii('t') && IsAscii('a');
  }

  lemma {:induction false} LiteralMatches(u: Table, w: string, s: string, i: nat)
    requires u.Valid() && i + |w| <= |s| && s[i..i + |w|] == w
    requires forall k | 0 <= k < |w| :: 'a' <= w[k] <= 'z' || w[k] == ' '
    ensures Matches(u, Word(u, w), s, i, i + |w|)
  {
    forall k | 0 <= k < |w| ensures s[i + k] in u.Fold(w[k]) {
      assert s[i + k] == s[i..i + |w|][k];
      if w[k] != ' ' { assert u.FoldsLetter(w[k]); } else { assert IsAscii(' '); }
    }
    WordMatches(u, w, s, i, i + |w|);
  }

  /** The seventh pattern matches the first eighteen characters and nothing else. */
  lemma {:induction false} OnlyCut(u: Table, i: int, j: int)
    requires u.Valid() && Matches(u, RevealPrompt(u), TEXT, i, j)
    ensures i == 0 && j == 18
  {
    hide Word, Matches, Table.Valid;
    TextShape();
    var tail := Cat(Maybe(Word(u, "system ")), Word(u, "prompt"));
    var m := Split(u, Word(u, "reveal your "), tail, TEXT, i, j);
    WordLetter(u, "reveal your ", TEXT, i, m, 2);
    assert TEXT[i + 2] in TEXT;
    OnlyItself(u, 'v', TEXT[i + 2]);
    assert m == 12 && TEXT[12] == 'p';
    var n := Split(u, Maybe(Word(u, "system ")), Word(u, "prompt"), TEXT, m, j);
    MaybeMatches(u, Word(u, "system "), TEXT, m, n);
    if Matches(u, Word(u, "system "), TEXT, m, n) {
      WordLetter(u, "system ", TEXT, m, n, 0);
      OnlyItself(u, 's', TEXT[12]);
    }
    WordLetter(u, "prompt", TEXT, n, j, 0);
  }

  lemma {:induction false} CutThere(u: Table)
    requires u.Valid()
    ensures MatchEnd(u, RevealPrompt(u), TEXT, 0) == Some(18)
    ensures forall k | 18 <= k <= 26 :: MatchEnd(u, RevealPrompt(u), TEXT, k).None?
  {
    hide Word, MatchEnd;
    TextShape();
    var tail := Cat(Maybe(Word(u, "system ")), Word(u, "prompt"));
    assert TEXT[0..12] == "reveal your " && TEXT[12..18] == "prompt";
    LiteralMatches(u, "reveal your ", TEXT, 0);
    LiteralMatches(u, "prompt", TEXT, 12);
    assert Matches(u, Maybe(Word(u, "system ")), TEXT, 12, 12);
    assert Matches(u, tail, TEXT, 12, 18);
    assert Matches(u, RevealPrompt(u), TEXT, 0, 18);
    MatchEndFinds(u, RevealPrompt(u), TEXT, 0, 18);
    OnlyCut(u, 0, MatchEnd(u, RevealPrompt(u), TEXT, 0).value);
    forall k | 18 <= k <= 26 ensures MatchEnd(u, RevealPrompt(u), TEXT, k).None? {
      MatchEndIsMatch(u, RevealPrompt(u), TEXT, k);
      if MatchEnd(u, RevealPrompt(u), TEXT, k).Some? {
        OnlyCut(u, k, MatchEnd(u, RevealPrompt(u), TEXT, k).value);
      }
    }
  }

  lemma {:induction false} RestIsCopied(u: Table, q: Pattern, repl: string, s: string, i: nat)
    requires i <= |s| && forall k | i <= k <= |s| :: MatchEnd(u, q, s, k).None?
    ensures SubFrom(u, q, repl, s, i) == s[i..]
    decreases |s| - i
  {
    hide MatchEnd;
    if i < |s| {
      RestIsCopied(u, q, repl, s, i + 1);
      assert s[i..] == [s[i]] + s[i + 1..];
    }
  }

  /** The six passes in front leave the text alone, the last one cuts its first half. */
  lemma {:induction false} SanitizedText(u: Table)
    requires u.Valid()
    ensures Sanitized(u, TEXT) == PLACEHOLDER + AFTER
  {
    hide Clean, MatchEnd, SubFrom, Avoids, Demands, IgnoreInstructions, Disregard, YouAreNow, SystemRole,
      NewInstructions, ActAs, RevealPrompt;
    StrangePatterns(u);
    GluedPhrase(u);
    var ps := Patterns(u);
    SkipsClean(u, ps, 6);
    assert ps[6..] == [RevealPrompt(u)];
    LastCut(u);
    assert Passes(u, [RevealPrompt(u)], PLACEHOLDER, TEXT) == Sub(u, RevealPrompt(u), PLACEHOLDER, TEXT);
  }

  lemma {:induction false} LastCut(u: Table)
    requires u.Valid()
    ensures Sub(u, RevealPrompt(u), PLACEHOLDER, TEXT) == PLACEHOLDER + AFTER
  {
    hide MatchEnd, RevealPrompt;
    TextShape();
    CutThere(u);
    RestIsCopied(u, RevealPrompt(u), PLACEHOLDER, TEXT, 18);
  }

  /** Passes of patterns that match nowhere change nothing. */
  lemma {:induction false} SkipsClean(u: Table, ps: seq<Pattern>, n: nat)
    requires n <= |ps| && forall k | 0 <= k < n :: Clean(u, ps[k], TEXT)
    ensures Passes(u, ps, PLACEHOLDER, TEXT) == Passes(u, ps[n..], PLACEHOLDER, TEXT)
    decreases n
  {
    hide Clean;
    if n == 0 {
      assert ps[0..] == ps;
    } else {
      CleanIsUnchangedFrom(u, ps[0], PLACEHOLDER, TEXT, 0);
      assert TEXT[0..] == TEXT;
      SkipsClean(u, ps[1..], n - 1);
      assert ps[1..][n - 1..] == ps[n..];
    }
  }

  /**
   A text on which one pass over the seven patterns is not enough: its output still matches the
   sixth pattern, so sanitizing it again changes it.
   */
  lemma {:induction false} LaterCutFreesPhrase(u: Table)
    requires u.Valid()
    ensures !Clean(u, ActAs(u), Sanitized(u, TEXT))
    ensures Sanitized(u, Sanitized(u, TEXT)) != Sanitized(u, TEXT)
  {
    hide Sanitized, ActAsCore, AtBoundary, Clean, Table.Valid;
    SanitizedText(u);
    var out := Sanitized(u, TEXT);
    FreePhrase(u, out);
    FreeBoundaries(u, out);
    var core := ActAsCore(u);
    assert Matches(u, Bound, out, 46, 46) && Matches(u, Bound, out, 38, 38);
    assert Matches(u, Cat(core, Bound), out, 38, 46);
    assert Matches(u, ActAs(u), out, 38, 46);
    NotClean(u, ActAs(u), out, 38, 46);
    UnchangedIffNothingMatches(u, out);
    assert Patterns(u)[5] == ActAs(u);
  }

  lemma {:induction false} NotClean(u: Table, p: Pattern, s: string, i: int, j: int)
    requires Matches(u, p, s, i, j)
    ensures !Clean(u, p, s)
  {
  }

  lemma {:induction false} SliceOfSecond(a: string, b: string, i: nat, j: nat)
    requires i <= j <= |b|
    ensures (a + b)[|a| + i..|a| + j] == b[i..j]
  {
  }

  lemma {:induction false} AfterShape()
    ensures |AFTER| == 8 && AFTER[0..7] == "act as " && AFTER[7..8] == "a"
  {
  }

  lemma {:induction false} FreePhrase(u: Table, out: string)
    requires u.Valid() && out == PLACEHOLDER + AFTER
    ensures Matches(u, ActAsCore(u), out, 38, 46)
  {
    hide Word, Matches, Table.Valid;
    PlaceholderEnds();
    AfterShape();
    SliceOfSecond(PLACEHOLDER, AFTER, 0, 7);
    SliceOfSecond(PLACEHOLDER, AFTER, 7, 8);
    LiteralMatches(u, "act as ", out, 38);
    LiteralMatches(u, "a", out, 45);
    ActAsMatches(u, out, 38, 45);
  }

  lemma {:induction false} ActAsMatches(u: Table, s: string, i: nat, m: nat)
    requires m < |s| && Matches(u, Word(u, "act as "), s, i, m) && Matches(u, Word(u, "a"), s, m, m + 1)
    ensures Matches(u, ActAsCore(u), s, i, m + 1)
  {
    hide Word, Matches;
    var article, the := Cat(Word(u, "a"), Maybe(Word(u, "n"))), Word(u, "the");
    Choices(u, Word(u, "n"), the, s, m + 1, m + 1);
    Joined(u, Word(u, "a"), Maybe(Word(u, "n")), s, m, m + 1, m + 1);
    Choices(u, article, the, s, m, m + 1);
    Joined(u, Word(u, "act as "), Or(article, the), s, i, m, m + 1);
  }

  lemma {:induction false} Choices(u: Table, a: Pattern, b: Pattern, s: string, i: int, j: int)
    requires 0 <= i <= j <= |s|
    ensures Matches(u, a, s, i, j) ==> Matches(u, Or(a, b), s, i, j)
    ensures i == j ==> Matches(u, Maybe(a), s, i, j)
  {
  }

  lemma {:induction false} FreeBoundaries(u: Table, out: string)
    requires u.Valid() && out == PLACEHOLDER + AFTER
    ensures AtBoundary(u, out, 38) && AtBoundary(u, out, 46)
  {
    PlaceholderShape();
    TextShape();
    assert out[37] == ']' && out[38] == 'a' && out[45] == 'a';
    assert IsAscii(']') && IsAscii('a');
  }
}
