/**
 The fragment of Python's `re` that the redaction, sanitizing and parsing code uses: a
 backtracking matcher (`Ends`) with its order of preference, and the declarative meaning of
 a pattern (`Matches`), proved to agree.
 */
module Regex {
  import opened Wrappers
  import opened CharTable

  datatype Pattern =
    | Empty
    | One(cs: set<char>)                // a character class
    | Many(cs: set<char>, least: nat)   // a class repeated greedily, at least `least` times
    | Bound                             // \b
    | LineStart                         // ^ under MULTILINE
    | Cat(left: Pattern, right: Pattern)
    | Or(left: Pattern, right: Pattern) // left is preferred
    | Maybe(body: Pattern)              // greedy ?

  // ----- Building blocks -----

  /** `p` written `n` times. */
  function Times(p: Pattern, n: nat): Pattern {
    if n == 0 then Empty else Cat(p, Times(p, n - 1))
  }

  /** `p{0,n}`, greedy. */
  function UpTo(p: Pattern, n: nat): Pattern {
    if n == 0 then Empty else Maybe(Cat(p, UpTo(p, n - 1)))
  }

  /** The patterns one after the other. */
  function Row(ps: seq<Pattern>): Pattern {
    if ps == [] then Empty else Cat(ps[0], Row(ps[1..]))
  }

  /** `\b...\b` */
  function Anchored(p: Pattern): Pattern { Cat(Bound, Cat(p, Bound)) }

  /** A literal string under IGNORECASE. */
  function Word(u: Table, w: string): Pattern {
    if w == "" then Empty else Cat(One(u.Fold(w[0])), Word(u, w[1..]))
  }

  // ----- The matcher -----

  function WordAt(u: Table, s: string, i: int): bool {
    0 <= i < |s| && s[i] in u.words
  }

  predicate AtBoundary(u: Table, s: string, i: int) {
    WordAt(u, s, i - 1) != WordAt(u, s, i)
  }

  predicate AtLineStart(s: string, i: int) {
    i <= 0 || (i <= |s| && s[i - 1] == '\n')
  }

  /** The length of the longest run of class members starting at `i`. */
  function RunLength(cs: set<char>, s: string, i: nat): (n: nat)
    requires i <= |s|
    ensures i + n <= |s|
    ensures forall k | i <= k < i + n :: s[k] in cs
    ensures i + n < |s| ==> s[i + n] !in cs
    decreases |s| - i
  {
    if i < |s| && s[i] in cs then 1 + RunLength(cs, s, i + 1) else 0
  }

  /** All of `es` lie between `lo` and `hi`. */
  predicate Between(es: seq<nat>, lo: int, hi: int) {
    forall k | 0 <= k < |es| :: lo <= es[k] <= hi
  }

  function Countdown(hi: int, lo: nat): (es: seq<nat>)
    ensures forall e: nat :: e in es <==> lo <= e <= hi
    ensures Between(es, lo, hi)
    ensures lo <= hi ==> es != [] && es[0] == hi
    decreases hi
  {
    if hi < lo then [] else [hi] + Countdown(hi - 1, lo)
  }

  /** Every position at which a match of `p` starting at `i` may end, most preferred first. */
  function Ends(u: Table, p: Pattern, s: string, i: nat): (es: seq<nat>)
    requires i <= |s|
    ensures Between(es, i, |s|)
    decreases p, 0
  {
    match p
    case Empty => [i]
    case One(cs) => if i < |s| && s[i] in cs then [i + 1] else []
    case Many(cs, least) => Countdown(i + RunLength(cs, s, i), i + least)
    case Bound => if AtBoundary(u, s, i) then [i] else []
    case LineStart => if AtLineStart(s, i) then [i] else []
    case Cat(a, b) => EndsAfter(u, b, s, i, Ends(u, a, s, i))
    case Or(a, b) => Ends(u, a, s, i) + Ends(u, b, s, i)
    case Maybe(a) => Ends(u, a, s, i) + [i]
  }

  /** The ends of `p` from each of the given starting points in turn. */
  function EndsAfter(u: Table, p: Pattern, s: string, i: nat, starts: seq<nat>): (es: seq<nat>)
    requires Between(starts, i, |s|)
    ensures Between(es, i, |s|)
    decreases p, 1, |starts|
  {
    if starts == [] then [] else Ends(u, p, s, starts[0]) + EndsAfter(u, p, s, i, starts[1..])
  }

  /** `pattern.match(s, i).end()`: where the preferred match starting at `i` ends. */
  function MatchEnd(u: Table, p: Pattern, s: string, i: nat): (r: Option<nat>)
    requires i <= |s|
    ensures r.Some? ==> i <= r.value <= |s|
  {
    var es := Ends(u, p, s, i);
    if es == [] then None else Some(es[0])
  }

  // ----- The meaning of a pattern -----

  /** `s[i..j]`, in its context, is an instance of `p`. */
  ghost predicate Matches(u: Table, p: Pattern, s: string, i: int, j: int)
    ensures Matches(u, p, s, i, j) ==> 0 <= i <= j <= |s|
    decreases p
  {
    && 0 <= i <= j <= |s|
    && match p
       case Empty => j == i
       case One(cs) => j == i + 1 && s[i] in cs
       case Many(cs, least) => i + least <= j && forall k | i <= k < j :: s[k] in cs
       case Bound => j == i && AtBoundary(u, s, i)
       case LineStart => j == i && AtLineStart(s, i)
       case Cat(a, b) => exists m :: Matches(u, a, s, i, m) && Matches(u, b, s, m, j)
       case Or(a, b) => Matches(u, a, s, i, j) || Matches(u, b, s, i, j)
       case Maybe(a) => Matches(u, a, s, i, j) || j == i
  }

  /** A match of a concatenation is a match of its left part followed by one of its right part. */
  lemma {:induction false} Split(u: Table, a: Pattern, b: Pattern, s: string, i: int, j: int) returns (m: int)
    requires Matches(u, Cat(a, b), s, i, j)
    ensures Matches(u, a, s, i, m) && Matches(u, b, s, m, j)
  {
    m :| Matches(u, a, s, i, m) && Matches(u, b, s, m, j);
  }

  lemma {:induction false} Joined(u: Table, a: Pattern, b: Pattern, s: string, i: int, m: int, j: int)
    requires Matches(u, a, s, i, m) && Matches(u, b, s, m, j)
    ensures Matches(u, Cat(a, b), s, i, j)
  {
  }

  /** No part of `s` is an instance of `p`: `pattern.search(s)` is None. */
  ghost predicate Clean(u: Table, p: Pattern, s: string) {
    forall i, j :: !Matches(u, p, s, i, j)
  }

  /** The matcher finds an end exactly when the pattern's meaning allows it. */
  lemma {:induction false} EndsAreMatches(u: Table, p: Pattern, s: string, i: nat, j: nat)
    requires i <= |s|
    ensures j in Ends(u, p, s, i) <==> Matches(u, p, s, i, j)
    decreases p, 0
  {
    match p
    case Empty =>
    case One(_) =>
    case Bound =>
    case LineStart =>
    case Many(cs, least) =>
      var _ := RunLength(cs, s, i);
    case Cat(a, b) =>
      EndsAfterAreMatches(u, b, s, i, Ends(u, a, s, i), j);
      forall m: nat | m <= |s| ensures m in Ends(u, a, s, i) <==> Matches(u, a, s, i, m) {
        EndsAreMatches(u, a, s, i, m);
      }
      if Matches(u, p, s, i, j) {
        var m := Split(u, a, b, s, i, j);
        assert m in Ends(u, a, s, i);
      }
    case Or(a, b) =>
      EndsAreMatches(u, a, s, i, j);
      EndsAreMatches(u, b, s, i, j);
    case Maybe(a) =>
      EndsAreMatches(u, a, s, i, j);
  }

  lemma {:induction false} EndsAfterAreMatches(
      u: Table, p: Pattern, s: string, i: nat, starts: seq<nat>, j: nat)
    requires Between(starts, i, |s|)
    ensures j in EndsAfter(u, p, s, i, starts) <==> exists m: nat :: m in starts && Matches(u, p, s, m, j)
    decreases p, 1, |starts|
  {
    if starts != [] {
      EndsAreMatches(u, p, s, starts[0], j);
      EndsAfterAreMatches(u, p, s, i, starts[1..], j);
      assert starts == [starts[0]] + starts[1..];
    }
  }

  /** `match` succeeds exactly when some instance of the pattern starts at `i`. */
  lemma {:induction false} MatchEndIsMatch(u: Table, p: Pattern, s: string, i: nat)
    requires i <= |s|
    ensures MatchEnd(u, p, s, i).Some? <==> exists j :: Matches(u, p, s, i, j)
    ensures MatchEnd(u, p, s, i).Some? ==> Matches(u, p, s, i, MatchEnd(u, p, s, i).value)
  {
    var es := Ends(u, p, s, i);
    if es != [] {
      EndsAreMatches(u, p, s, i, es[0]);
    } else if j :| Matches(u, p, s, i, j) {
      MatchEndFinds(u, p, s, i, j);
    }
  }

  lemma {:induction false} MatchEndFinds(u: Table, p: Pattern, s: string, i: nat, j: int)
    requires i <= |s| && Matches(u, p, s, i, j)
    ensures MatchEnd(u, p, s, i).Some? && Matches(u, p, s, i, MatchEnd(u, p, s, i).value)
  {
    EndsAreMatches(u, p, s, i, j);
    EndsAreMatches(u, p, s, i, Ends(u, p, s, i)[0]);
  }

  /** The preferred match of a concatenation: prefer the left part, then the right one. */
  lemma {:induction false} CatMatchEnd(u: Table, a: Pattern, b: Pattern, s: string, i: nat)
    requires i <= |s|
    requires MatchEnd(u, a, s, i).Some?
    requires MatchEnd(u, b, s, MatchEnd(u, a, s, i).value).Some?
    ensures MatchEnd(u, Cat(a, b), s, i) == MatchEnd(u, b, s, MatchEnd(u, a, s, i).value)
  {
    var starts := Ends(u, a, s, i);
    assert EndsAfter(u, b, s, i, starts) == Ends(u, b, s, starts[0]) + EndsAfter(u, b, s, i, starts[1..]);
  }

  /** `pattern.search(s, i).start()`: the leftmost position from `i` on where a match starts. */
  function Find(u: Table, p: Pattern, s: string, i: nat): (r: Option<nat>)
    requires i <= |s|
    ensures r.Some? ==> i <= r.value <= |s| && MatchEnd(u, p, s, r.value).Some?
    ensures r.Some? ==> forall k | i <= k < r.value :: MatchEnd(u, p, s, k).None?
    ensures r.None? ==> forall k | i <= k <= |s| :: MatchEnd(u, p, s, k).None?
    decreases |s| - i
  {
    if MatchEnd(u, p, s, i).Some? then Some(i)
    else if i == |s| then None
    else Find(u, p, s, i + 1)
  }

  /** `search` finds something exactly when the string is not clean. */
  lemma {:induction false} FindIffNotClean(u: Table, p: Pattern, s: string)
    ensures Find(u, p, s, 0).Some? <==> !Clean(u, p, s)
  {
    hide MatchEnd, Matches;
    var r := Find(u, p, s, 0);
    if r.Some? {
      MatchEndIsMatch(u, p, s, r.value);
    }
    if !Clean(u, p, s) {
      var i, j :| Matches(u, p, s, i, j);
      MatchEndFinds(u, p, s, i, j);
    }
  }

  // ----- Syntactic properties and what they guarantee of every match -----

  /** No character class of `p` contains any of `marks`. */
  ghost predicate Avoids(p: Pattern, marks: set<char>) {
    match p
    case One(cs) => cs !! marks
    case Many(cs, _) => cs !! marks
    case Cat(a, b) => Avoids(a, marks) && Avoids(b, marks)
    case Or(a, b) => Avoids(a, marks) && Avoids(b, marks)
    case Maybe(a) => Avoids(a, marks)
    case _ => true
  }

  /** Every match of `p` consumes a character outside `stop`. */
  ghost predicate Demands(p: Pattern, stop: set<char>) {
    match p
    case One(cs) => cs !! stop
    case Many(cs, least) => least > 0 && cs !! stop
    case Cat(a, b) => Demands(a, stop) || Demands(b, stop)
    case Or(a, b) => Demands(a, stop) && Demands(b, stop)
    case _ => false
  }

  predicate UsesBound(p: Pattern) {
    match p
    case Bound => true
    case Cat(a, b) => UsesBound(a) || UsesBound(b)
    case Or(a, b) => UsesBound(a) || UsesBound(b)
    case Maybe(a) => UsesBound(a)
    case _ => false
  }

  predicate UsesLineStart(p: Pattern) {
    match p
    case LineStart => true
    case Cat(a, b) => UsesLineStart(a) || UsesLineStart(b)
    case Or(a, b) => UsesLineStart(a) || UsesLineStart(b)
    case Maybe(a) => UsesLineStart(a)
    case _ => false
  }

  /** `p` has the form `\b...\b`. */
  predicate Bordered(p: Pattern) {
    p.Cat? && p.left == Bound && p.right.Cat? && p.right.right == Bound
  }

  lemma {:induction false} AvoidsMarks(u: Table, p: Pattern, marks: set<char>, s: string, i: int, j: int)
    requires Avoids(p, marks) && Matches(u, p, s, i, j)
    ensures forall k | i <= k < j :: s[k] !in marks
    decreases p
  {
    match p
    case Cat(a, b) =>
      var m := Split(u, a, b, s, i, j);
      AvoidsMarks(u, a, marks, s, i, m);
      AvoidsMarks(u, b, marks, s, m, j);
    case Or(a, b) =>
      if Matches(u, a, s, i, j) {
        AvoidsMarks(u, a, marks, s, i, j);
      } else {
        AvoidsMarks(u, b, marks, s, i, j);
      }
    case Maybe(a) =>
      if Matches(u, a, s, i, j) { AvoidsMarks(u, a, marks, s, i, j); }
    case _ =>
  }

  lemma {:induction false} DemandsOutsider(u: Table, p: Pattern, stop: set<char>, s: string, i: int, j: int)
    requires Demands(p, stop) && Matches(u, p, s, i, j)
    ensures exists k :: i <= k < j && s[k] !in stop
    decreases p
  {
    match p
    case One(_) =>
      assert s[i] !in stop;
    case Many(_, _) =>
      assert s[i] !in stop;
    case Cat(a, b) =>
      var m := Split(u, a, b, s, i, j);
      if Demands(a, stop) {
        DemandsOutsider(u, a, stop, s, i, m);
      } else {
        DemandsOutsider(u, b, stop, s, m, j);
      }
    case Or(a, b) =>
      if Matches(u, a, s, i, j) {
        DemandsOutsider(u, a, stop, s, i, j);
      } else {
        DemandsOutsider(u, b, stop, s, i, j);
      }
  }

  lemma {:induction false} BorderedAtBoundaries(u: Table, p: Pattern, s: string, i: int, j: int)
    requires Bordered(p) && Matches(u, p, s, i, j)
    ensures AtBoundary(u, s, i) && AtBoundary(u, s, j)
  {
    var m := Split(u, Bound, p.right, s, i, j);
    var n := Split(u, p.right.left, Bound, s, m, j);
  }

  /**
   A match carries over from `t` to `s`, shifted by `d`, when the consumed characters agree
   and every context the pattern looks at that holds in `t` also holds in `s`.
   */
  lemma {:induction false} Transfer(u: Table, p: Pattern, t: string, i: int, j: int, s: string, d: int)
    requires Matches(u, p, t, i, j)
    requires 0 <= i + d && j + d <= |s|
    requires forall k | i <= k < j :: t[k] == s[k + d]
    requires UsesBound(p) ==> forall k | i <= k <= j && AtBoundary(u, t, k) :: AtBoundary(u, s, k + d)
    requires UsesLineStart(p) ==> forall k | i <= k <= j && AtLineStart(t, k) :: AtLineStart(s, k + d)
    ensures Matches(u, p, s, i + d, j + d)
    decreases p
  {
    match p
    case Many(cs, least) =>
      forall k | i + d <= k < j + d ensures s[k] in cs {
        assert t[k - d] == s[k - d + d];
      }
    case Cat(a, b) =>
      var m := Split(u, a, b, t, i, j);
      Transfer(u, a, t, i, m, s, d);
      Transfer(u, b, t, m, j, s, d);
    case Or(a, b) =>
      if Matches(u, a, t, i, j) {
        Transfer(u, a, t, i, j, s, d);
      } else {
        Transfer(u, b, t, i, j, s, d);
      }
    case Maybe(a) =>
      if Matches(u, a, t, i, j) { Transfer(u, a, t, i, j, s, d); }
    case _ =>
  }

  // ----- The same properties for the building blocks -----

  lemma {:induction false} AvoidsFewer(p: Pattern, marks: set<char>, fewer: set<char>)
    requires Avoids(p, marks) && fewer <= marks
    ensures Avoids(p, fewer)
  {
    match p
    case Cat(a, b) =>
      AvoidsFewer(a, marks, fewer);
      AvoidsFewer(b, marks, fewer);
    case Or(a, b) =>
      AvoidsFewer(a, marks, fewer);
      AvoidsFewer(b, marks, fewer);
    case Maybe(a) => AvoidsFewer(a, marks, fewer);
    case _ =>
  }

  lemma {:induction false} DemandsLess(p: Pattern, stop: set<char>)
    requires Demands(p, stop)
    ensures Demands(p, {})
  {
    match p
    case Cat(a, b) =>
      if Demands(a, stop) { DemandsLess(a, stop); } else { DemandsLess(b, stop); }
    case Or(a, b) =>
      DemandsLess(a, stop);
      DemandsLess(b, stop);
    case _ =>
  }

  /** A string made of stop characters only has no match of a pattern that demands another. */
  lemma {:induction false} DemandsRefuse(u: Table, p: Pattern, stop: set<char>, s: string)
    requires Demands(p, stop) && forall c | c in s :: c in stop
    ensures Clean(u, p, s)
  {
    forall i, j ensures !Matches(u, p, s, i, j) {
      if Matches(u, p, s, i, j) { DemandsOutsider(u, p, stop, s, i, j); }
    }
  }

  lemma {:induction false} TimesAvoids(p: Pattern, n: nat, marks: set<char>)
    requires Avoids(p, marks)
    ensures Avoids(Times(p, n), marks)
  {
    if n > 0 { TimesAvoids(p, n - 1, marks); }
  }

  lemma {:induction false} UpToAvoids(p: Pattern, n: nat, marks: set<char>)
    requires Avoids(p, marks)
    ensures Avoids(UpTo(p, n), marks)
  {
    if n > 0 { UpToAvoids(p, n - 1, marks); }
  }

  /** Repetition of a context-free pattern is context-free. */
  lemma {:induction false} RepetitionIsContextFree(p: Pattern, n: nat)
    requires !UsesBound(p) && !UsesLineStart(p)
    ensures !UsesBound(Times(p, n)) && !UsesLineStart(Times(p, n))
    ensures !UsesBound(UpTo(p, n)) && !UsesLineStart(UpTo(p, n))
  {
    if n > 0 { RepetitionIsContextFree(p, n - 1); }
  }

  lemma {:induction false} RowAvoids(ps: seq<Pattern>, marks: set<char>)
    requires forall k | 0 <= k < |ps| :: Avoids(ps[k], marks)
    ensures Avoids(Row(ps), marks)
  {
    if ps != [] { RowAvoids(ps[1..], marks); }
  }

  lemma {:induction false} RowDemands(ps: seq<Pattern>, k: nat, stop: set<char>)
    requires k < |ps| && Demands(ps[k], stop)
    ensures Demands(Row(ps), stop)
  {
    if k > 0 { RowDemands(ps[1..], k - 1, stop); }
  }

  lemma {:induction false} RowIsContextFree(ps: seq<Pattern>)
    requires forall k | 0 <= k < |ps| :: !UsesBound(ps[k]) && !UsesLineStart(ps[k])
    ensures !UsesBound(Row(ps)) && !UsesLineStart(Row(ps))
  {
    if ps != [] { RowIsContextFree(ps[1..]); }
  }

  lemma {:induction false} WordAvoids(u: Table, w: string, marks: set<char>)
    requires forall k | 0 <= k < |w| :: u.Fold(w[k]) !! marks
    ensures Avoids(Word(u, w), marks)
  {
    if w != "" { WordAvoids(u, w[1..], marks); }
  }

  lemma {:induction false} WordDemands(u: Table, w: string, k: nat, stop: set<char>)
    requires k < |w| && u.Fold(w[k]) !! stop
    ensures Demands(Word(u, w), stop)
  {
    if k > 0 { WordDemands(u, w[1..], k - 1, stop); }
  }

  /** A letter that none of the characters stands for makes its word demand another. */
  lemma {:induction false} LetterDemands(u: Table, w: string, k: nat, stop: set<char>)
    requires u.Valid() && k < |w| && IsAsciiLetter(w[k])
    requires forall c | c in stop :: IsAscii(c) && AsciiLower(c) != AsciiLower(w[k])
    ensures Demands(Word(u, w), stop)
  {
    assert u.FoldsLetter(w[k]);
    WordDemands(u, w, k, stop);
  }

  lemma {:induction false} CatDemands(a: Pattern, b: Pattern, stop: set<char>)
    requires Demands(a, stop) || Demands(b, stop)
    ensures Demands(Cat(a, b), stop)
  {
  }

  /** A word looks at no context. */
  lemma {:induction false} WordIsContextFree(u: Table, w: string)
    ensures !UsesBound(Word(u, w)) && !UsesLineStart(Word(u, w))
  {
    if w != "" { WordIsContextFree(u, w[1..]); }
  }

  /** A word matches exactly the strings of its length that agree with it up to case. */
  lemma {:induction false} WordMatches(u: Table, w: string, s: string, i: int, j: int)
    ensures Matches(u, Word(u, w), s, i, j) <==>
            0 <= i && j == i + |w| <= |s| && forall k | 0 <= k < |w| :: s[i + k] in u.Fold(w[k])
    decreases |w|
  {
    if w != "" {
      var rest := Word(u, w[1..]);
      WordMatches(u, w[1..], s, i + 1, j);
      if Matches(u, Word(u, w), s, i, j) {
        var m := Split(u, One(u.Fold(w[0])), rest, s, i, j);
        forall k | 0 <= k < |w| ensures s[i + k] in u.Fold(w[k]) {
          if k > 0 { assert s[i + 1 + (k - 1)] in u.Fold(w[1..][k - 1]); }
        }
      }
      if 0 <= i && j == i + |w| <= |s| && forall k | 0 <= k < |w| :: s[i + k] in u.Fold(w[k]) {
        forall k | 0 <= k < |w[1..]| ensures s[i + 1 + k] in u.Fold(w[1..][k]) {
          assert s[i + (k + 1)] in u.Fold(w[k + 1]);
        }
        assert s[i + 0] in u.Fold(w[0]);
        assert Matches(u, One(u.Fold(w[0])), s, i, i + 1) && Matches(u, rest, s, i + 1, j);
      }
    }
  }
}
