/**
 `Pattern.sub`: leftmost, non-overlapping replacement. `BecomesClean` and `StaysClean` say when a replacement
 pass leaves no match of a pattern anywhere in its output, `PassesCutInput` what several passes do together.
 */
module Substitution {
  import opened Wrappers
  import opened CharTable
  import opened Regex

  /** `q.sub(repl, s)`, scanning from position `i`. */
  function SubFrom(u: Table, q: Pattern, repl: string, s: string, i: nat): string
    requires i <= |s|
    decreases |s| - i
  {
    if i == |s| then ""
    else
      match MatchEnd(u, q, s, i)
      case Some(j) => if j > i then repl + SubFrom(u, q, repl, s, j)
                      else [s[i]] + SubFrom(u, q, repl, s, i + 1)
      case None => [s[i]] + SubFrom(u, q, repl, s, i + 1)
  }

  /** `q.sub(repl, s)`. */
  function Sub(u: Table, q: Pattern, repl: string, s: string): string {
    SubFrom(u, q, repl, s, 0)
  }

  /** A match of `q` starting at `i` is consumed here by a scan that has reached `i`. */
  predicate CutsAt(u: Table, q: Pattern, s: string, i: nat)
    requires i <= |s|
  {
    var e := MatchEnd(u, q, s, i);
    e.Some? && e.value > i
  }

  /** The conditions under which replacing `q` by `repl` cannot bring about a match of `p`. */
  ghost predicate Insulates(u: Table, q: Pattern, repl: string, p: Pattern) {
    && |repl| >= 2
    && Avoids(p, {repl[0], repl[|repl| - 1]})
    && Demands(p, {})
    && Clean(u, p, repl)
    && (UsesBound(p) ==> Bordered(q))
    && (UsesLineStart(p) ==> repl[|repl| - 1] != '\n')
  }

  /** The output `pre`, produced so far, and the input position `i` agree on the context. */
  ghost predicate InStep(u: Table, q: Pattern, repl: string, s: string, i: nat, pre: string)
    requires i <= |s| && repl != ""
  {
    || (pre == "" && i == 0)
    || (pre != "" && i > 0 && pre[|pre| - 1] == s[i - 1])
    || (pre != "" && pre[|pre| - 1] == repl[|repl| - 1] && (Bordered(q) ==> AtBoundary(u, s, i)))
  }

  /** A stretch of output free of the first placeholder character was copied from the input. */
  lemma {:induction false} CopiedPrefix(u: Table, q: Pattern, repl: string, s: string, i: nat, n: nat)
    requires i <= |s| && repl != "" && n <= |SubFrom(u, q, repl, s, i)|
    requires repl[0] !in SubFrom(u, q, repl, s, i)[..n]
    ensures i + n <= |s|
    ensures SubFrom(u, q, repl, s, i) == s[i..i + n] + SubFrom(u, q, repl, s, i + n)
    decreases n
  {
    hide MatchEnd, Matches;
    if n > 0 {
      var out := SubFrom(u, q, repl, s, i);
      assert out[0] in out[..n];
      assert !CutsAt(u, q, s, i);
      var rest := SubFrom(u, q, repl, s, i + 1);
      assert out[1..] == rest;
      assert rest[..n - 1] == out[1..n];
      CopiedPrefix(u, q, repl, s, i + 1, n - 1);
    }
  }

  /** Context seen at the current end of the output is also seen at the input position. */
  lemma {:induction false} ContextCarries(u: Table, q: Pattern, repl: string, s: string, i: nat, pre: string, t: string)
    requires i <= |s| && repl != "" && InStep(u, q, repl, s, i, pre)
    requires t == pre + SubFrom(u, q, repl, s, i)
    ensures Bordered(q) && AtBoundary(u, t, |pre|) ==> AtBoundary(u, s, i)
    ensures repl[|repl| - 1] != '\n' && AtLineStart(t, |pre|) ==> AtLineStart(s, i)
  {
    hide MatchEnd, Matches;
    if i < |s| && CutsAt(u, q, s, i) {
      MatchEndIsMatch(u, q, s, i);
      if Bordered(q) { BorderedAtBoundaries(u, q, s, i, MatchEnd(u, q, s, i).value); }
    }
    assert pre != "" ==> t[|pre| - 1] == pre[|pre| - 1];
  }

  /** Context seen in a copied stretch of output is also seen at the matching input position. */
  lemma {:induction false} ContextAlongCopy(
      u: Table, q: Pattern, repl: string, s: string, i: nat, pre: string, t: string, m: nat)
    requires i <= |s| && repl != "" && InStep(u, q, repl, s, i, pre)
    requires t == pre + SubFrom(u, q, repl, s, i) && m <= |SubFrom(u, q, repl, s, i)|
    requires repl[0] !in SubFrom(u, q, repl, s, i)[..m]
    ensures i + m <= |s| && SubFrom(u, q, repl, s, i)[..m] == s[i..i + m]
    ensures Bordered(q) && AtBoundary(u, t, |pre| + m) ==> AtBoundary(u, s, i + m)
    ensures repl[|repl| - 1] != '\n' && AtLineStart(t, |pre| + m) ==> AtLineStart(s, i + m)
  {
    hide MatchEnd, Matches;
    CopiedPrefix(u, q, repl, s, i, m);
    var pre' := pre + s[i..i + m];
    assert t == pre' + SubFrom(u, q, repl, s, i + m);
    if m == 0 {
      assert pre' == pre;
    } else {
      assert pre'[|pre'| - 1] == s[i + m - 1];
    }
    ContextCarries(u, q, repl, s, i + m, pre', t);
  }

  /** A match in the output that starts where the scan stands is a match in the input. */
  lemma {:induction false} MatchCarriesBack(
      u: Table, q: Pattern, repl: string, p: Pattern, s: string, i: nat, pre: string, t: string, y: int)
    requires i <= |s| && Insulates(u, q, repl, p) && InStep(u, q, repl, s, i, pre)
    requires t == pre + SubFrom(u, q, repl, s, i) && Matches(u, p, t, |pre|, y)
    ensures Matches(u, p, s, i, i + y - |pre|)
  {
    hide MatchEnd, Matches, SubFrom, AtBoundary, AtLineStart, InStep;
    var x, out := |pre|, SubFrom(u, q, repl, s, i);
    AvoidsMarks(u, p, {repl[0], repl[|repl| - 1]}, t, x, y);
    assert t[x..y] == out[..y - x];
    ContextAlongCopy(u, q, repl, s, i, pre, t, y - x);
    forall k | x <= k <= y
      ensures UsesBound(p) && AtBoundary(u, t, k) ==> AtBoundary(u, s, k + (i - x))
      ensures UsesLineStart(p) && AtLineStart(t, k) ==> AtLineStart(s, k + (i - x))
    {
      assert repl[0] !in out[..k - x] by {
        assert forall m | 0 <= m < k - x :: out[m] == t[x + m];
      }
      ContextAlongCopy(u, q, repl, s, i, pre, t, k - x);
    }
    forall k | x <= k < y ensures t[k] == s[k + (i - x)] {
      assert t[k] == t[x..y][k - x] == s[i..i + y - x][k - x];
    }
    Transfer(u, p, t, x, y, s, i - x);
  }

  /** No match starts inside a placeholder. */
  lemma {:induction false} NoMatchInPlaceholder(
      u: Table, q: Pattern, repl: string, p: Pattern, pre: string, post: string, x: int, y: int)
    requires Insulates(u, q, repl, p)
    requires |pre| <= x < |pre| + |repl|
    ensures !Matches(u, p, pre + repl + post, x, y)
  {
    hide MatchEnd, Matches;
    var t := pre + repl + post;
    if Matches(u, p, t, x, y) {
      var n := |pre|;
      AvoidsMarks(u, p, {repl[0], repl[|repl| - 1]}, t, x, y);
      DemandsOutsider(u, p, {}, t, x, y);
      assert t[n] == repl[0] && t[n + |repl| - 1] == repl[|repl| - 1];
      assert n < x && y <= n + |repl| - 1;
      assert forall k | n <= k < n + |repl| :: t[k] == repl[k - n];
      Transfer(u, p, t, x, y, repl, -n);
      assert false;
    }
  }

  /** Every match of `p` in `s` starts where a scan would cut a match of `q`. */
  ghost predicate CutsCover(u: Table, q: Pattern, p: Pattern, s: string) {
    forall a: nat, b | a <= |s| && Matches(u, p, s, a, b) :: CutsAt(u, q, s, a)
  }

  /** No match starts at a character that the scan copied. */
  lemma {:induction false} NoMatchAtCopy(
      u: Table, q: Pattern, repl: string, p: Pattern, s: string, i: nat, pre: string, y: int)
    requires i < |s| && Insulates(u, q, repl, p) && InStep(u, q, repl, s, i, pre)
    requires CutsCover(u, q, p, s) && !CutsAt(u, q, s, i)
    ensures !Matches(u, p, pre + SubFrom(u, q, repl, s, i), |pre|, y)
  {
    hide MatchEnd, Matches;
    var t := pre + SubFrom(u, q, repl, s, i);
    if Matches(u, p, t, |pre|, y) {
      MatchCarriesBack(u, q, repl, p, s, i, pre, t, y);
    }
  }

  /** The context after a cut: the placeholder is behind, and a `\b...\b` cut ends at a boundary. */
  lemma {:induction false} InStepAfterCut(u: Table, q: Pattern, repl: string, s: string, i: nat, pre: string)
    requires i <= |s| && repl != "" && CutsAt(u, q, s, i)
    ensures InStep(u, q, repl, s, MatchEnd(u, q, s, i).value, pre + repl)
  {
    hide MatchEnd, Matches;
    MatchEndIsMatch(u, q, s, i);
    if Bordered(q) { BorderedAtBoundaries(u, q, s, i, MatchEnd(u, q, s, i).value); }
  }

  /**
   Replacing `q` leaves no match of `p` at or after the current end of the output, if every
   match of `p` in the input starts where the scan would cut one of `q`.
   */
  lemma {:induction false} NothingNewFrom(
      u: Table, q: Pattern, repl: string, p: Pattern, s: string, i: nat, pre: string, x: int, y: int)
    requires i <= |s| && Insulates(u, q, repl, p) && InStep(u, q, repl, s, i, pre)
    requires CutsCover(u, q, p, s) && |pre| <= x
    ensures !Matches(u, p, pre + SubFrom(u, q, repl, s, i), x, y)
    decreases |s| - i
  {
    hide MatchEnd, Matches;
    var t := pre + SubFrom(u, q, repl, s, i);
    if i == |s| {
      if Matches(u, p, t, x, y) { DemandsOutsider(u, p, {}, t, x, y); }
    } else if CutsAt(u, q, s, i) {
      var j := MatchEnd(u, q, s, i).value;
      assert t == (pre + repl) + SubFrom(u, q, repl, s, j);
      if x < |pre + repl| {
        NoMatchInPlaceholder(u, q, repl, p, pre, SubFrom(u, q, repl, s, j), x, y);
      } else {
        InStepAfterCut(u, q, repl, s, i, pre);
        NothingNewFrom(u, q, repl, p, s, j, pre + repl, x, y);
      }
    } else if x == |pre| {
      NoMatchAtCopy(u, q, repl, p, s, i, pre, y);
    } else {
      assert t == (pre + [s[i]]) + SubFrom(u, q, repl, s, i + 1);
      NothingNewFrom(u, q, repl, p, s, i + 1, pre + [s[i]], x, y);
    }
  }

  /** A pass over a string that is clean of `p` leaves it clean of `p`. */
  lemma {:induction false} StaysClean(u: Table, q: Pattern, repl: string, p: Pattern, s: string)
    requires Insulates(u, q, repl, p) && Clean(u, p, s)
    ensures Clean(u, p, Sub(u, q, repl, s))
  {
    hide MatchEnd, Matches;
    forall x, y ensures !Matches(u, p, Sub(u, q, repl, s), x, y) {
      if x >= 0 {
        NothingNewFrom(u, q, repl, p, s, 0, "", x, y);
        assert "" + Sub(u, q, repl, s) == Sub(u, q, repl, s);
      }
    }
  }

  /** After its own pass, a pattern matches nowhere. */
  lemma {:induction false} BecomesClean(u: Table, q: Pattern, repl: string, s: string)
    requires Insulates(u, q, repl, q)
    ensures Clean(u, q, Sub(u, q, repl, s))
  {
    hide MatchEnd, Matches;
    forall a: nat, b | a <= |s| && Matches(u, q, s, a, b) ensures CutsAt(u, q, s, a) {
      MatchEndFinds(u, q, s, a, b);
      DemandsOutsider(u, q, {}, s, a, MatchEnd(u, q, s, a).value);
    }
    forall x, y ensures !Matches(u, q, Sub(u, q, repl, s), x, y) {
      if x >= 0 {
        NothingNewFrom(u, q, repl, q, s, 0, "", x, y);
        assert "" + Sub(u, q, repl, s) == Sub(u, q, repl, s);
      }
    }
  }

  // ----- When a pass changes nothing -----

  function Count(c: char, s: string): nat {
    if s == "" then 0 else (if s[0] == c then 1 else 0) + Count(c, s[1..])
  }

  lemma {:induction false} CountAppend(c: char, a: string, b: string)
    ensures Count(c, a + b) == Count(c, a) + Count(c, b)
  {
    if a == "" {
      assert a + b == b;
    } else {
      CountAppend(c, a[1..], b);
      assert (a + b)[1..] == a[1..] + b;
    }
  }

  lemma {:induction false} CountNone(c: char, s: string)
    requires c !in s
    ensures Count(c, s) == 0
  {
    if s != "" { CountNone(c, s[1..]); }
  }

  /** A pass over a clean string copies it. */
  lemma {:induction false} CleanIsUnchangedFrom(u: Table, q: Pattern, repl: string, s: string, i: nat)
    requires i <= |s| && Clean(u, q, s)
    ensures SubFrom(u, q, repl, s, i) == s[i..]
    decreases |s| - i
  {
    hide MatchEnd, Matches;
    if i < |s| {
      MatchEndIsMatch(u, q, s, i);
      CleanIsUnchangedFrom(u, q, repl, s, i + 1);
      assert s[i..] == [s[i]] + s[i + 1..];
    }
  }

  /**
   No pass loses an occurrence of a placeholder character, and a pass that has a match to cut
   gains one.
   */
  lemma {:induction false} MarksGrowFrom(u: Table, q: Pattern, repl: string, mark: char, s: string, i: nat, a: nat)
    requires i <= |s| && Avoids(q, {mark}) && mark in repl
    ensures Count(mark, SubFrom(u, q, repl, s, i)) >= Count(mark, s[i..])
    ensures i <= a < |s| && CutsAt(u, q, s, a) ==> Count(mark, SubFrom(u, q, repl, s, i)) > Count(mark, s[i..])
    decreases |s| - i
  {
    hide MatchEnd, Matches;
    if i < |s| {
      if CutsAt(u, q, s, i) {
        var j := MatchEnd(u, q, s, i).value;
        MatchEndIsMatch(u, q, s, i);
        AvoidsMarks(u, q, {mark}, s, i, j);
        CountNone(mark, s[i..j]);
        assert s[i..] == s[i..j] + s[j..];
        CountAppend(mark, s[i..j], s[j..]);
        CountAppend(mark, repl, SubFrom(u, q, repl, s, j));
        CountSome(mark, repl);
        MarksGrowFrom(u, q, repl, mark, s, j, a);
      } else {
        var rest := SubFrom(u, q, repl, s, i + 1);
        assert ([s[i]] + rest)[1..] == rest && s[i..][1..] == s[i + 1..];
        MarksGrowFrom(u, q, repl, mark, s, i + 1, a);
      }
    }
  }

  lemma {:induction false} CountSome(c: char, s: string)
    requires c in s
    ensures Count(c, s) > 0
  {
    if s[0] != c { CountSome(c, s[1..]); }
  }

  /** A pass never loses a placeholder character, and gains one exactly when something matched. */
  lemma {:induction false} PassMarks(u: Table, q: Pattern, repl: string, mark: char, s: string)
    requires Avoids(q, {mark}) && mark in repl && Demands(q, {})
    ensures Count(mark, Sub(u, q, repl, s)) >= Count(mark, s)
    ensures Clean(u, q, s) ==> Sub(u, q, repl, s) == s
    ensures !Clean(u, q, s) ==> Count(mark, Sub(u, q, repl, s)) > Count(mark, s)
  {
    hide MatchEnd, Matches;
    assert s[0..] == s;
    MarksGrowFrom(u, q, repl, mark, s, 0, 0);
    if Clean(u, q, s) {
      CleanIsUnchangedFrom(u, q, repl, s, 0);
    } else {
      var a, b :| Matches(u, q, s, a, b);
      DemandsOutsider(u, q, {}, s, a, b);
      MatchEndFinds(u, q, s, a, b);
      DemandsOutsider(u, q, {}, s, a, MatchEnd(u, q, s, a).value);
      MarksGrowFrom(u, q, repl, mark, s, 0, a);
    }
  }

  // ----- What a pass keeps -----

  /** One step of a scan: a character copied, or a match cut out. */
  datatype Piece = Kept(c: char) | Cut(text: string)

  /** The scan behind `SubFrom`, as data. */
  function Scan(u: Table, q: Pattern, s: string, i: nat): seq<Piece>
    requires i <= |s|
    decreases |s| - i
  {
    if i == |s| then []
    else
      match MatchEnd(u, q, s, i)
      case Some(j) => if j > i then [Cut(s[i..j])] + Scan(u, q, s, j)
                      else [Kept(s[i])] + Scan(u, q, s, i + 1)
      case None => [Kept(s[i])] + Scan(u, q, s, i + 1)
  }

  /** What a piece takes from the input, and what it puts into the output. */
  function Taken(p: Piece): string {
    match p
    case Kept(c) => [c]
    case Cut(text) => text
  }

  function Put(p: Piece, repl: string): string {
    match p
    case Kept(c) => [c]
    case Cut(_) => repl
  }

  function Original(ps: seq<Piece>): string {
    if ps == [] then ""
    else Taken(ps[0]) + Original(ps[1..])
  }

  function Replaced(ps: seq<Piece>, repl: string): string {
    if ps == [] then ""
    else Put(ps[0], repl) + Replaced(ps[1..], repl)
  }

  lemma {:induction false} PiecesOfCons(p: Piece, ps: seq<Piece>, repl: string)
    ensures Original([p] + ps) == Taken(p) + Original(ps)
    ensures Replaced([p] + ps, repl) == Put(p, repl) + Replaced(ps, repl)
  {
    assert ([p] + ps)[1..] == ps;
  }

  lemma {:induction false} SplitSlice(s: string, i: nat, j: nat)
    requires i <= j <= |s|
    ensures s[i..] == s[i..j] + s[j..]
  {
  }

  lemma {:induction false} ScanCuts(u: Table, q: Pattern, s: string, i: nat)
    requires i <= |s| && CutsAt(u, q, s, i)
    ensures var j := MatchEnd(u, q, s, i).value;
            i < j <= |s| && Scan(u, q, s, i) == [Cut(s[i..j])] + Scan(u, q, s, j)
  {
    hide MatchEnd;
  }

  lemma {:induction false} ScanKeeps(u: Table, q: Pattern, s: string, i: nat)
    requires i < |s| && !CutsAt(u, q, s, i)
    ensures Scan(u, q, s, i) == [Kept(s[i])] + Scan(u, q, s, i + 1)
  {
    hide MatchEnd;
  }

  /** The pieces cover the input in order; the output differs from it only in the cut pieces. */
  lemma {:induction false} OnlyCutsChange(u: Table, q: Pattern, repl: string, s: string, i: nat)
    requires i <= |s|
    ensures Original(Scan(u, q, s, i)) == s[i..]
    ensures Replaced(Scan(u, q, s, i), repl) == SubFrom(u, q, repl, s, i)
    decreases |s| - i
  {
    hide MatchEnd, Original, Replaced;
    if i == |s| {
      EmptyPieces(repl);
    } else if CutsAt(u, q, s, i) {
      ScanCuts(u, q, s, i);
      SubCuts(u, q, repl, s, i);
      hide Scan, SubFrom;
      var j := MatchEnd(u, q, s, i).value;
      OnlyCutsChange(u, q, repl, s, j);
      PiecesOfCons(Cut(s[i..j]), Scan(u, q, s, j), repl);
      SplitSlice(s, i, j);
    } else {
      ScanKeeps(u, q, s, i);
      SubKeeps(u, q, repl, s, i);
      hide Scan, SubFrom;
      OnlyCutsChange(u, q, repl, s, i + 1);
      PiecesOfCons(Kept(s[i]), Scan(u, q, s, i + 1), repl);
      SplitSlice(s, i, i + 1);
      assert s[i..i + 1] == [s[i]];
    }
  }

  lemma {:induction false} SubCuts(u: Table, q: Pattern, repl: string, s: string, i: nat)
    requires i < |s| && CutsAt(u, q, s, i)
    ensures SubFrom(u, q, repl, s, i) == repl + SubFrom(u, q, repl, s, MatchEnd(u, q, s, i).value)
  {
    hide MatchEnd;
  }

  lemma {:induction false} SubKeeps(u: Table, q: Pattern, repl: string, s: string, i: nat)
    requires i < |s| && !CutsAt(u, q, s, i)
    ensures SubFrom(u, q, repl, s, i) == [s[i]] + SubFrom(u, q, repl, s, i + 1)
  {
    hide MatchEnd;
  }

  lemma {:induction false} EmptyPieces(repl: string)
    ensures Original([]) == "" && Replaced([], repl) == ""
  {
  }

  /** Piece `k` of a scan is the preferred match at its place in the input, or a character where there is none. */
  ghost predicate PieceFits(u: Table, q: Pattern, s: string, at: nat, p: Piece) {
    && at <= |s|
    && match p
       case Cut(text) => text != "" && at + |text| <= |s| && text == s[at..at + |text|]
                         && MatchEnd(u, q, s, at) == Some(at + |text|)
       case Kept(c) => at < |s| && c == s[at] && !CutsAt(u, q, s, at)
  }

  lemma {:induction false} FirstPieceFits(u: Table, q: Pattern, s: string, i: nat)
    requires i < |s|
    ensures |Scan(u, q, s, i)| > 0 && PieceFits(u, q, s, i, Scan(u, q, s, i)[0])
  {
    hide MatchEnd;
  }

  /** Each cut piece is an instance of the pattern, read in its place in the input. */
  lemma {:induction false} CutsAreMatches(u: Table, q: Pattern, s: string, i: nat, k: nat)
    requires i <= |s| && k < |Scan(u, q, s, i)|
    ensures PieceFits(u, q, s, i + |Original(Scan(u, q, s, i)[..k])|, Scan(u, q, s, i)[k])
    decreases k
  {
    hide MatchEnd, Original, Replaced, PieceFits;
    var ps := Scan(u, q, s, i);
    if k == 0 {
      FirstPieceFits(u, q, s, i);
      assert ps[..0] == [];
      EmptyPieces("");
    } else {
      var j := if CutsAt(u, q, s, i) then MatchEnd(u, q, s, i).value else i + 1;
      var rest := Scan(u, q, s, j);
      assert ps == [ps[0]] + rest;
      CutsAreMatches(u, q, s, j, k - 1);
      assert ps[..k] == [ps[0]] + rest[..k - 1];
      PiecesOfCons(ps[0], rest[..k - 1], "");
    }
  }

  // ----- Several passes with the same placeholder -----

  /** The passes `qs`, one after the other. */
  function Passes(u: Table, qs: seq<Pattern>, repl: string, s: string): string {
    if qs == [] then s else Passes(u, qs[1..], repl, Sub(u, qs[0], repl, s))
  }

  /** A string clean of `p` stays so through passes that all insulate `p`. */
  lemma {:induction false} PassesStayClean(u: Table, qs: seq<Pattern>, repl: string, p: Pattern, s: string)
    requires Clean(u, p, s)
    requires forall k | 0 <= k < |qs| :: Insulates(u, qs[k], repl, p)
    ensures Clean(u, p, Passes(u, qs, repl, s))
  {
    hide Sub, Clean, Insulates;
    if qs != [] {
      StaysClean(u, qs[0], repl, p, s);
      PassesStayClean(u, qs[1..], repl, p, Sub(u, qs[0], repl, s));
    }
  }

  /** Pattern `n` matches nowhere in the result, if its own pass and all later ones insulate it. */
  lemma {:induction false} PassesClean(u: Table, qs: seq<Pattern>, repl: string, n: nat, s: string)
    requires n < |qs|
    requires forall k | n <= k < |qs| :: Insulates(u, qs[k], repl, qs[n])
    ensures Clean(u, qs[n], Passes(u, qs, repl, s))
  {
    hide Sub, Clean, Insulates;
    if n == 0 {
      BecomesClean(u, qs[0], repl, s);
      PassesStayClean(u, qs[1..], repl, qs[0], Sub(u, qs[0], repl, s));
    } else {
      PassesClean(u, qs[1..], repl, n - 1, Sub(u, qs[0], repl, s));
    }
  }

  ghost predicate AllClean(u: Table, qs: seq<Pattern>, s: string) {
    forall k | 0 <= k < |qs| :: Clean(u, qs[k], s)
  }

  /** The passes leave a string alone exactly when none of their patterns matches it. */
  lemma {:induction false} PassesMarks(u: Table, qs: seq<Pattern>, repl: string, mark: char, s: string)
    requires mark in repl
    requires forall k | 0 <= k < |qs| :: Avoids(qs[k], {mark}) && Demands(qs[k], {})
    ensures Count(mark, Passes(u, qs, repl, s)) >= Count(mark, s)
    ensures AllClean(u, qs, s) ==> Passes(u, qs, repl, s) == s
    ensures !AllClean(u, qs, s) ==> Count(mark, Passes(u, qs, repl, s)) > Count(mark, s)
    decreases |qs|
  {
    hide Sub, Clean, Avoids, Demands, Count;
    if qs != [] {
      var s' := Sub(u, qs[0], repl, s);
      PassMarks(u, qs[0], repl, mark, s);
      PassesMarks(u, qs[1..], repl, mark, s');
      if AllClean(u, qs, s) {
        assert Clean(u, qs[0], s);
        assert AllClean(u, qs[1..], s);
      } else if Clean(u, qs[0], s) {
        var k :| 0 <= k < |qs| && !Clean(u, qs[k], s);
        assert !Clean(u, qs[1..][k - 1], s);
      }
    }
  }

  // ----- Several passes as one: what they cut out of the input -----

  /** The whole text, kept. */
  function Whole(s: string): seq<Piece> {
    if s == "" then [] else [Kept(s[0])] + Whole(s[1..])
  }

  /**
   `ps` cut up further by `sc`, a scan of its result: what `ps` cut stays cut, and what `sc` cuts out of
   the characters that were kept is cut too.
   */
  function Merge(sc: seq<Piece>, ps: seq<Piece>, repl: string): seq<Piece>
    decreases |ps|
  {
    if ps == [] || sc == [] then []
    else
      match ps[0]
      case Cut(_) => if |sc| < |repl| then [] else [ps[0]] + Merge(sc[|repl|..], ps[1..], repl)
      case Kept(_) =>
        match sc[0]
        case Kept(_) => [ps[0]] + Merge(sc[1..], ps[1..], repl)
        case Cut(x) => if 0 < |x| <= |ps| then [sc[0]] + Merge(sc[1..], ps[|x|..], repl) else []
  }

  /** The scan keeps every placeholder of `ps` and cuts only characters that `ps` kept. */
  predicate Aligned(sc: seq<Piece>, ps: seq<Piece>, repl: string)
    decreases |ps|
  {
    if ps == [] then sc == []
    else
      match ps[0]
      case Cut(_) => |sc| >= |repl| && sc[..|repl|] == Whole(repl) && Aligned(sc[|repl|..], ps[1..], repl)
      case Kept(c) =>
        sc != [] &&
        match sc[0]
        case Kept(d) => d == c && Aligned(sc[1..], ps[1..], repl)
        case Cut(x) => 0 < |x| <= |ps| && ps[..|x|] == Whole(x) && Aligned(sc[1..], ps[|x|..], repl)
  }

  lemma {:induction false} WholeIsKept(s: string, repl: string)
    ensures |Whole(s)| == |s| && (forall k | 0 <= k < |s| :: Whole(s)[k] == Kept(s[k]))
    ensures Original(Whole(s)) == s && Replaced(Whole(s), repl) == s
  {
    if s != "" {
      WholeIsKept(s[1..], repl);
      PiecesOfCons(Kept(s[0]), Whole(s[1..]), repl);
      assert s == [s[0]] + s[1..];
    }
  }

  lemma {:induction false} Associates(x: string, y: string, z: string)
    ensures (x + y) + z == x + (y + z)
  {
  }

  /** Both readings of pieces distribute over concatenation. */
  lemma {:induction false} PiecesConcat(a: seq<Piece>, b: seq<Piece>, repl: string)
    ensures Original(a + b) == Original(a) + Original(b)
    ensures Replaced(a + b, repl) == Replaced(a, repl) + Replaced(b, repl)
    decreases |a|
  {
    hide Original, Replaced, Taken, Put;
    if a == [] {
      assert a + b == b;
      EmptyPieces(repl);
    } else {
      var p, rest := a[0], a[1..];
      assert a == [p] + rest && a + b == [p] + (rest + b);
      PiecesOfCons(p, rest, repl);
      PiecesOfCons(p, rest + b, repl);
      PiecesConcat(rest, b, repl);
      Associates(Taken(p), Original(rest), Original(b));
      Associates(Put(p, repl), Replaced(rest, repl), Replaced(b, repl));
    }
  }

  lemma {:induction false} PiecesAt(ps: seq<Piece>, n: nat, repl: string)
    requires n <= |ps|
    ensures Original(ps) == Original(ps[..n]) + Original(ps[n..])
    ensures Replaced(ps, repl) == Replaced(ps[..n], repl) + Replaced(ps[n..], repl)
  {
    hide Original, Replaced;
    assert ps == ps[..n] + ps[n..];
    PiecesConcat(ps[..n], ps[n..], repl);
  }

  /** One piece in front: `in`, of the first pieces, and `out`, of the scan, are read as the merged piece is. */
  lemma {:induction false} JoinsOne(
      p: Piece, m: seq<Piece>, before: seq<Piece>, ps: seq<Piece>, scanned: seq<Piece>, sc: seq<Piece>, repl: string)
    requires Original(before) == Taken(p) && Replaced(scanned, repl) == Put(p, repl)
    requires Original(m) == Original(ps) && Replaced(m, repl) == Replaced(sc, repl)
    ensures Original([p] + m) == Original(before + ps)
    ensures Replaced([p] + m, repl) == Replaced(scanned + sc, repl)
  {
    hide Original, Replaced, Taken, Put;
    PiecesOfCons(p, m, repl);
    PiecesConcat(before, ps, repl);
    PiecesConcat(scanned, sc, repl);
  }

  lemma {:induction false} OnePiece(p: Piece, repl: string)
    ensures Original([p]) == Taken(p) && Replaced([p], repl) == Put(p, repl)
  {
    hide Taken, Put;
    PiecesOfCons(p, [], repl);
    EmptyPieces(repl);
    assert [p] + [] == [p];
  }

  /** Merging keeps the input of the first and the output of the second. */
  lemma {:induction false} MergeJoins(sc: seq<Piece>, ps: seq<Piece>, repl: string)
    requires repl != "" && Aligned(sc, ps, repl)
    ensures Original(Merge(sc, ps, repl)) == Original(ps)
    ensures Replaced(Merge(sc, ps, repl), repl) == Replaced(sc, repl)
    decreases |ps|
  {
    hide Original, Replaced, Whole;
    if ps == [] {
      EmptyPieces(repl);
    } else {
      var n, k := if ps[0].Cut? then |repl| else 1, if ps[0].Kept? && sc[0].Cut? then |sc[0].text| else 1;
      assert n <= |sc| && k <= |ps|;
      var p := if ps[0].Cut? then ps[0] else sc[0];
      MergeJoins(sc[n..], ps[k..], repl);
      OnePiece(p, repl);
      WholeIsKept(repl, repl);
      if p.Cut? { WholeIsKept(p.text, repl); }
      assert ps == ps[..k] + ps[k..] && sc == sc[..n] + sc[n..];
      assert ps[..1] == [ps[0]] && sc[..1] == [sc[0]];
      JoinsOne(p, Merge(sc[n..], ps[k..], repl), ps[..k], ps[k..], sc[..n], sc[n..], repl);
    }
  }

  /** A stretch of output free of the first placeholder character consists of kept characters. */
  lemma {:induction false} KeptForward(ps: seq<Piece>, n: nat, repl: string)
    requires repl != "" && n <= |Replaced(ps, repl)| && repl[0] !in Replaced(ps, repl)[..n]
    ensures n <= |ps| && ps[..n] == Whole(Replaced(ps, repl)[..n])
    ensures Replaced(ps[n..], repl) == Replaced(ps, repl)[n..]
    decreases n
  {
    if n > 0 {
      var out, rest := Replaced(ps, repl), Replaced(ps[1..], repl);
      assert out == Put(ps[0], repl) + rest;
      assert out[0] in out[..n];
      assert ps[0] == Kept(out[0]);
      assert out[1..] == rest && out[1..n] == rest[..n - 1];
      assert forall c | c in rest[..n - 1] :: c in out[..n];
      KeptForward(ps[1..], n - 1, repl);
      assert ps[1..][n - 1..] == ps[n..] && rest[n - 1..] == out[n..];
      assert out[..n][1..] == rest[..n - 1];
      assert ps[..n] == [ps[0]] + ps[1..][..n - 1];
    } else {
      assert ps[0..] == ps;
    }
  }

  /** A scan copies a stretch in which it cuts nothing. */
  lemma {:induction false} ScanCopies(u: Table, q: Pattern, s: string, i: nat, n: nat)
    requires i + n <= |s| && forall k | i <= k < i + n :: !CutsAt(u, q, s, k)
    ensures Scan(u, q, s, i) == Whole(s[i..i + n]) + Scan(u, q, s, i + n)
    decreases n
  {
    hide MatchEnd;
    if n > 0 {
      ScanCopies(u, q, s, i + 1, n - 1);
      assert s[i..i + n][1..] == s[i + 1..i + n];
      assert !CutsAt(u, q, s, i);
      ScanKeeps(u, q, s, i);
    }
  }

  /** No cut starts in a placeholder of an earlier pass. */
  lemma {:induction false} NoCutInPlaceholder(u: Table, q: Pattern, repl: string, t: string, i: nat, x: nat)
    requires Insulates(u, q, repl, q) && i + |repl| <= |t| && t[i..i + |repl|] == repl && i <= x < i + |repl|
    ensures !CutsAt(u, q, t, x)
  {
    hide Matches, Insulates;
    assert t == t[..i] + repl + t[i + |repl|..];
    MatchEndIsMatch(u, q, t, x);
    var e := MatchEnd(u, q, t, x);
    if e.Some? { NoMatchInPlaceholder(u, q, repl, q, t[..i], t[i + |repl|..], x, e.value); }
  }

  lemma {:induction false} CutAvoidsPlaceholder(u: Table, q: Pattern, repl: string, t: string, i: nat)
    requires Insulates(u, q, repl, q) && i <= |t| && CutsAt(u, q, t, i)
    ensures repl[0] !in t[i..MatchEnd(u, q, t, i).value]
  {
    hide Matches, MatchEnd;
    MatchEndIsMatch(u, q, t, i);
    AvoidsMarks(u, q, {repl[0], repl[|repl| - 1]}, t, i, MatchEnd(u, q, t, i).value);
  }

  lemma {:induction false} AlignsCut(sc: seq<Piece>, ps: seq<Piece>, repl: string)
    requires ps != [] && ps[0].Cut? && Aligned(sc, ps[1..], repl)
    ensures Aligned(Whole(repl) + sc, ps, repl)
  {
    WholeIsKept(repl, repl);
    var all := Whole(repl) + sc;
    assert all[..|repl|] == Whole(repl) && all[|repl|..] == sc;
  }

  lemma {:induction false} AlignsKept(sc: seq<Piece>, ps: seq<Piece>, repl: string)
    requires ps != [] && ps[0].Kept? && Aligned(sc, ps[1..], repl)
    ensures Aligned([ps[0]] + sc, ps, repl)
  {
    assert ([ps[0]] + sc)[1..] == sc;
  }

  lemma {:induction false} AlignsNew(x: string, sc: seq<Piece>, ps: seq<Piece>, repl: string)
    requires 0 < |x| <= |ps| && ps[..|x|] == Whole(x) && Aligned(sc, ps[|x|..], repl)
    ensures Aligned([Cut(x)] + sc, ps, repl)
  {
    WholeIsKept(x, repl);
    assert ps[0] == ps[..|x|][0];
    assert ([Cut(x)] + sc)[1..] == sc;
  }

  lemma {:induction false} TailStarts(t: string, i: nat, ps: seq<Piece>, repl: string)
    requires i <= |t| && ps != [] && t[i..] == Replaced(ps, repl)
    ensures var n := |Put(ps[0], repl)|;
            i + n <= |t| && t[i..i + n] == Put(ps[0], repl) && t[i + n..] == Replaced(ps[1..], repl)
  {
    var out, n := Replaced(ps, repl), |Put(ps[0], repl)|;
    assert out[..n] == Put(ps[0], repl) && out[n..] == Replaced(ps[1..], repl);
    assert t[i..i + n] == t[i..][..n] && t[i + n..] == t[i..][n..];
  }

  lemma {:induction false} AlignPlaceholder(u: Table, q: Pattern, repl: string, t: string, i: nat, ps: seq<Piece>)
    requires Insulates(u, q, repl, q) && i + |repl| <= |t| && t[i..i + |repl|] == repl
    requires ps != [] && ps[0].Cut? && Aligned(Scan(u, q, t, i + |repl|), ps[1..], repl)
    ensures Aligned(Scan(u, q, t, i), ps, repl)
  {
    hide Insulates, MatchEnd, CutsAt, Aligned, Scan, Whole, Replaced;
    forall x | i <= x < i + |repl| ensures !CutsAt(u, q, t, x) {
      NoCutInPlaceholder(u, q, repl, t, i, x);
    }
    ScanCopies(u, q, t, i, |repl|);
    AlignsCut(Scan(u, q, t, i + |repl|), ps, repl);
  }

  /** A cut that starts at a kept character covers kept characters only. */
  lemma {:induction false} CutCovers(u: Table, q: Pattern, repl: string, t: string, i: nat, ps: seq<Piece>)
    returns (n: nat)
    requires Insulates(u, q, repl, q) && repl != "" && i <= |t| && t[i..] == Replaced(ps, repl) && CutsAt(u, q, t, i)
    ensures 0 < n <= |ps| && i + n <= |t| && ps[..n] == Whole(t[i..i + n]) && t[i + n..] == Replaced(ps[n..], repl)
    ensures Scan(u, q, t, i) == [Cut(t[i..i + n])] + Scan(u, q, t, i + n)
  {
    hide Insulates, Scan, Whole, Replaced, MatchEnd;
    ScanCuts(u, q, t, i);
    CutAvoidsPlaceholder(u, q, repl, t, i);
    n := MatchEnd(u, q, t, i).value - i;
    assert t[i..i + n] == t[i..][..n] && t[i + n..] == t[i..][n..];
    KeptForward(ps, n, repl);
  }

  /** A later scan leaves the placeholders of earlier passes alone. */
  lemma {:induction false} ScanAligns(u: Table, q: Pattern, repl: string, t: string, i: nat, ps: seq<Piece>)
    requires Insulates(u, q, repl, q) && repl != "" && i <= |t| && t[i..] == Replaced(ps, repl)
    ensures Aligned(Scan(u, q, t, i), ps, repl)
    decreases |ps|
  {
    hide Insulates, MatchEnd, CutsAt, Whole, Replaced, Aligned, Scan;
    if ps == [] {
      NothingAligns(u, q, repl, t, i);
    } else {
      TailStarts(t, i, ps, repl);
      if ps[0].Cut? {
        ScanAligns(u, q, repl, t, i + |repl|, ps[1..]);
        AlignPlaceholder(u, q, repl, t, i, ps);
      } else if CutsAt(u, q, t, i) {
        var n := CutCovers(u, q, repl, t, i, ps);
        ScanAligns(u, q, repl, t, i + n, ps[n..]);
        AlignsNew(t[i..i + n], Scan(u, q, t, i + n), ps, repl);
      } else {
        ScanAligns(u, q, repl, t, i + 1, ps[1..]);
        AlignCharacter(u, q, repl, t, i, ps);
      }
    }
  }

  lemma {:induction false} NothingAligns(u: Table, q: Pattern, repl: string, t: string, i: nat)
    requires i <= |t| && t[i..] == Replaced([], repl)
    ensures Aligned(Scan(u, q, t, i), [], repl)
  {
    EmptyPieces(repl);
    assert |t[i..]| == 0;
  }

  lemma {:induction false} AlignCharacter(u: Table, q: Pattern, repl: string, t: string, i: nat, ps: seq<Piece>)
    requires ps != [] && ps[0].Kept? && i < |t| && t[i..i + 1] == [ps[0].c] && !CutsAt(u, q, t, i)
    requires Aligned(Scan(u, q, t, i + 1), ps[1..], repl)
    ensures Aligned(Scan(u, q, t, i), ps, repl)
  {
    hide CutsAt, Scan, Aligned;
    assert t[i] == t[i..i + 1][0];
    ScanKeeps(u, q, t, i);
    AlignsKept(Scan(u, q, t, i + 1), ps, repl);
  }

  /** The passes `qs` after `ps`, as one list of pieces of the input of `ps`. */
  function CutUp(u: Table, qs: seq<Pattern>, repl: string, ps: seq<Piece>): seq<Piece>
    decreases |qs|
  {
    if qs == [] then ps
    else CutUp(u, qs[1..], repl, Merge(Scan(u, qs[0], Replaced(ps, repl), 0), ps, repl))
  }

  /**
   Passes that leave placeholders alone amount to cutting pieces out of the input, all at once: the
   pieces make up the input, and putting the placeholder for each cut gives the output.
   */
  lemma {:induction false} PassesCutInput(u: Table, qs: seq<Pattern>, repl: string, ps: seq<Piece>)
    requires repl != "" && forall k | 0 <= k < |qs| :: Insulates(u, qs[k], repl, qs[k])
    ensures Original(CutUp(u, qs, repl, ps)) == Original(ps)
    ensures Replaced(CutUp(u, qs, repl, ps), repl) == Passes(u, qs, repl, Replaced(ps, repl))
    decreases |qs|
  {
    hide Insulates, Original, Replaced, Scan, Merge, SubFrom;
    if qs != [] {
      var q, t := qs[0], Replaced(ps, repl);
      var sc := Scan(u, q, t, 0);
      assert t[0..] == t;
      ScanAligns(u, q, repl, t, 0, ps);
      MergeJoins(sc, ps, repl);
      OnlyCutsChange(u, q, repl, t, 0);
      PassesCutInput(u, qs[1..], repl, Merge(sc, ps, repl));
    }
  }

  // ----- What several passes cut -----

  /** `x` stands in `t` at `a`. */
  predicate StandsAt(t: string, a: nat, x: string) { a + |x| <= |t| && t[a..a + |x|] == x }

  /** `x` is a match of `q` somewhere. */
  ghost predicate MatchedSomewhere(u: Table, q: Pattern, x: string) {
    exists t: string, a: nat :: StandsAt(t, a, x) && Matches(u, q, t, a, a + |x|)
  }

  /** Every cut is a match of one of the patterns. */
  ghost predicate CutsMatch(u: Table, qs: seq<Pattern>, ps: seq<Piece>) {
    forall k | 0 <= k < |ps| && ps[k].Cut? :: exists n | 0 <= n < |qs| :: MatchedSomewhere(u, qs[n], ps[k].text)
  }

  lemma {:induction false} ScanCutsMatch(u: Table, q: Pattern, t: string, k: nat)
    requires k < |Scan(u, q, t, 0)| && Scan(u, q, t, 0)[k].Cut?
    ensures MatchedSomewhere(u, q, Scan(u, q, t, 0)[k].text)
  {
    hide Scan, MatchEnd, Matches, Original;
    var ps := Scan(u, q, t, 0);
    CutsAreMatches(u, q, t, 0, k);
    var a := |Original(ps[..k])|;
    MatchEndIsMatch(u, q, t, a);
    assert StandsAt(t, a, ps[k].text);
  }

  /** A merged piece is one of the scan or one of the pieces that were there. */
  lemma {:induction false} MergedPiece(sc: seq<Piece>, ps: seq<Piece>, repl: string, k: nat)
    requires k < |Merge(sc, ps, repl)| && Merge(sc, ps, repl)[k].Cut?
    ensures Merge(sc, ps, repl)[k] in sc || Merge(sc, ps, repl)[k] in ps
    decreases |ps|
  {
    var m := Merge(sc, ps, repl);
    if k > 0 {
      if ps[0].Cut? {
        MergedPiece(sc[|repl|..], ps[1..], repl, k - 1);
      } else {
        var n := if sc[0].Cut? then |sc[0].text| else 1;
        MergedPiece(sc[1..], ps[n..], repl, k - 1);
      }
    }
  }

  lemma {:induction false} MergeCutsMatch(u: Table, q: Pattern, qs: seq<Pattern>, ps: seq<Piece>, repl: string)
    requires CutsMatch(u, qs, ps)
    ensures CutsMatch(u, qs + [q], Merge(Scan(u, q, Replaced(ps, repl), 0), ps, repl))
  {
    hide Scan, Merge, Replaced, MatchedSomewhere;
    var sc := Scan(u, q, Replaced(ps, repl), 0);
    var m := Merge(sc, ps, repl);
    forall k | 0 <= k < |m| && m[k].Cut?
      ensures exists n | 0 <= n < |qs + [q]| :: MatchedSomewhere(u, (qs + [q])[n], m[k].text)
    {
      MergedPiece(sc, ps, repl, k);
      if m[k] in sc {
        var h :| 0 <= h < |sc| && sc[h] == m[k];
        ScanCutsMatch(u, q, Replaced(ps, repl), h);
        assert (qs + [q])[|qs|] == q;
      } else {
        var h :| 0 <= h < |ps| && ps[h] == m[k];
        var n :| 0 <= n < |qs| && MatchedSomewhere(u, qs[n], ps[h].text);
        assert (qs + [q])[n] == qs[n];
      }
    }
  }

  /** What the passes cut out of a text are matches of their patterns. */
  lemma {:induction false} PassesCutMatches(
      u: Table, done: seq<Pattern>, qs: seq<Pattern>, repl: string, ps: seq<Piece>)
    requires CutsMatch(u, done, ps)
    ensures CutsMatch(u, done + qs, CutUp(u, qs, repl, ps))
    decreases |qs|
  {
    hide CutsMatch, Scan, Merge, Replaced;
    if qs == [] {
      assert done + qs == done;
    } else {
      MergeCutsMatch(u, qs[0], done, ps, repl);
      PassesCutMatches(u, done + [qs[0]], qs[1..], repl, Merge(Scan(u, qs[0], Replaced(ps, repl), 0), ps, repl));
      assert done + [qs[0]] + qs[1..] == done + qs;
    }
  }

  lemma {:induction false} WholeCutsNothing(u: Table, s: string)
    ensures CutsMatch(u, [], Whole(s))
  {
    WholeIsKept(s, "");
  }
}
