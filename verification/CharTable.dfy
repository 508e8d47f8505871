/**
 Python's `re` and `str` classify characters by tables of the Unicode database. The tables
 are a parameter here: every theorem holds for any table that agrees with ASCII below 128.
 */
module CharTable {

  /**
   `digits` gives `\d` and the value `float` reads from it, `words` is `\w`, `spaces` is `\s`
   (and what `strip` removes), `variants` says which characters a pattern letter stands for
   under IGNORECASE, and `lower` is `str.lower` one character at a time.
   */
  datatype Table = Table(
    digits: map<char, nat>,
    words: set<char>,
    spaces: set<char>,
    variants: map<char, set<char>>,
    lower: map<char, string>)
  {
    /** The characters a pattern character matches under IGNORECASE. */
    function Fold(c: char): set<char> {
      if c in variants then variants[c] else {c}
    }

    ghost predicate Valid() {
      && digits.Keys <= words
      && words !! spaces
      && (forall c | IsAscii(c) :: c in digits <==> IsAsciiDigit(c))
      && (forall c | c in digits :: digits[c] < 10)
      && (forall c | IsAsciiDigit(c) :: c in digits && digits[c] == c as int - '0' as int)
      && (forall c | IsAscii(c) :: c in words <==> IsAsciiWord(c))
      && (forall c | IsAscii(c) :: c in spaces <==> IsAsciiSpace(c))
      && (forall c | IsAsciiLetter(c) :: FoldsLetter(c))
      && (forall c | IsAscii(c) && !IsAsciiLetter(c) :: Fold(c) == {c})
      && (forall c | IsAscii(c) :: c in lower && lower[c] == [AsciiLower(c)])
    }

    /** A letter stands for both its cases, for no other ASCII character, and only for letters. */
    ghost predicate FoldsLetter(c: char) {
      && c in Fold(c)
      && AsciiLower(c) in Fold(c)
      && AsciiUpper(c) in Fold(c)
      && Fold(c) <= words
      && (forall d | d in Fold(c) && IsAscii(d) :: AsciiLower(d) == AsciiLower(c))
    }

    /** `str.lower`. */
    function Lower(s: string): string {
      if s == "" then "" else (if s[0] in lower then lower[s[0]] else [s[0]]) + Lower(s[1..])
    }
  }

  predicate IsAscii(c: char) { c <= '\U{7f}' }

  predicate IsAsciiDigit(c: char) { '0' <= c <= '9' }

  predicate IsAsciiLetter(c: char) { 'a' <= c <= 'z' || 'A' <= c <= 'Z' }

  predicate IsAsciiWord(c: char) { IsAsciiLetter(c) || IsAsciiDigit(c) || c == '_' }

  predicate IsAsciiSpace(c: char) { '\t' <= c <= '\r' || '\U{1c}' <= c <= ' ' }

  function AsciiLower(c: char): char {
    if 'A' <= c <= 'Z' then (c as int + 32) as char else c
  }

  function AsciiUpper(c: char): char {
    if 'a' <= c <= 'z' then (c as int - 32) as char else c
  }

  const LETTERS := set c: char | IsAsciiLetter(c)

  const LETTERS_AND_DIGITS := set c: char | IsAsciiLetter(c) || IsAsciiDigit(c)

  /** The smallest table: plain ASCII. */
  const ASCII := Table(
    map c: char | IsAsciiDigit(c) :: c as int - '0' as int,
    set c: char | IsAsciiWord(c),
    set c: char | IsAsciiSpace(c),
    map c: char | IsAsciiLetter(c) :: {AsciiLower(c), AsciiUpper(c)},
    map c: char | IsAscii(c) :: [AsciiLower(c)])

  /** The validity condition is satisfiable: ASCII itself meets it. */
  lemma {:induction false} AsciiIsValid()
    ensures ASCII.Valid()
  {
    forall c | IsAsciiLetter(c) ensures ASCII.FoldsLetter(c) {
      AsciiFoldsLetter(c);
    }
    hide Table.FoldsLetter;
  }

  lemma {:induction false} AsciiFoldsLetter(c: char)
    requires IsAsciiLetter(c)
    ensures ASCII.FoldsLetter(c)
  {
  }
}
