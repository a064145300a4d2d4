/**
 * Python's `str.lower` and `str.capitalize`, restricted to ASCII letters:
 * every other character is left as it is.
 */
module Ascii {

  predicate IsUpper(c: char) { 'A' <= c <= 'Z' }

  predicate IsLower(c: char) { 'a' <= c <= 'z' }

  /** The lower-case form of one character. */
  function LowerChar(c: char): (d: char)
    ensures !IsUpper(d)
    ensures IsUpper(c) ==> IsLower(d) && d as int == c as int + 32
    ensures !IsUpper(c) ==> d == c
  {
    if IsUpper(c) then (c as int + 32) as char else c
  }

  /** The upper-case form of one character. */
  function UpperChar(c: char): (d: char)
    ensures !IsLower(d)
    ensures IsLower(c) ==> IsUpper(d) && d as int == c as int - 32
    ensures !IsLower(c) ==> d == c
  {
    if IsLower(c) then (c as int - 32) as char else c
  }

  /** `s.lower()`: every character of `s` in lower case, nothing else changed. */
  function Lower(s: string): (r: string)
    ensures |r| == |s|
    ensures forall i :: 0 <= i < |s| ==> r[i] == LowerChar(s[i])
  {
    if s == [] then [] else [LowerChar(s[0])] + Lower(s[1..])
  }

  /** `s.capitalize()`: the first character in upper case, the rest in lower case. */
  function Capitalize(s: string): (r: string)
    ensures |r| == |s|
    ensures s != [] ==> r[0] == UpperChar(s[0]) && r[1..] == Lower(s[1..])
  {
    if s == [] then [] else [UpperChar(s[0])] + Lower(s[1..])
  }

  /** Two strings that differ at most in the case of their letters. */
  predicate EqualIgnoringCase(s: string, t: string)
  {
    |s| == |t| && forall i :: 0 <= i < |s| ==> LowerChar(s[i]) == LowerChar(t[i])
  }

  /** Lowering is the canonical form of "equal ignoring case", in both directions. */
  lemma LowerDecidesCase(s: string, t: string)
    ensures Lower(s) == Lower(t) <==> EqualIgnoringCase(s, t)
  {
  }

  /** Capitalising a string does not change it once case is ignored. */
  lemma LowerOfCapitalize(s: string)
    ensures Lower(Capitalize(s)) == Lower(s)
  {
  }

  /** `capitalize` only looks at its argument up to case, so both spellings of a label give one key. */
  lemma CapitalizeIgnoresCase(s: string, t: string)
    requires EqualIgnoringCase(s, t)
    ensures Capitalize(s) == Capitalize(t)
  {
  }

  lemma CapitalizeIdempotent(s: string)
    ensures Capitalize(Capitalize(s)) == Capitalize(s)
  {
  }

  /** Capitalising a word whose tail has no upper-case letter upper-cases its first letter only. */
  lemma CapitalizeWord(s: string, t: string)
    requires s != [] && t == [UpperChar(s[0])] + s[1..]
    requires forall i :: 1 <= i < |s| ==> !IsUpper(s[i])
    ensures Capitalize(s) == t == Capitalize(t)
  {
  }
}
