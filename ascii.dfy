/**
 * `String.prototype.toUpperCase` and `toLowerCase`, restricted to ASCII:
 * only the letters a-z and A-Z change, every other character is kept.
 */
module Ascii {

  predicate IsUpperLetter(c: char) { 'A' <= c <= 'Z' }

  predicate IsLowerLetter(c: char) { 'a' <= c <= 'z' }

  function UpperChar(c: char): (u: char)
    ensures !IsLowerLetter(u)
    ensures !IsLowerLetter(c) ==> u == c
    ensures IsLowerLetter(c) ==> IsUpperLetter(u)
  {
    if IsLowerLetter(c) then (c as int - 32) as char else c
  }

  function LowerChar(c: char): (l: char)
    ensures !IsUpperLetter(l)
    ensures !IsUpperLetter(c) ==> l == c
    ensures IsUpperLetter(c) ==> IsLowerLetter(l)
  {
    if IsUpperLetter(c) then (c as int + 32) as char else c
  }

  /** `s.toUpperCase()`: maps every character independently. */
  function Upper(s: string): (r: string)
    ensures |r| == |s|
    ensures forall i | 0 <= i < |s| :: r[i] == UpperChar(s[i])
  {
    if s == [] then [] else [UpperChar(s[0])] + Upper(s[1..])
  }

  /** `s.toLowerCase()`: maps every character independently. */
  function Lower(s: string): (r: string)
    ensures |r| == |s|
    ensures forall i | 0 <= i < |s| :: r[i] == LowerChar(s[i])
  {
    if s == [] then [] else [LowerChar(s[0])] + Lower(s[1..])
  }

  /** A string that `toLowerCase` leaves as it is. */
  predicate IsLowerCase(s: string) {
    forall i | 0 <= i < |s| :: !IsUpperLetter(s[i])
  }

  /** Upper-casing an identifier twice is the same as once. */
  lemma UpperIdempotent(s: string)
    ensures Upper(Upper(s)) == Upper(s)
  {
  }

  /** Upper-casing forgets the case the identifier was written in. */
  lemma UpperIgnoresCase(s: string)
    ensures Upper(Lower(s)) == Upper(s)
  {
  }

  /** Lower-casing an identifier twice is the same as once. */
  lemma LowerIdempotent(s: string)
    ensures Lower(Lower(s)) == Lower(s)
  {
  }

  /** `toLowerCase` changes a string exactly when it holds an upper-case letter. */
  lemma LowerFixedPoint(s: string)
    ensures Lower(s) == s <==> IsLowerCase(s)
  {
  }
}
