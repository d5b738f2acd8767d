/** Letter case of currency codes, restricted to ASCII.
    Kotlin's `uppercase()` and `equals(other, ignoreCase = true)` are
    modelled on the ASCII letters only; every other character is left as is. */
module Ascii {

  predicate IsLower(c: char) {
    'a' <= c <= 'z'
  }

  function UpperChar(c: char): (u: char)
    ensures !IsLower(u)
    ensures IsLower(c) ==> u as int == c as int - 32
    ensures !IsLower(c) ==> u == c
  {
    if IsLower(c) then (c as int - 32) as char else c
  }

  /** `s.uppercase()` */
  function Upper(s: string): (r: string)
    ensures |r| == |s|
    ensures forall i :: 0 <= i < |s| ==> r[i] == UpperChar(s[i])
    ensures IsUpper(r) && EqualsIgnoreCase(r, s)
  {
    if |s| == 0 then [] else [UpperChar(s[0])] + Upper(s[1..])
  }

  /** No lower-case ASCII letter occurs in `s`. */
  predicate IsUpper(s: string) {
    forall i :: 0 <= i < |s| ==> !IsLower(s[i])
  }

  /** `a.equals(b, ignoreCase = true)`: same length, and the characters
      agree position by position once both are upper-cased. */
  predicate EqualsIgnoreCase(a: string, b: string): (same: bool)
    ensures a == b ==> same
    ensures same ==> |a| == |b|
  {
    && |a| == |b|
    && forall i :: 0 <= i < |a| ==> UpperChar(a[i]) == UpperChar(b[i])
  }

  /** Comparing ignoring case is comparing the upper-cased forms. */
  lemma {:induction false} EqualsIgnoreCaseIffSameUpper(a: string, b: string)
    ensures EqualsIgnoreCase(a, b) <==> Upper(a) == Upper(b)
  {
    if Upper(a) == Upper(b) {
      forall i | 0 <= i < |a|
        ensures UpperChar(a[i]) == UpperChar(b[i])
      {
        assert Upper(a)[i] == Upper(b)[i];
      }
    }
  }

  /** `Upper(s)` is the one upper-case string that equals `s` ignoring case. */
  lemma {:induction false} UpperCharacterization(s: string, x: string)
    ensures IsUpper(x) && EqualsIgnoreCase(x, s) <==> x == Upper(s)
  {
    if IsUpper(x) && EqualsIgnoreCase(x, s) {
      forall i | 0 <= i < |x|
        ensures x[i] == Upper(s)[i]
      {
        assert UpperChar(x[i]) == x[i];
      }
    }
  }

  /** Upper-casing twice is upper-casing once. */
  lemma {:induction false} UpperIdempotent(s: string)
    ensures Upper(Upper(s)) == Upper(s)
  {
    assert forall i :: 0 <= i < |s| ==> UpperChar(UpperChar(s[i])) == UpperChar(s[i]);
  }

  /** Ignoring case is an equivalence relation. */
  lemma {:induction false} EqualsIgnoreCaseIsEquivalence(a: string, b: string, c: string)
    ensures EqualsIgnoreCase(a, a)
    ensures EqualsIgnoreCase(a, b) ==> EqualsIgnoreCase(b, a)
    ensures EqualsIgnoreCase(a, b) && EqualsIgnoreCase(b, c) ==> EqualsIgnoreCase(a, c)
  {
  }
}
