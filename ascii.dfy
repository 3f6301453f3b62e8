/**
 * ASCII case mapping and the string tests the schema checks use
 * (`toUpperCase`, `toLowerCase`, `equalsIgnoreCase`, `startsWith`, `contains`).
 * Only the letters 'a'..'z' and 'A'..'Z' change case; every other
 * character maps to itself.
 */
module Ascii {

  predicate IsLowerLetter(c: char) { 'a' <= c <= 'z' }
  predicate IsUpperLetter(c: char) { 'A' <= c <= 'Z' }

  function UpperChar(c: char): char
  {
    if IsLowerLetter(c) then (c as int - 32) as char else c
  }

  function LowerChar(c: char): char
  {
    if IsUpperLetter(c) then (c as int + 32) as char else c
  }

  /** No lower-case letter occurs in `s`: the canonical form of a name. */
  predicate NoLower(s: string)
  {
    forall i :: 0 <= i < |s| ==> !IsLowerLetter(s[i])
  }

  /** No upper-case letter occurs in `s`: the storage form of a lower-casing catalog. */
  predicate NoUpper(s: string)
  {
    forall i :: 0 <= i < |s| ==> !IsUpperLetter(s[i])
  }

  /** `String.toUpperCase`, restricted to ASCII. */
  function Upper(s: string): (r: string)
    ensures |r| == |s|
    ensures NoLower(r)
    ensures NoLower(s) ==> r == s
  {
    seq(|s|, i requires 0 <= i < |s| => UpperChar(s[i]))
  }

  /** `String.toLowerCase`, restricted to ASCII. */
  function Lower(s: string): (r: string)
    ensures |r| == |s|
    ensures NoUpper(r)
    ensures NoUpper(s) ==> r == s
  {
    seq(|s|, i requires 0 <= i < |s| => LowerChar(s[i]))
  }

  /** `a.equalsIgnoreCase(b)` for non-null `b`. */
  predicate EqualsIgnoreCase(a: string, b: string)
    ensures a == b ==> EqualsIgnoreCase(a, b)
    ensures EqualsIgnoreCase(a, b) ==> |a| == |b|
  {
    Upper(a) == Upper(b)
  }

  /** `s.startsWith(prefix)`. */
  predicate StartsWith(s: string, prefix: string)
    ensures StartsWith(s, prefix) ==> |prefix| <= |s|
    ensures |prefix| == 0 ==> StartsWith(s, prefix)
  {
    |prefix| <= |s| && s[..|prefix|] == prefix
  }

  /** `part` occurs in `s` starting at position `i`. */
  predicate OccursAt(s: string, part: string, i: int)
  {
    0 <= i && i + |part| <= |s| && s[i..i + |part|] == part
  }

  /** `s.contains(part)`. */
  predicate Contains(s: string, part: string)
    ensures Contains(s, part) ==> |part| <= |s|
    ensures OccursAt(s, part, 0) ==> Contains(s, part)
  {
    exists i | 0 <= i <= |s| - |part| :: OccursAt(s, part, i)
  }

  /** Upper-casing is a normal form: applying it twice changes nothing. */
  lemma UpperIdempotent(s: string)
    ensures Upper(Upper(s)) == Upper(s)
  {
  }

  /** Lower-casing and then upper-casing is the same as upper-casing. */
  lemma UpperOfLower(s: string)
    ensures Upper(Lower(s)) == Upper(s)
  {
    assert forall i | 0 <= i < |s| :: UpperChar(LowerChar(s[i])) == UpperChar(s[i]);
  }

  /** A name is its own upper-case form exactly when it has no lower-case letter. */
  lemma UpperFixedIff(s: string)
    ensures Upper(s) == s <==> NoLower(s)
  {
  }

  /** A name without lower-case letters is recovered from its lower-case form by upper-casing. */
  lemma LowerRoundTrip(s: string)
    requires NoLower(s)
    ensures Upper(Lower(s)) == s
  {
    UpperOfLower(s);
  }

  /** Case-insensitive equality is an equivalence relation. */
  lemma EqualsIgnoreCaseEquivalence(a: string, b: string, c: string)
    ensures EqualsIgnoreCase(a, a)
    ensures EqualsIgnoreCase(a, b) ==> EqualsIgnoreCase(b, a)
    ensures EqualsIgnoreCase(a, b) && EqualsIgnoreCase(b, c) ==> EqualsIgnoreCase(a, c)
  {
  }
}
