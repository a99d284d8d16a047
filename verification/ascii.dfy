/**
  Case folding as the launcher uses it. Swift's `String.lowercased()` applies the
  full Unicode case mapping; this model folds only the ASCII letters A-Z and
  leaves every other character as it is.
 */
module Ascii {

  predicate IsUpper(c: char) {
    'A' <= c <= 'Z'
  }

  /** Lower-case form of one character. */
  function Lower(c: char): (r: char)
    ensures !IsUpper(r)
    ensures IsUpper(c) ==> r as int - c as int == 32
    ensures !IsUpper(c) ==> r == c
  {
    if IsUpper(c) then (c as int + 32) as char else c
  }

  /** Lower-case form of a string, character by character. */
  function LowerStr(s: string): (r: string)
    ensures |r| == |s|
    ensures forall i :: 0 <= i < |s| ==> r[i] == Lower(s[i])
  {
    if s == [] then [] else [Lower(s[0])] + LowerStr(s[1..])
  }

  /** A string that lower-casing leaves unchanged. */
  predicate IsLowered(s: string) {
    forall i :: 0 <= i < |s| ==> !IsUpper(s[i])
  }

  /** Lower-casing yields a lowered string, and a lowered string is its own lower-case form. */
  lemma LowerStrFixedPoints(s: string)
    ensures IsLowered(LowerStr(s))
    ensures IsLowered(s) <==> LowerStr(s) == s
  {
    if IsLowered(s) {
      assert forall i :: 0 <= i < |s| ==> LowerStr(s)[i] == s[i];
    } else {
      var i :| 0 <= i < |s| && IsUpper(s[i]);
      assert LowerStr(s)[i] != s[i];
    }
  }

  /** Lower-casing twice is lower-casing once. */
  lemma LowerStrIdempotent(s: string)
    ensures LowerStr(LowerStr(s)) == LowerStr(s)
  {
    LowerStrFixedPoints(s);
    LowerStrFixedPoints(LowerStr(s));
  }

  /** Equal up to the case of ASCII letters: same length, and at each position
      the characters are equal or one is the lower-case form of the other. */
  predicate SameUpToCase(a: string, b: string) {
    && |a| == |b|
    && forall i :: 0 <= i < |a| ==> a[i] == b[i] || Lower(a[i]) == b[i] || a[i] == Lower(b[i])
  }

  /** Folding identifies exactly the strings that are equal up to letter case:
      case-insensitive, and otherwise exact. */
  lemma LowerStrCaseInsensitive(a: string, b: string)
    ensures LowerStr(a) == LowerStr(b) <==> SameUpToCase(a, b)
  {
    if LowerStr(a) == LowerStr(b) {
      forall i | 0 <= i < |a|
        ensures a[i] == b[i] || Lower(a[i]) == b[i] || a[i] == Lower(b[i])
      {
        assert LowerStr(a)[i] == LowerStr(b)[i];
      }
    }
    if SameUpToCase(a, b) {
      forall i | 0 <= i < |a|
        ensures LowerStr(a)[i] == LowerStr(b)[i]
      {
      }
    }
  }
}
