/**
 * Java's `String.equalsIgnoreCase`, restricted to ASCII letters: two strings are
 * equal ignoring case when the argument is not null, the lengths agree, and the
 * characters agree pairwise once both are upper-cased, or once both are upper-cased
 * and then lower-cased.
 */
module IgnoreCase {
  import opened Wrappers

  function ToUpper(c: char): (u: char) {
    if 'a' <= c <= 'z' then (c as int - 32) as char else c
  }

  function ToLower(c: char): (l: char) {
    if 'A' <= c <= 'Z' then (c as int + 32) as char else c
  }

  /** The character test of `regionMatches(true, ...)`. */
  predicate SameIgnoringCase(a: char, b: char) {
    a == b || ToUpper(a) == ToUpper(b) || ToLower(ToUpper(a)) == ToLower(ToUpper(b))
  }

  /** `regionMatches(true, 0, other, 0, length())` on two strings of the same length. */
  predicate RegionMatches(s: string, t: string)
    requires |s| == |t|
  {
    s == [] || (SameIgnoringCase(s[0], t[0]) && RegionMatches(s[1..], t[1..]))
  }

  /** `s.equalsIgnoreCase(other)`, where `None` stands for a null argument. */
  predicate EqualsIgnoreCase(s: string, other: Option<string>) {
    other.Some? && |other.value| == |s| && RegionMatches(s, other.value)
  }

  /** The string with every ASCII upper-case letter lower-cased. */
  function Lower(s: string): (r: string)
    ensures |r| == |s|
    ensures forall i :: 0 <= i < |s| ==> r[i] == ToLower(s[i])
  {
    if s == [] then [] else [ToLower(s[0])] + Lower(s[1..])
  }

  /** Two characters are the same ignoring case exactly when their lower-case forms agree. */
  lemma SameIgnoringCaseIffSameLower(a: char, b: char)
    ensures SameIgnoringCase(a, b) <==> ToLower(a) == ToLower(b)
  {
  }

  /** Equality ignoring case is equality of the lower-cased strings. */
  lemma {:induction false} EqualsIgnoreCaseIffSameLower(s: string, t: string)
    ensures EqualsIgnoreCase(s, Some(t)) <==> Lower(s) == Lower(t)
  {
    if |s| == |t| {
      RegionMatchesIffSameLower(s, t);
    }
  }

  lemma {:induction false} RegionMatchesIffSameLower(s: string, t: string)
    requires |s| == |t|
    ensures RegionMatches(s, t) <==> Lower(s) == Lower(t)
    decreases |s|
  {
    if s != [] {
      SameIgnoringCaseIffSameLower(s[0], t[0]);
      RegionMatchesIffSameLower(s[1..], t[1..]);
      assert Lower(s) == [ToLower(s[0])] + Lower(s[1..]);
      assert Lower(t) == [ToLower(t[0])] + Lower(t[1..]);
      if Lower(s) == Lower(t) {
        assert Lower(s)[1..] == Lower(s[1..]);
        assert Lower(t)[1..] == Lower(t[1..]);
      }
    }
  }
}
