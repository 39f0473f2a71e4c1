/**
 * String helpers mirroring the few JavaScript string operations the
 * modelled code uses: `includes`, `substring(0, n)`, the `||` default on
 * strings, and `toLowerCase`/`toUpperCase` restricted to ASCII letters.
 */
module Text {

  /** `p` is a prefix of `s`. */
  predicate StartsWith(s: string, p: string) {
    |p| <= |s| && s[..|p|] == p
  }

  /** `p` occurs in `s` starting at place `i`. */
  predicate OccursAt(s: string, p: string, i: nat) {
    i + |p| <= |s| && s[i..i + |p|] == p
  }

  /** JavaScript `s.includes(p)`: `p` occurs somewhere in `s`. */
  predicate Contains(s: string, p: string) {
    exists i: nat :: i <= |s| && OccursAt(s, p, i)
  }

  /** Every string includes the empty string. */
  lemma ContainsEmpty(s: string)
    ensures Contains(s, "")
  {
    assert OccursAt(s, "", 0);
  }

  /** A string contains itself extended on either side. */
  lemma ContainsInfix(a: string, p: string, b: string)
    ensures Contains(a + p + b, p)
  {
    assert OccursAt(a + p + b, p, |a|);
  }

  /** JavaScript `s || d` on strings: an empty string is falsy. */
  function Or(s: string, d: string): (r: string)
    ensures r == s || r == d
    ensures r != "" <==> (s != "" || d != "")
  {
    if s != "" then s else d
  }

  function Min(a: int, b: int): int {
    if a <= b then a else b
  }

  /** JavaScript `s.substring(0, n)` for `n >= 0`. */
  function Take(s: string, n: nat): (r: string)
    ensures |r| == Min(n, |s|)
    ensures StartsWith(s, r)
  {
    s[..Min(n, |s|)]
  }

  /** ASCII lower-casing of one character; other characters are kept. */
  function LowerChar(c: char): char {
    if 'A' <= c <= 'Z' then (c as int + 32) as char else c
  }

  /** ASCII upper-casing of one character; other characters are kept. */
  function UpperChar(c: char): char {
    if 'a' <= c <= 'z' then (c as int - 32) as char else c
  }

  /** `toLowerCase`, ASCII letters only. */
  function Lower(s: string): (r: string)
    ensures |r| == |s|
  {
    seq(|s|, i requires 0 <= i < |s| => LowerChar(s[i]))
  }

  /** `toUpperCase`, ASCII letters only. */
  function Upper(s: string): (r: string)
    ensures |r| == |s|
  {
    seq(|s|, i requires 0 <= i < |s| => UpperChar(s[i]))
  }

  /** Lower-casing twice is lower-casing once. */
  lemma LowerIdempotent(s: string)
    ensures Lower(Lower(s)) == Lower(s)
  {
  }
}
