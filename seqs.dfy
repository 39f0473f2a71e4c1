/**
 * The array operations the modelled code calls on lists: `filter`,
 * `find`/`findIndex` and `slice(0, n)`.
 */
module Seqs {
  import opened Wrappers

  /** `Array.prototype.filter`: the elements satisfying `p`, in order. */
  function Filter<T>(s: seq<T>, p: T -> bool): (r: seq<T>)
    ensures |r| <= |s|
    ensures forall x :: x in r ==> x in s && p(x)
    ensures forall x :: x in s && p(x) ==> x in r
  {
    if s == [] then []
    else if p(s[0]) then [s[0]] + Filter(s[1..], p)
    else Filter(s[1..], p)
  }

  /** Filtering keeps the order: it distributes over concatenation. */
  lemma {:induction false} FilterAppend<T>(a: seq<T>, b: seq<T>, p: T -> bool)
    ensures Filter(a + b, p) == Filter(a, p) + Filter(b, p)
  {
    if a == [] {
      assert a + b == b;
    } else {
      assert (a + b)[1..] == a[1..] + b;
      FilterAppend(a[1..], b, p);
    }
  }

  /** A list whose elements all pass is returned unchanged. */
  lemma {:induction false} FilterAll<T>(s: seq<T>, p: T -> bool)
    requires forall i :: 0 <= i < |s| ==> p(s[i])
    ensures Filter(s, p) == s
  {
    if s != [] {
      FilterAll(s[1..], p);
    }
  }

  /** A list none of whose elements pass filters to nothing. */
  lemma {:induction false} FilterNone<T>(s: seq<T>, p: T -> bool)
    requires forall i :: 0 <= i < |s| ==> !p(s[i])
    ensures Filter(s, p) == []
  {
    if s != [] {
      FilterNone(s[1..], p);
    }
  }

  /** `findIndex`: the first position whose element satisfies `p`. */
  function FirstIndex<T>(s: seq<T>, p: T -> bool): (r: Option<nat>)
    ensures r.Some? ==> r.value < |s| && p(s[r.value])
    ensures r.Some? ==> forall j :: 0 <= j < r.value ==> !p(s[j])
    ensures r.None? <==> forall j :: 0 <= j < |s| ==> !p(s[j])
  {
    if s == [] then None
    else if p(s[0]) then Some(0)
    else match FirstIndex(s[1..], p)
      case None => None
      case Some(k) => Some(k + 1)
  }

  /** Two lists that agree on `p` position by position have the same first match. */
  lemma {:induction false} FirstIndexAgrees<T>(a: seq<T>, b: seq<T>, p: T -> bool)
    requires |a| == |b|
    requires forall j :: 0 <= j < |a| ==> p(a[j]) == p(b[j])
    ensures FirstIndex(a, p) == FirstIndex(b, p)
  {
    if a != [] {
      FirstIndexAgrees(a[1..], b[1..], p);
    }
  }

  /** `find(p) ?? d`: the first element satisfying `p`, or `d` when none does. */
  function FindOr<T>(s: seq<T>, p: T -> bool, d: T): T {
    match FirstIndex(s, p)
    case Some(i) => s[i]
    case None => d
  }

  /** Whether `pos` recovers every element's place in `s`, so that no element repeats. */
  ghost predicate Indexed<T>(s: seq<T>, pos: T -> nat) {
    forall i :: 0 <= i < |s| ==> pos(s[i]) == i
  }

  /**
   * With distinct elements and a default outside `s`, `FindOr` gives the
   * element at place `k` exactly when it is the first to satisfy `p`.
   */
  lemma FindOrFirstMatch<T>(s: seq<T>, pos: T -> nat, p: T -> bool, d: T, k: nat)
    requires Indexed(s, pos) && pos(d) >= |s| && k < |s|
    ensures FindOr(s, p, d) == s[k] <==> p(s[k]) && forall j :: 0 <= j < k ==> !p(s[j])
  {
    match FirstIndex(s, p)
    case Some(i) =>
      assert pos(s[i]) == i && pos(s[k]) == k;
    case None =>
      assert pos(s[k]) == k;
  }

  /** Getting the default back from distinct elements means no element satisfied `p`. */
  lemma FindOrDefault<T>(s: seq<T>, pos: T -> nat, p: T -> bool, d: T)
    requires Indexed(s, pos) && pos(FindOr(s, p, d)) >= |s|
    ensures FindOr(s, p, d) == d
    ensures forall j :: 0 <= j < |s| ==> !p(s[j])
  {
  }

  /** `find`: the first element satisfying `p`, if any. */
  function Find<T>(s: seq<T>, p: T -> bool): (r: Option<T>)
    ensures r.Some? ==> r.value in s && p(r.value)
    ensures r.Some? ==> exists i :: 0 <= i < |s| && s[i] == r.value && forall j :: 0 <= j < i ==> !p(s[j])
    ensures r.None? <==> forall j :: 0 <= j < |s| ==> !p(s[j])
  {
    match FirstIndex(s, p)
    case None => None
    case Some(i) => Some(s[i])
  }

  /** `slice(0, n)`: the first `n` elements, or all of them. */
  function Prefix<T>(s: seq<T>, n: nat): (r: seq<T>)
    ensures |r| == if n <= |s| then n else |s|
    ensures r <= s
  {
    if n <= |s| then s[..n] else s
  }
}
