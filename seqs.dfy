/**
 * Sequence operations the dashboard's list handlers are built from: the
 * JavaScript array methods `filter`, `map` (with a per-element condition),
 * `find` and `Array.from(new Set(...))`, each with a contract that says what
 * it keeps, what it changes and in which order.
 */
module Seqs {

  datatype Option<+T> = None | Some(value: T)

  /** `r` can be obtained from `s` by deleting elements, keeping the order of the rest. */
  ghost predicate IsSubsequence<T>(r: seq<T>, s: seq<T>)
    decreases |s|
  {
    if r == [] then true
    else if s == [] then false
    else (r[0] == s[0] && IsSubsequence(r[1..], s[1..])) || IsSubsequence(r, s[1..])
  }

  /** `Array.prototype.filter`: the elements of `s` satisfying `keep`, in their order. */
  function Filter<T>(s: seq<T>, keep: T -> bool): (r: seq<T>)
    ensures |r| <= |s|
    ensures forall i :: 0 <= i < |r| ==> r[i] in s && keep(r[i])
    ensures forall i :: 0 <= i < |s| && keep(s[i]) ==> s[i] in r
    ensures IsSubsequence(r, s)
  {
    if s == [] then []
    else
      var rest := Filter(s[1..], keep);
      if keep(s[0]) then
        assert ([s[0]] + rest)[1..] == rest;
        [s[0]] + rest
      else
        rest
  }

  /** Filtering keeps every copy of an element that passes: `x` occurs as often as in `s`. */
  lemma {:induction false} FilterCount<T>(s: seq<T>, keep: T -> bool, x: T)
    requires keep(x)
    ensures multiset(Filter(s, keep))[x] == multiset(s)[x]
  {
    if s != [] {
      var rest := Filter(s[1..], keep);
      FilterCount(s[1..], keep, x);
      assert s == [s[0]] + s[1..];
      assert multiset(s) == multiset{s[0]} + multiset(s[1..]);
      if keep(s[0]) {
        assert Filter(s, keep) == [s[0]] + rest;
        assert multiset(Filter(s, keep)) == multiset{s[0]} + multiset(rest);
      } else {
        assert Filter(s, keep) == rest;
      }
    }
  }

  /** `FilterCount` for every element of `s` that passes. */
  lemma FilterKeepsCopies<T>(s: seq<T>, keep: T -> bool)
    ensures forall i :: 0 <= i < |s| && keep(s[i]) ==> multiset(Filter(s, keep))[s[i]] == multiset(s)[s[i]]
  {
    forall i | 0 <= i < |s| && keep(s[i]) ensures multiset(Filter(s, keep))[s[i]] == multiset(s)[s[i]] {
      FilterCount(s, keep, s[i]);
    }
  }

  /** Filtering keeps the whole list when every element passes. */
  lemma {:induction false} FilterKeepsAll<T>(s: seq<T>, keep: T -> bool)
    requires forall x :: x in s ==> keep(x)
    ensures Filter(s, keep) == s
  {
    if s != [] {
      assert forall x :: x in s[1..] ==> x in s;
      FilterKeepsAll(s[1..], keep);
      assert s == [s[0]] + s[1..];
    }
  }

  /** Filtering a concatenation filters each part. */
  lemma {:induction false} FilterConcat<T>(a: seq<T>, b: seq<T>, keep: T -> bool)
    ensures Filter(a + b, keep) == Filter(a, keep) + Filter(b, keep)
  {
    if a != [] {
      assert (a + b)[1..] == a[1..] + b;
      FilterConcat(a[1..], b, keep);
    } else {
      assert a + b == b;
    }
  }

  /** A weaker condition keeps a superset of the elements, as a subsequence. */
  lemma {:induction false} FilterMonotone<T>(s: seq<T>, strong: T -> bool, weak: T -> bool)
    requires forall x :: strong(x) ==> weak(x)
    ensures IsSubsequence(Filter(s, strong), Filter(s, weak))
  {
    if s != [] {
      FilterMonotone(s[1..], strong, weak);
      var rs, rw := Filter(s[1..], strong), Filter(s[1..], weak);
      if strong(s[0]) {
        assert ([s[0]] + rs)[1..] == rs && ([s[0]] + rw)[1..] == rw;
      } else if weak(s[0]) {
        assert ([s[0]] + rw)[1..] == rw;
      }
    }
  }

  /** `Array.prototype.map`. */
  function Map<T, U>(s: seq<T>, f: T -> U): (r: seq<U>)
    ensures |r| == |s|
    ensures forall i :: 0 <= i < |s| ==> r[i] == f(s[i])
  {
    seq(|s|, i requires 0 <= i < |s| => f(s[i]))
  }

  /** Mapping keeps the subsequence relation. */
  lemma {:induction false} SubsequenceMap<T, U>(r: seq<T>, s: seq<T>, f: T -> U)
    requires IsSubsequence(r, s)
    ensures IsSubsequence(Map(r, f), Map(s, f))
    decreases |s|
  {
    var mr, ms := Map(r, f), Map(s, f);
    if r != [] {
      assert ms[1..] == Map(s[1..], f);
      if r[0] == s[0] && IsSubsequence(r[1..], s[1..]) {
        SubsequenceMap(r[1..], s[1..], f);
        assert mr[1..] == Map(r[1..], f);
      } else {
        SubsequenceMap(r, s[1..], f);
      }
    }
  }

  /**
   * `s.map(x => hit(x) ? f(x) : x)`: every element that `hit` selects is
   * replaced by `f` of it, every other element stays where and what it was.
   */
  function UpdateWhere<T>(s: seq<T>, hit: T -> bool, f: T -> T): (r: seq<T>)
    ensures |r| == |s|
    ensures forall i :: 0 <= i < |s| ==> r[i] == if hit(s[i]) then f(s[i]) else s[i]
  {
    if s == [] then []
    else [if hit(s[0]) then f(s[0]) else s[0]] + UpdateWhere(s[1..], hit, f)
  }

  /** `Array.prototype.findIndex`: the first position whose element satisfies `p`. */
  function FindIndex<T>(s: seq<T>, p: T -> bool): (r: Option<nat>)
    ensures r.Some? ==> r.value < |s| && p(s[r.value])
    ensures r.Some? ==> forall j :: 0 <= j < r.value ==> !p(s[j])
    ensures r.None? <==> forall j :: 0 <= j < |s| ==> !p(s[j])
  {
    if s == [] then None
    else if p(s[0]) then Some(0)
    else
      match FindIndex(s[1..], p)
      case None => assert forall j :: 1 <= j < |s| ==> s[j] == s[1..][j - 1]; None
      case Some(k) => assert forall j :: 1 <= j <= k ==> s[j] == s[1..][j - 1]; Some(k + 1)
  }

  /** The position of the first occurrence of `x` in `s`. */
  ghost function IndexOf<T>(s: seq<T>, x: T): (k: nat)
    requires x in s
    ensures k < |s| && s[k] == x
    ensures forall j :: 0 <= j < k ==> s[j] != x
  {
    if s[0] == x then 0 else 1 + IndexOf(s[1..], x)
  }

  /** First occurrences do not move when elements are appended. */
  lemma IndexOfInPrefix<T>(s: seq<T>, n: nat, x: T)
    requires n <= |s| && x in s[..n]
    ensures x in s && IndexOf(s, x) == IndexOf(s[..n], x)
  {
    var b := IndexOf(s[..n], x);
    assert s[..n][b] == s[b];
    assert forall j :: 0 <= j < b ==> s[..n][j] == s[j];
  }

  /** The first-occurrence order of elements of `s[..|s| - 1]` is the same in `s`. */
  lemma IndexOrderInPrefix<T>(s: seq<T>, r: seq<T>)
    requires |s| > 0
    requires forall i :: 0 <= i < |r| ==> r[i] in s[..|s| - 1]
    requires forall i, j :: 0 <= i < j < |r| ==> IndexOf(s[..|s| - 1], r[i]) < IndexOf(s[..|s| - 1], r[j])
    ensures forall i, j :: 0 <= i < j < |r| ==> r[i] in s && r[j] in s && IndexOf(s, r[i]) < IndexOf(s, r[j])
    ensures s[|s| - 1] !in s[..|s| - 1] ==>
      forall i :: 0 <= i < |r| ==> r[i] in s && IndexOf(s, r[i]) < IndexOf(s, s[|s| - 1])
  {
    var p := s[..|s| - 1];
    forall i | 0 <= i < |r|
      ensures r[i] in s && IndexOf(s, r[i]) == IndexOf(p, r[i])
    {
      IndexOfInPrefix(s, |s| - 1, r[i]);
    }
    if s[|s| - 1] !in p {
      assert forall j :: 0 <= j < |s| - 1 ==> s[j] == p[j];
      assert IndexOf(s, s[|s| - 1]) == |s| - 1;
    }
  }

  ghost predicate NoDuplicates<T>(s: seq<T>)
  {
    forall i, j :: 0 <= i < j < |s| ==> s[i] != s[j]
  }

  /**
   * `Array.from(new Set(s))`: each distinct element once, in the order of its
   * first occurrence in `s` (a JavaScript Set iterates in insertion order).
   */
  function Distinct<T(==)>(s: seq<T>): (r: seq<T>)
    ensures forall i :: 0 <= i < |r| ==> r[i] in s
    ensures forall i :: 0 <= i < |s| ==> s[i] in r
    ensures NoDuplicates(r)
    ensures forall i, j :: 0 <= i < j < |r| ==> r[i] in s && r[j] in s && IndexOf(s, r[i]) < IndexOf(s, r[j])
  {
    if s == [] then []
    else
      var init, last := s[..|s| - 1], s[|s| - 1];
      assert s == init + [last];
      var r := Distinct(init);
      IndexOrderInPrefix(s, r);
      if last in r then r
      else r + [last]
  }
}
