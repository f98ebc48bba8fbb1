/**
 * Generic sequence operations behind JavaScript's `Array.prototype.filter`,
 * and the lemmas about them that the views and the cart rely on.
 */
module Seqs {

  /** `a` is obtained from `b` by deleting elements: same elements, same relative order. */
  predicate IsSubsequence<T(==)>(a: seq<T>, b: seq<T>)
    decreases |b|
  {
    if b == [] then a == []
    else (a != [] && a[0] == b[0] && IsSubsequence(a[1..], b[1..])) || IsSubsequence(a, b[1..])
  }

  /** The elements of `s` for which `keep` holds, in their original order. */
  function Filter<T(!new)>(s: seq<T>, keep: T -> bool): (r: seq<T>)
    ensures |r| <= |s|
    ensures forall x :: x in r <==> x in s && keep(x)
    ensures IsSubsequence(r, s)
    decreases |s|
  {
    if s == [] then []
    else
      var rest := Filter(s[1..], keep);
      if keep(s[0]) then
        assert ([s[0]] + rest)[1..] == rest;
        [s[0]] + rest
      else rest
  }

  /** A filter keeps every copy of a kept element and no copy of a dropped one. */
  lemma {:induction false} FilterCounts<T(!new)>(s: seq<T>, keep: T -> bool)
    ensures forall x :: multiset(Filter(s, keep))[x] == if keep(x) then multiset(s)[x] else 0
    decreases |s|
  {
    if s != [] {
      FilterCounts(s[1..], keep);
      assert s == [s[0]] + s[1..];
    }
  }

  /** A filter whose predicate holds of every element keeps the whole sequence. */
  lemma {:induction false} FilterKeepsAll<T(!new)>(s: seq<T>, keep: T -> bool)
    requires forall x :: x in s ==> keep(x)
    ensures Filter(s, keep) == s
    decreases |s|
  {
    if s != [] {
      FilterKeepsAll(s[1..], keep);
    }
  }

  /** Two predicates that agree on every element of `s` filter it alike. */
  lemma {:induction false} FilterAgrees<T(!new)>(s: seq<T>, f: T -> bool, g: T -> bool)
    requires forall x :: x in s ==> f(x) == g(x)
    ensures Filter(s, f) == Filter(s, g)
    decreases |s|
  {
    if s != [] {
      FilterAgrees(s[1..], f, g);
    }
  }

  /**
   * When `f` is the disjoint union of `g` and `h` on `s`, the number of elements
   * that `f` keeps is the sum of those that `g` and `h` keep.
   */
  lemma {:induction false} FilterLengthSplits<T(!new)>(s: seq<T>, f: T -> bool, g: T -> bool, h: T -> bool)
    requires forall x :: x in s ==> (f(x) <==> g(x) || h(x))
    requires forall x :: x in s ==> !(g(x) && h(x))
    ensures |Filter(s, f)| == |Filter(s, g)| + |Filter(s, h)|
    decreases |s|
  {
    if s != [] {
      FilterLengthSplits(s[1..], f, g, h);
    }
  }

  /** Keys that are pairwise distinct in `s` stay pairwise distinct in any filter of `s`. */
  lemma {:induction false} FilterKeepsKeysDistinct<T(!new), K>(s: seq<T>, keep: T -> bool, key: T -> K)
    requires forall i, j :: 0 <= i < j < |s| ==> key(s[i]) != key(s[j])
    ensures forall i, j :: 0 <= i < j < |Filter(s, keep)| ==> key(Filter(s, keep)[i]) != key(Filter(s, keep)[j])
    decreases |s|
  {
    if s != [] {
      var tail := s[1..];
      FilterKeepsKeysDistinct(tail, keep, key);
      var rest := Filter(tail, keep);
      if keep(s[0]) {
        var r := Filter(s, keep);
        assert r == [s[0]] + rest;
        forall i, j | 0 <= i < j < |r| ensures key(r[i]) != key(r[j]) {
          if i == 0 {
            assert r[j] == rest[j - 1] && rest[j - 1] in tail;
            var m :| 0 <= m < |tail| && tail[m] == r[j];
            assert s[m + 1] == r[j];
          }
        }
      }
    }
  }
}
