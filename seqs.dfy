/** Sequence operations the services build from Python list idioms:
    comprehensions with a condition, `next(...)` over a generator, and `sorted`. */
module Seqs {

  import opened Wrappers

  function Min(a: int, b: int): int
  {
    if a <= b then a else b
  }

  /** `[x for x in s if p(x)]`, defined element by element from the end so that
      a loop appending in table order follows it step by step. */
  function Filter<T>(s: seq<T>, p: T -> bool): seq<T>
  {
    if s == [] then [] else Filter(s[..|s| - 1], p) + (if p(s[|s| - 1]) then [s[|s| - 1]] else [])
  }

  /** `a` is `b` with some elements dropped, the rest kept in order. */
  ghost predicate IsSubseq<T>(a: seq<T>, b: seq<T>)
  {
    a == [] ||
    (b != [] &&
     ((a[|a| - 1] == b[|b| - 1] && IsSubseq(a[..|a| - 1], b[..|b| - 1])) || IsSubseq(a, b[..|b| - 1])))
  }

  lemma {:induction false} SubseqOfItself<T>(s: seq<T>)
    ensures IsSubseq(s, s)
  {
    if s != [] {
      SubseqOfItself(s[..|s| - 1]);
    }
  }

  /** A filter keeps exactly the elements satisfying its condition. */
  lemma {:induction false} FilterMembers<T>(s: seq<T>, p: T -> bool, x: T)
    ensures x in Filter(s, p) <==> x in s && p(x)
  {
    if s != [] {
      FilterMembers(s[..|s| - 1], p, x);
      assert s == s[..|s| - 1] + [s[|s| - 1]];
    }
  }

  /** A filter keeps the table order. */
  lemma {:induction false} FilterSubseq<T>(s: seq<T>, p: T -> bool)
    ensures IsSubseq(Filter(s, p), s)
  {
    if s != [] {
      var s', x := s[..|s| - 1], s[|s| - 1];
      FilterSubseq(s', p);
      assert s[..|s| - 1] == s';
      if p(x) {
        var f := Filter(s, p);
        assert f == Filter(s', p) + [x];
        assert f[..|f| - 1] == Filter(s', p);
      } else {
        assert Filter(s, p) == Filter(s', p);
      }
    }
  }

  /** When every element qualifies, the filter returns the whole sequence. */
  lemma {:induction false} FilterAll<T>(s: seq<T>, p: T -> bool)
    requires forall k :: 0 <= k < |s| ==> p(s[k])
    ensures Filter(s, p) == s
  {
    if s != [] {
      FilterAll(s[..|s| - 1], p);
      assert s == s[..|s| - 1] + [s[|s| - 1]];
    }
  }

  /** Appending one element to the filtered prefix: the step a loop with `append` makes. */
  lemma FilterStep<T>(s: seq<T>, i: nat, p: T -> bool)
    requires i < |s|
    ensures Filter(s[..i + 1], p) == Filter(s[..i], p) + (if p(s[i]) then [s[i]] else [])
  {
    assert s[..i + 1][..i] == s[..i];
  }

  /** `next((i for i, x in enumerate(s) if p(x)), None)`: the index of the first match. */
  function FirstWhere<T>(s: seq<T>, p: T -> bool): (r: Option<nat>)
    ensures r.Some? ==> r.value < |s| && p(s[r.value]) && forall j :: 0 <= j < r.value ==> !p(s[j])
    ensures r.None? <==> forall j :: 0 <= j < |s| ==> !p(s[j])
  {
    if s == [] then None
    else if p(s[0]) then Some(0)
    else
      match FirstWhere(s[1..], p)
      case None => None
      case Some(k) => Some(k + 1)
  }

  /** `s` is in non-decreasing order of `key`. */
  ghost predicate SortedBy<T>(s: seq<T>, key: T -> int)
  {
    forall i, j :: 0 <= i < j < |s| ==> key(s[i]) <= key(s[j])
  }

  /** Places `x` before the first element whose key is not smaller, so that equal
      keys keep their original order. */
  function InsertBy<T>(x: T, s: seq<T>, key: T -> int): (r: seq<T>)
    ensures multiset(r) == multiset(s) + multiset{x}
    ensures |r| == |s| + 1
    ensures r[0] == x || (s != [] && r[0] == s[0])
  {
    if s == [] || key(x) <= key(s[0]) then [x] + s
    else
      assert s == [s[0]] + s[1..];
      [s[0]] + InsertBy(x, s[1..], key)
  }

  lemma {:induction false} InsertBySorted<T>(x: T, s: seq<T>, key: T -> int)
    requires SortedBy(s, key)
    ensures SortedBy(InsertBy(x, s, key), key)
  {
    if s != [] && key(x) > key(s[0]) {
      InsertBySorted(x, s[1..], key);
      var t := InsertBy(x, s[1..], key);
      assert key(s[0]) <= key(t[0]);
      var r := [s[0]] + t;
      forall i, j | 0 <= i < j < |r|
        ensures key(r[i]) <= key(r[j])
      {
        if i == 0 {
          assert key(t[0]) <= key(t[j - 1]) || j == 1;
        }
      }
    }
  }

  /** Python's `sorted(s, key=key)`. */
  function SortBy<T>(s: seq<T>, key: T -> int): (r: seq<T>)
    ensures multiset(r) == multiset(s)
    ensures |r| == |s|
  {
    if s == [] then []
    else
      assert s == [s[0]] + s[1..];
      InsertBy(s[0], SortBy(s[1..], key), key)
  }

  lemma {:induction false} SortBySorted<T>(s: seq<T>, key: T -> int)
    ensures SortedBy(SortBy(s, key), key)
  {
    if s != [] {
      SortBySorted(s[1..], key);
      InsertBySorted(s[0], SortBy(s[1..], key), key);
    }
  }

  /** A prefix takes no element more often than the whole sequence holds it. */
  lemma PrefixSubMultiset<T>(t: seq<T>, n: nat)
    requires n <= |t|
    ensures multiset(t[..n]) <= multiset(t)
  {
    assert t == t[..n] + t[n..];
  }

  /** In a sorted sequence, no element outside the first `n` has a smaller key
      than the last of them. */
  lemma SortedPrefixBound<T>(t: seq<T>, key: T -> int, n: nat)
    requires SortedBy(t, key) && 0 < n <= |t|
    ensures forall y :: y in t && y !in t[..n] ==> key(t[n - 1]) <= key(y)
  {
    forall y | y in t && y !in t[..n]
      ensures key(t[n - 1]) <= key(y)
    {
      assert forall i :: 0 <= i < n ==> t[..n][i] == t[i];
      var j :| 0 <= j < |t| && t[j] == y;
    }
  }

  /** The first `n` elements of a sorted permutation of `s`: members of `s`, each
      taken at most as often as it occurs there, in key order, and no element of `s`
      left out has a smaller key than the last taken. */
  lemma SmallestByKey<T>(s: seq<T>, key: T -> int, n: nat)
    requires n <= |s|
    ensures var r := SortBy(s, key)[..n];
      && |r| == n
      && (forall k :: 0 <= k < n ==> r[k] in s)
      && multiset(r) <= multiset(s)
      && SortedBy(r, key)
      && (forall y :: y in s && y !in r && n > 0 ==> key(r[n - 1]) <= key(y))
  {
    var t := SortBy(s, key);
    SortBySorted(s, key);
    PrefixSubMultiset(t, n);
    forall k | 0 <= k < n
      ensures t[..n][k] in s
    {
      assert t[..n][k] == t[k];
      assert t[k] in multiset(t);
    }
    if n > 0 {
      SortedPrefixBound(t, key, n);
      forall y | y in s
        ensures y in t
      {
        assert y in multiset(s);
      }
    }
  }
}
