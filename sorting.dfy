/** Sorting by a real-valued key in descending order, standing in for Swift's
    `sorted { key($0) > key($1) }`. Swift does not promise an order among equal keys,
    so the clients of this module state only what `SortedDesc` and the multiset give. */
module Sorting {


  ghost predicate SortedDesc<T>(s: seq<T>, key: T -> real) {
    forall i, j :: 0 <= i < j < |s| ==> key(s[i]) >= key(s[j])
  }

  function Insert<T>(x: T, s: seq<T>, key: T -> real): (r: seq<T>)
    requires SortedDesc(s, key)
    ensures multiset(r) == multiset(s) + multiset{x}
    ensures SortedDesc(r, key)
    decreases |s|
  {
    if s == [] || key(x) >= key(s[0]) then
      InsertFrontSorted(x, s, key);
      [x] + s
    else
      var rest := Insert(x, s[1..], key);
      InsertBehindSorted(x, s, rest, key);
      [s[0]] + rest
  }

  lemma InsertFrontSorted<T>(x: T, s: seq<T>, key: T -> real)
    requires SortedDesc(s, key)
    requires s == [] || key(x) >= key(s[0])
    ensures SortedDesc([x] + s, key)
    ensures multiset([x] + s) == multiset(s) + multiset{x}
  {
    var r := [x] + s;
    forall i, j | 0 <= i < j < |r| ensures key(r[i]) >= key(r[j]) {
      if i == 0 {
        assert r[j] == s[j - 1];
        if j > 1 { assert key(s[0]) >= key(s[j - 1]); }
      } else {
        assert r[i] == s[i - 1] && r[j] == s[j - 1];
      }
    }
  }

  lemma InsertBehindSorted<T>(x: T, s: seq<T>, rest: seq<T>, key: T -> real)
    requires SortedDesc(s, key)
    requires s != [] && key(x) < key(s[0])
    requires multiset(rest) == multiset(s[1..]) + multiset{x}
    requires SortedDesc(rest, key)
    ensures SortedDesc([s[0]] + rest, key)
    ensures multiset([s[0]] + rest) == multiset(s) + multiset{x}
  {
    assert s == [s[0]] + s[1..];
    var r := [s[0]] + rest;
    forall i, j | 0 <= i < j < |r| ensures key(r[i]) >= key(r[j]) {
      if i == 0 {
        var y := rest[j - 1];
        assert r[j] == y;
        assert y in multiset(rest);
        if y != x {
          assert y in multiset(s[1..]);
          var m :| 0 <= m < |s[1..]| && s[1..][m] == y;
          assert s[m + 1] == y;
        }
      } else {
        assert r[i] == rest[i - 1] && r[j] == rest[j - 1];
      }
    }
  }

  function SortDesc<T>(s: seq<T>, key: T -> real): (r: seq<T>)
    ensures multiset(r) == multiset(s)
    ensures |r| == |s|
    ensures SortedDesc(r, key)
    decreases |s|
  {
    if s == [] then []
    else
      assert s == [s[0]] + s[1..];
      Insert(s[0], SortDesc(s[1..], key), key)
  }

  /** The first elements of `chosen` come from `all`, and every element of `all` left out
      scores no higher than any chosen one. */
  ghost predicate TopByKey<T>(chosen: seq<T>, all: seq<T>, key: T -> real) {
    && multiset(chosen) <= multiset(all)
    && forall a, u :: a in chosen && u in multiset(all) - multiset(chosen) ==> key(u) <= key(a)
  }

  /** A prefix of the sorted sequence is a top selection. */
  lemma SortedPrefixIsTop<T>(s: seq<T>, key: T -> real, k: nat)
    requires k <= |s|
    ensures TopByKey(SortDesc(s, key)[..k], s, key)
  {
    var r := SortDesc(s, key);
    SortedSplitIsTop(r, key, k);
  }

  lemma SortedSplitIsTop<T>(r: seq<T>, key: T -> real, k: nat)
    requires k <= |r|
    requires SortedDesc(r, key)
    ensures TopByKey(r[..k], r, key)
  {
    SplitMultiset(r, k);
    SortedSplitDominates(r, key, k);
    forall a, u | a in r[..k] && u in multiset(r) - multiset(r[..k]) ensures key(u) <= key(a) {
      assert u in multiset(r[k..]);
      assert u in r[k..];
    }
  }

  /** An element of a rearrangement of `r` lies before position k or after it. */
  lemma PrefixOrRest<T>(r: seq<T>, k: nat, x: T)
    requires k <= |r| && x in multiset(r)
    ensures x in r[..k] || x in r[k..]
  {
    assert r == r[..k] + r[k..];
  }

  /** Cutting a sequence in two splits its multiset in two. */
  lemma SplitMultiset<T>(r: seq<T>, k: nat)
    requires k <= |r|
    ensures multiset(r[..k]) <= multiset(r)
    ensures multiset(r) - multiset(r[..k]) == multiset(r[k..])
  {
    assert r == r[..k] + r[k..];
  }

  /** In a sorted sequence, nothing after position k has a larger key than anything before it. */
  lemma SortedSplitDominates<T>(r: seq<T>, key: T -> real, k: nat)
    requires k <= |r|
    requires SortedDesc(r, key)
    ensures forall a, u :: a in r[..k] && u in r[k..] ==> key(u) <= key(a)
  {
    forall a, u | a in r[..k] && u in r[k..] ensures key(u) <= key(a) {
      var i :| 0 <= i < k && r[..k][i] == a;
      var j :| 0 <= j < |r| - k && r[k..][j] == u;
      assert r[i] == a && r[k + j] == u;
    }
  }

  ghost predicate Distinct<T>(s: seq<T>) {
    forall i, j :: 0 <= i < j < |s| ==> s[i] != s[j]
  }

  lemma DistinctMultiplicity<T>(s: seq<T>, x: T)
    requires Distinct(s)
    ensures multiset(s)[x] <= 1
    decreases |s|
  {
    if s != [] {
      assert s == [s[0]] + s[1..];
      DistinctMultiplicity(s[1..], x);
      if s[0] == x {
        assert x !in s[1..];
      }
    }
  }

  /** A rearrangement of a sequence without repetitions has none either. */
  lemma PermutationKeepsDistinct<T>(a: seq<T>, b: seq<T>)
    requires multiset(a) == multiset(b)
    requires Distinct(a)
    ensures Distinct(b)
  {
    forall i, j | 0 <= i < j < |b| ensures b[i] != b[j] {
      var x := b[i];
      DistinctMultiplicity(a, x);
      assert b == b[..j] + b[j..];
      assert x in b[..j];
      assert multiset(b)[x] == multiset(b[..j])[x] + multiset(b[j..])[x];
      assert multiset(b[j..])[x] == 0;
      assert b[j] in b[j..];
    }
  }

  /** The first `k` of a descending sort of distinct elements: distinct elements of `s`, in
      descending key order, and no element left out has a larger key than one chosen. */
  lemma SortedPrefixOfDistinct<T>(s: seq<T>, key: T -> real, k: nat)
    requires k <= |s| && Distinct(s)
    ensures var top := SortDesc(s, key)[..k];
      && |top| == k
      && Distinct(top)
      && (forall i :: 0 <= i < k ==> top[i] in s)
      && (forall i, j :: 0 <= i < j < k ==> key(top[i]) >= key(top[j]))
      && (forall x, i :: x in s && x !in top && 0 <= i < k ==> key(x) <= key(top[i]))
  {
    var sorted := SortDesc(s, key);
    var top := sorted[..k];
    PermutationKeepsDistinct(s, sorted);
    SortedSplitDominates(sorted, key, k);
    forall i | 0 <= i < k ensures top[i] in s {
      assert top[i] == sorted[i];
      assert sorted[i] in multiset(s);
    }
    forall i, j | 0 <= i < j < k ensures key(top[i]) >= key(top[j]) && top[i] != top[j] {
      assert top[i] == sorted[i] && top[j] == sorted[j];
    }
    forall x, i | x in s && x !in top && 0 <= i < k ensures key(x) <= key(top[i]) {
      PrefixOrRest(sorted, k, x);
      assert top[i] in top;
    }
  }
}
