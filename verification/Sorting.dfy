/** Stand-in for the standard library's unstable sorts, specified only by what they promise. */
module Sorting {

  predicate SortedBy(s: seq<nat>, key: nat -> nat) {
    forall i, j :: 0 <= i < j < |s| ==> key(s[i]) <= key(s[j])
  }

  function Indices(n: nat): (s: seq<nat>)
    ensures |s| == n && forall i :: 0 <= i < n ==> s[i] == i
  {
    seq(n, i => i)
  }

  /** Every text index below n, once each, in some order. */
  predicate IsPermutation(s: seq<nat>, n: nat) {
    && |s| == n
    && (forall i :: 0 <= i < n ==> s[i] < n)
    && Distinct(s)
  }

  /** The sequence s with its element n moved forward to position j. */
  function Sunk(s: seq<nat>, j: nat, n: nat): seq<nat>
    requires j <= n < |s|
  {
    s[..j] + [s[n]] + s[j..n] + s[n + 1..]
  }

  lemma SunkIsRearranged(s: seq<nat>, j: nat, n: nat)
    requires j <= n < |s|
    ensures multiset(Sunk(s, j, n)) == multiset(s)
  {
    assert s == s[..j] + s[j..n] + [s[n]] + s[n + 1..];
  }

  lemma SunkIsSorted(s: seq<nat>, j: nat, n: nat, key: nat -> nat)
    requires j <= n < |s| && SortedBy(s[..n], key)
    requires j == 0 || key(s[j - 1]) <= key(s[n])
    requires j == n || key(s[n]) <= key(s[j])
    ensures SortedBy(Sunk(s, j, n)[..n + 1], key)
  {
    var t := Sunk(s, j, n)[..n + 1];
    forall p, q | 0 <= p < q < |t| ensures key(t[p]) <= key(t[q]) {
      var lo, hi := if p < j then p else p - 1, if q <= j then q else q - 1;
      assert p != j ==> t[p] == s[..n][lo];
      assert q != j ==> t[q] == s[..n][if q < j then q else hi];
      assert j > 0 ==> s[j - 1] == s[..n][j - 1];
      assert j < n ==> s[j] == s[..n][j];
    }
  }

  /** t is s with its element n moved forward to position j. */
  predicate Sinking(t: seq<nat>, s: seq<nat>, j: nat, n: nat) {
    j <= n < |s| && t == Sunk(s, j, n)
  }

  lemma SinkStep(t: seq<nat>, s: seq<nat>, j: nat, n: nat)
    requires 0 < j && Sinking(t, s, j, n)
    ensures |t| == |s| && t[j] == s[n] && t[j - 1] == s[j - 1]
    ensures Sinking(t[j - 1 := t[j]][j := t[j - 1]], s, j - 1, n)
  {
    assert s[j - 1..n] == [s[j - 1]] + s[j..n];
    assert s[..j] == s[..j - 1] + [s[j - 1]];
  }

  /** Sinks element n of an array whose first n elements are sorted. */
  method SinkLast(a: array<nat>, n: nat, key: nat -> nat)
    requires n < a.Length && SortedBy(a[..n], key)
    modifies a
    ensures multiset(a[..]) == old(multiset(a[..]))
    ensures SortedBy(a[..n + 1], key)
  {
    ghost var s := a[..];
    assert s[..n] == a[..n];
    assert s == Sunk(s, n, n);
    var j := n;
    while 0 < j && key(a[j - 1]) > key(a[j])
      invariant 0 <= j <= n
      invariant Sinking(a[..], s, j, n)
      invariant j == n || key(s[n]) <= key(s[j])
    {
      hide Sinking;
      ghost var t := a[..];
      SinkStep(t, s, j, n);
      a[j - 1], a[j] := a[j], a[j - 1];
      assert a[..] == t[j - 1 := t[j]][j := t[j - 1]];
      j := j - 1;
    }
    if j > 0 {
      SinkStep(a[..], s, j, n);
    }
    SunkIsRearranged(s, j, n);
    SunkIsSorted(s, j, n, key);
    assert a[..n + 1] == Sunk(s, j, n)[..n + 1];
  }

  /** Sorts in place; like `sort_unstable_by_key` it promises nothing about ties. */
  method SortUnstableByKey(a: array<nat>, key: nat -> nat)
    modifies a
    ensures multiset(a[..]) == old(multiset(a[..]))
    ensures SortedBy(a[..], key)
  {
    for n := 0 to a.Length
      invariant SortedBy(a[..n], key)
      invariant multiset(a[..]) == old(multiset(a[..]))
    {
      SinkLast(a, n, key);
    }
    assert a[..a.Length] == a[..];
  }

  lemma {:induction false} DistinctCount<T>(s: seq<T>, x: T)
    requires Distinct(s)
    ensures multiset(s)[x] == if x in s then 1 else 0
  {
    if s != [] {
      assert s == [s[0]] + s[1..];
      DistinctCount(s[1..], x);
    }
  }

  lemma {:induction false} RepeatedCount<T>(s: seq<T>, i: nat, j: nat)
    requires i < j < |s| && s[i] == s[j]
    ensures multiset(s)[s[i]] >= 2
  {
    assert s == s[..j] + [s[j]] + s[j + 1..];
    assert s[i] in s[..j];
  }

  /** Rearranging 0, 1, ..., n - 1 yields a permutation. */
  lemma RearrangedIndices(s: seq<nat>, n: nat)
    requires multiset(s) == multiset(Indices(n))
    ensures IsPermutation(s, n)
  {
    assert |s| == |multiset(s)| == |multiset(Indices(n))| == n;
    forall i | 0 <= i < |s| ensures s[i] < n {
      assert s[i] in multiset(s);
    }
    forall i, j | 0 <= i < j < |s| ensures s[i] != s[j] {
      if s[i] == s[j] {
        RepeatedCount(s, i, j);
        DistinctCount(Indices(n), s[i]);
      }
    }
  }

  function ToSet<T>(s: seq<T>): set<T> { set x | x in s }

  predicate Distinct<T(==)>(s: seq<T>) {
    forall i, j :: 0 <= i < j < |s| ==> s[i] != s[j]
  }

  /** A sequence of k distinct values has k values as a set. */
  lemma {:induction false} DistinctSetSize<T>(s: seq<T>)
    requires Distinct(s)
    ensures |ToSet(s)| == |s|
  {
    if s != [] {
      DistinctSetSize(s[1..]);
      assert ToSet(s) == {s[0]} + ToSet(s[1..]);
    }
  }

  lemma SubsetSize<T>(s: set<T>, t: set<T>)
    requires s <= t
    ensures |s| <= |t|
    ensures |s| == |t| ==> s == t
  {
    assert t == s + (t - s);
  }

  /** A permutation of 0..n-1 reaches every index. */
  lemma Onto(s: seq<nat>, n: nat)
    requires IsPermutation(s, n)
    ensures ToSet(s) == ToSet(Indices(n))
    ensures forall i :: 0 <= i < n ==> i in s
  {
    DistinctSetSize(s);
    DistinctSetSize(Indices(n));
    forall x | x in ToSet(s) ensures x in ToSet(Indices(n)) {
      assert x == Indices(n)[x];
    }
    SubsetSize(ToSet(s), ToSet(Indices(n)));
    forall i | 0 <= i < n ensures i in s {
      assert Indices(n)[i] in ToSet(s);
    }
  }

  /** The indices 0..n-1 in some order that is non-decreasing in key. */
  method SortedIndices(n: nat, key: nat -> nat) returns (order: seq<nat>)
    ensures IsPermutation(order, n)
    ensures SortedBy(order, key)
  {
    var a := new nat[n](i => i);
    assert a[..] == Indices(n);
    SortUnstableByKey(a, key);
    order := a[..];
    RearrangedIndices(order, n);
  }
}
