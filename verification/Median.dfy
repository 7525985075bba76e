/** The pool's per-worker model footprint: `median_usize` (src/embedder/math.rs). */
module Median {
  import opened Sorting

  function CountBelow(s: seq<nat>, x: nat): nat {
    if s == [] then 0 else CountBelow(s[..|s| - 1], x) + if s[|s| - 1] < x then 1 else 0
  }

  /** Fewer than or exactly half the values lie below m, and more than half lie at or below it:
      the upper of the two middle values when their number is even. */
  predicate IsUpperMedian(s: seq<nat>, m: nat) {
    m in s && CountBelow(s, m) <= |s| / 2 < CountBelow(s, m + 1)
  }

  lemma {:induction false} CountBelowMonotone(s: seq<nat>, x: nat, y: nat)
    requires x <= y
    ensures CountBelow(s, x) <= CountBelow(s, y)
  {
    if s != [] {
      CountBelowMonotone(s[..|s| - 1], x, y);
    }
  }

  /** There is only one such value. */
  lemma UpperMedianUnique(s: seq<nat>, m: nat, m': nat)
    requires IsUpperMedian(s, m) && IsUpperMedian(s, m')
    ensures m == m'
  {
    if m < m' {
      CountBelowMonotone(s, m + 1, m');
    } else if m' < m {
      CountBelowMonotone(s, m' + 1, m);
    }
  }

  lemma {:induction false} CountBelowConcat(s: seq<nat>, t: seq<nat>, x: nat)
    ensures CountBelow(s + t, x) == CountBelow(s, x) + CountBelow(t, x)
  {
    if t == [] {
      assert s + t == s;
    } else {
      CountBelowConcat(s, t[..|t| - 1], x);
      assert (s + t)[..|s + t| - 1] == s + t[..|t| - 1];
    }
  }

  lemma {:induction false} CountBelowRearranged(s: seq<nat>, t: seq<nat>, x: nat)
    requires multiset(s) == multiset(t)
    ensures CountBelow(s, x) == CountBelow(t, x)
  {
    if s == [] {
      assert |multiset(t)| == 0;
    } else {
      var last := s[|s| - 1];
      assert last in multiset(s);
      var i :| 0 <= i < |t| && t[i] == last;
      var front, rest := s[..|s| - 1], t[..i] + t[i + 1..];
      assert s == front + [last];
      assert t == t[..i] + ([t[i]] + t[i + 1..]);
      assert multiset(t) == multiset(rest) + multiset{last};
      assert multiset(front) == multiset(s) - multiset{last};
      CountBelowRearranged(front, rest, x);
      CountBelowConcat(t[..i], t[i + 1..], x);
      CountBelowConcat(t[..i], [t[i]] + t[i + 1..], x);
      CountBelowConcat([t[i]], t[i + 1..], x);
      assert [t[i]][..0] == [];
    }
  }

  /** In a sorted sequence at most k values lie below the k-th, and more than k at or below it. */
  lemma SortedCounts(s: seq<nat>, k: nat)
    requires SortedBy(s, x => x) && k < |s|
    ensures CountBelow(s, s[k]) <= k < CountBelow(s, s[k] + 1)
  {
    FewBelow(s, k);
    EnoughUpTo(s, k);
  }

  lemma FewBelow(s: seq<nat>, k: nat)
    requires SortedBy(s, x => x) && k < |s|
    ensures CountBelow(s, s[k]) <= k
  {
    assert s == s[..k] + s[k..];
    CountBelowConcat(s[..k], s[k..], s[k]);
    NoneBelow(s[k..], s[k]);
    CountAtMostLength(s[..k], s[k]);
  }

  lemma EnoughUpTo(s: seq<nat>, k: nat)
    requires SortedBy(s, x => x) && k < |s|
    ensures k < CountBelow(s, s[k] + 1)
  {
    assert s == s[..k + 1] + s[k + 1..];
    CountBelowConcat(s[..k + 1], s[k + 1..], s[k] + 1);
    AllBelow(s[..k + 1], s[k] + 1);
  }

  lemma {:induction false} NoneBelow(s: seq<nat>, x: nat)
    requires forall i :: 0 <= i < |s| ==> x <= s[i]
    ensures CountBelow(s, x) == 0
  {
    if s != [] {
      NoneBelow(s[..|s| - 1], x);
    }
  }

  lemma {:induction false} AllBelow(s: seq<nat>, x: nat)
    requires forall i :: 0 <= i < |s| ==> s[i] < x
    ensures CountBelow(s, x) == |s|
  {
    if s != [] {
      AllBelow(s[..|s| - 1], x);
    }
  }

  lemma {:induction false} CountAtMostLength(s: seq<nat>, x: nat)
    ensures CountBelow(s, x) <= |s|
  {
    if s != [] {
      CountAtMostLength(s[..|s| - 1], x);
    }
  }

  method MedianUsize(values: array<nat>) returns (m: nat)
    modifies values
    ensures values.Length == 0 ==> m == 0
    ensures values.Length > 0 ==> IsUpperMedian(old(values[..]), m)
  {
    if values.Length == 0 {
      return 0;
    }
    SortUnstableByKey(values, x => x);
    ghost var k := values.Length / 2;
    SortedCounts(values[..], k);
    m := values[values.Length / 2];
    CountBelowRearranged(values[..], old(values[..]), m);
    CountBelowRearranged(values[..], old(values[..]), m + 1);
    assert m in multiset(values[..]);
  }

  /** How many measurements differ between two lists of them. */
  function Changed(s: seq<nat>, t: seq<nat>): nat
    requires |s| == |t|
  {
    if s == [] then 0
    else Changed(s[..|s| - 1], t[..|t| - 1]) + if s[|s| - 1] != t[|t| - 1] then 1 else 0
  }

  /** If no unchanged value lies below m, every value of t below m is a changed one. */
  lemma {:induction false} BelowAreChanged(s: seq<nat>, t: seq<nat>, m: nat)
    requires |s| == |t| && forall i :: 0 <= i < |s| && s[i] == t[i] ==> s[i] >= m
    ensures CountBelow(t, m) <= Changed(s, t)
  {
    if s != [] {
      BelowAreChanged(s[..|s| - 1], t[..|t| - 1], m);
    }
  }

  /** If every unchanged value lies below m, every value of t not below m is a changed one. */
  lemma {:induction false} AboveAreChanged(s: seq<nat>, t: seq<nat>, m: nat)
    requires |s| == |t| && forall i :: 0 <= i < |s| && s[i] == t[i] ==> s[i] < m
    ensures |t| - CountBelow(t, m) <= Changed(s, t)
  {
    if s != [] {
      AboveAreChanged(s[..|s| - 1], t[..|t| - 1], m);
    }
  }

  /** Outliers: while fewer than half the measurements of s are disturbed, the median of what is
      left still lies between two undisturbed measurements. */
  lemma OutliersCannotMoveMedian(s: seq<nat>, t: seq<nat>, m: nat)
    requires |s| == |t| && 2 * Changed(s, t) < |s| && IsUpperMedian(t, m)
    ensures exists i :: 0 <= i < |s| && s[i] == t[i] <= m
    ensures exists i :: 0 <= i < |s| && m <= s[i] == t[i]
  {
    if forall i :: 0 <= i < |s| && s[i] == t[i] ==> s[i] >= m + 1 {
      BelowAreChanged(s, t, m + 1);
    }
    if forall i :: 0 <= i < |s| && s[i] == t[i] ==> s[i] < m {
      AboveAreChanged(s, t, m);
    }
  }
}
