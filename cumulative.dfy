/** The array primitives the sampler is built from: the element-wise unit
    conversion of drawn intervals, their cumulative sum (numpy's `cumsum`),
    the shift by the window start (`spikes += t_start`) and the left-side
    insertion point (numpy's `searchsorted`). All arithmetic is exact. */
module Cumulative {

  predicate AllNonNegative(s: seq<real>) {
    forall j :: 0 <= j < |s| ==> s[j] >= 0.0
  }

  predicate NonDecreasing(s: seq<real>) {
    forall i, j :: 0 <= i <= j < |s| ==> s[i] <= s[j]
  }

  /** Sum of a sequence, folded from the left as a running total is. */
  function Sum(s: seq<real>): real {
    if |s| == 0 then 0.0 else Sum(s[..|s| - 1]) + s[|s| - 1]
  }

  /** Each value multiplied by a unit conversion factor; a positive factor
      keeps non-negative intervals non-negative. */
  function Rescale(s: seq<real>, factor: real): (r: seq<real>)
    ensures |r| == |s|
    ensures factor > 0.0 && AllNonNegative(s) ==> AllNonNegative(r)
  {
    seq(|s|, j requires 0 <= j < |s| => s[j] * factor)
  }

  /** Each value moved by the same offset: a non-negative value lands at or
      above the offset. */
  function Offset(s: seq<real>, c: real): (r: seq<real>)
    ensures |r| == |s|
    ensures forall j :: 0 <= j < |s| && s[j] >= 0.0 ==> r[j] >= c
  {
    seq(|s|, j requires 0 <= j < |s| => s[j] + c)
  }

  /** Cumulative sum: the running total after each element. */
  function CumSum(s: seq<real>): (r: seq<real>)
    ensures |r| == |s|
    ensures forall j :: 0 <= j < |s| ==> r[j] == Sum(s[..j + 1])
  {
    if |s| == 0 then []
    else
      var p := CumSum(s[..|s| - 1]);
      var total := if |p| == 0 then 0.0 else p[|p| - 1];
      assert forall k :: 0 < k < |s| ==> s[..|s| - 1][..k] == s[..k];
      assert s[..|s|] == s;
      assert |p| > 0 ==> total == Sum(s[..|s| - 1]);
      p + [total + s[|s| - 1]]
  }

  /** The index of the first element that is not below `v` (`|a|` when every
      element is below it). On a sorted sequence this is numpy's left-side
      `searchsorted`: the position at which `v` is inserted before its equals. */
  function SearchSorted(a: seq<real>, v: real): (i: nat)
    ensures i <= |a|
    ensures forall j :: 0 <= j < i ==> a[j] < v
    ensures i < |a| ==> a[i] >= v
  {
    if |a| == 0 then 0
    else if a[0] >= v then 0
    else 1 + SearchSorted(a[1..], v)
  }

  lemma {:induction false} SumNonNegative(s: seq<real>)
    requires AllNonNegative(s)
    ensures Sum(s) >= 0.0
  {
    if |s| > 0 {
      SumNonNegative(s[..|s| - 1]);
    }
  }

  /** A longer prefix of non-negative values never has a smaller sum. */
  lemma {:induction false} SumPrefixMonotone(s: seq<real>, i: nat, j: nat)
    requires AllNonNegative(s)
    requires i <= j <= |s|
    ensures Sum(s[..i]) <= Sum(s[..j])
  {
    if i < j {
      SumPrefixMonotone(s, i, j - 1);
      assert s[..j][..j - 1] == s[..j - 1];
    }
  }

  /** The cumulative sum of a prefix is the prefix of the cumulative sum:
      the first `m` candidate times depend on the first `m` draws only. */
  lemma {:induction false} CumSumPrefix(s: seq<real>, m: nat)
    requires m <= |s|
    ensures CumSum(s[..m]) == CumSum(s)[..m]
  {
    forall j | 0 <= j < m ensures CumSum(s[..m])[j] == CumSum(s)[j] {
      assert s[..m][..j + 1] == s[..j + 1];
    }
  }

  /** Shifted cumulative sums of non-negative intervals are sorted and never
      fall below the offset. */
  lemma {:induction false} CandidateTimes(c: real, s: seq<real>)
    requires AllNonNegative(s)
    ensures var t := Offset(CumSum(s), c);
      && |t| == |s|
      && NonDecreasing(t)
      && (forall j :: 0 <= j < |t| ==> t[j] >= c)
  {
    var t := Offset(CumSum(s), c);
    forall i, j | 0 <= i <= j < |t| ensures t[i] <= t[j] {
      SumPrefixMonotone(s, i + 1, j + 1);
    }
    forall j | 0 <= j < |t| ensures t[j] >= c {
      SumNonNegative(s[..j + 1]);
    }
  }

  /** On a sorted sequence the insertion point splits it into the part below
      `v` and the part at or above it, and inserting `v` there keeps it sorted. */
  lemma {:induction false} SearchSortedSplits(a: seq<real>, v: real)
    requires NonDecreasing(a)
    ensures var i := SearchSorted(a, v);
      && (forall j :: 0 <= j < |a| ==> (a[j] < v <==> j < i))
      && NonDecreasing(a[..i] + [v] + a[i..])
  {
    var i := SearchSorted(a, v);
    var b := a[..i] + [v] + a[i..];
    forall j | i <= j < |a| ensures a[j] >= v {
      assert a[i] <= a[j];
    }
    forall p, q | 0 <= p <= q < |b| ensures b[p] <= b[q] {
      if p < i && q > i {
        assert b[q] == a[q - 1];
      } else if p > i {
        assert b[p] == a[p - 1] && b[q] == a[q - 1];
      }
    }
  }
}
