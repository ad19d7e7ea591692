/**
 Contiguous, near-equal slices: how groups are split over devices, over the
 chunks of a pass, over worker threads and over reference threads.
 */
module Slices {
  import opened Checksums

  /** How many of `total` items slice `i` of `n` takes. */
  function Count(total: nat, n: nat, i: nat): nat
    requires n > 0
  {
    total / n + (if i < total % n then 1 else 0)
  }

  /** Where slice `i` of `n` starts. */
  function First(total: nat, n: nat, i: nat): nat
    requires n > 0
  {
    i * (total / n) + (if i < total % n then i else total % n)
  }

  /** Each slice ends where the next begins, and the last ends at `total`. */
  lemma Adjacent(total: nat, n: nat, i: nat)
    requires n > 0
    ensures First(total, n, 0) == 0
    ensures First(total, n, i) + Count(total, n, i) == First(total, n, i + 1)
    ensures First(total, n, n) == total
  {
    var q := total / n;
    assert (i + 1) * q == i * q + q;
    assert total == n * q + total % n;
  }

  lemma {:induction false} Monotone(total: nat, n: nat, i: nat, j: nat)
    requires n > 0 && i <= j
    ensures First(total, n, i) <= First(total, n, j)
    decreases j - i
  {
    if i < j {
      Adjacent(total, n, i);
      Monotone(total, n, i + 1, j);
    }
  }

  lemma Inside(total: nat, n: nat, i: nat)
    requires n > 0 && i <= n
    ensures First(total, n, i) <= total
  {
    Adjacent(total, n, i);
    Monotone(total, n, i, n);
  }

  /** Slice 0 is the largest, no slice is empty when there are items enough,
      and every slice lies inside the whole. */
  lemma Bounds(total: nat, n: nat, i: nat)
    requires n > 0 && i < n
    ensures Count(total, n, i) <= Count(total, n, 0)
    ensures n <= total ==> 0 < Count(total, n, i)
    ensures First(total, n, i) + Count(total, n, i) <= total
  {
    Adjacent(total, n, i);
    Monotone(total, n, i + 1, n);
  }

  /** Slice `i` of a sequence. */
  function Slice<T>(s: seq<T>, n: nat, i: nat): (r: seq<T>)
    requires n > 0 && i < n
    ensures |r| == Count(|s|, n, i)
  {
    Bounds(|s|, n, i);
    s[First(|s|, n, i)..][..Count(|s|, n, i)]
  }

  /** The XOR of `value` over a sequence. */
  function SumOver<T>(value: T -> Sum, s: seq<T>): Sum {
    if s == [] then Zero else Xor(SumOver(value, s[..|s| - 1]), value(s[|s| - 1]))
  }

  lemma {:induction false} SumOverAppend<T>(value: T -> Sum, s: seq<T>, t: seq<T>)
    ensures SumOver(value, s + t) == Xor(SumOver(value, s), SumOver(value, t))
  {
    if t == [] {
      assert s + t == s;
      XorZero(SumOver(value, s));
    } else {
      var front, last := t[..|t| - 1], t[|t| - 1];
      assert (s + t)[..|s + t| - 1] == s + front;
      SumOverAppend(value, s, front);
      XorAssoc(SumOver(value, s), SumOver(value, front), value(last));
    }
  }

  function SliceSum<T>(value: T -> Sum, s: seq<T>, n: nat, i: nat): Sum
    requires n > 0
  {
    if i < n then SumOver(value, Slice(s, n, i)) else Zero
  }

  /** The sum of slice i, as a function of i alone. */
  function SliceSums<T>(value: T -> Sum, s: seq<T>, n: nat): nat -> Sum
    requires n > 0
  {
    i => SliceSum(value, s, n, i)
  }

  function Cut<T>(s: seq<T>, lo: nat, hi: nat): seq<T> {
    if lo <= hi <= |s| then s[lo..hi] else []
  }

  /** The part of `s` between boundaries i and i + 1. */
  function Part<T>(s: seq<T>, bound: nat -> nat, i: nat): seq<T> {
    Cut(s, bound(i), bound(i + 1))
  }

  function PartSums<T>(value: T -> Sum, s: seq<T>, bound: nat -> nat): nat -> Sum {
    i => SumOver(value, Part(s, bound, i))
  }

  lemma SumOverCut<T>(value: T -> Sum, s: seq<T>, lo: nat, hi: nat)
    requires lo <= hi <= |s|
    ensures SumOver(value, s[..hi]) == Xor(SumOver(value, s[..lo]), SumOver(value, Cut(s, lo, hi)))
  {
    assert s[..hi] == s[..lo] + Cut(s, lo, hi);
    SumOverAppend(value, s[..lo], Cut(s, lo, hi));
  }

  lemma {:induction false} PartsUpTo<T>(value: T -> Sum, s: seq<T>, bound: nat -> nat, k: nat)
    requires bound(0) == 0
    requires forall i: nat, j: nat :: i <= j <= k ==> bound(i) <= bound(j) <= |s|
    ensures Big(PartSums(value, s, bound), k) == SumOver(value, s[..bound(k)])
  {
    if k == 0 {
      assert s[..bound(0)] == [];
    } else {
      PartsUpTo(value, s, bound, k - 1);
      SumOverCut(value, s, bound(k - 1), bound(k));
      assert Part(s, bound, k - 1) == Cut(s, bound(k - 1), bound(k));
    }
  }

  function Starts(total: nat, n: nat): nat -> nat
    requires n > 0
  {
    i => First(total, n, i)
  }

  lemma SliceIsCut<T>(value: T -> Sum, s: seq<T>, n: nat, i: nat)
    requires i < n
    ensures SliceSums(value, s, n)(i) == PartSums(value, s, Starts(|s|, n))(i)
  {
    Adjacent(|s|, n, i);
    Inside(|s|, n, i + 1);
    assert Slice(s, n, i) == Part(s, Starts(|s|, n), i);
  }

  /** The slices partition: their sums XOR to the sum of the whole. */
  lemma SlicesCover<T>(value: T -> Sum, s: seq<T>, n: nat)
    requires n > 0
    ensures Big(SliceSums(value, s, n), n) == SumOver(value, s)
  {
    var bound := Starts(|s|, n);
    forall i: nat, j: nat | i <= j <= n ensures bound(i) <= bound(j) <= |s| {
      Monotone(|s|, n, i, j);
      Inside(|s|, n, j);
    }
    forall i: nat | i < n ensures SliceSums(value, s, n)(i) == PartSums(value, s, bound)(i) {
      SliceIsCut(value, s, n, i);
    }
    Adjacent(|s|, n, 0);
    PartsUpTo(value, s, bound, n);
    BigExt(SliceSums(value, s, n), PartSums(value, s, bound), n);
    assert s[..bound(n)] == s;
  }

  function Same(s: Sum): Sum {
    s
  }

  /** The XOR of a sequence of checksums: what folding partials gives. */
  function Folded(p: seq<Sum>): Sum {
    SumOver(Same, p)
  }

  /** A sequence's sum, taken by index. */
  lemma {:induction false} SumOverIsBig<T>(value: T -> Sum, s: seq<T>, f: nat -> Sum, n: nat)
    requires n <= |s| && forall i: nat :: i < n ==> value(s[i]) == f(i)
    ensures SumOver(value, s[..n]) == Big(f, n)
  {
    hide Xor;
    if n > 0 {
      SumOverIsBig(value, s, f, n - 1);
      assert s[..n][..n - 1] == s[..n - 1];
    }
  }

  lemma FoldedIsBig(s: seq<Sum>, f: nat -> Sum, n: nat)
    requires n <= |s| && forall i: nat :: i < n ==> s[i] == f(i)
    ensures Folded(s[..n]) == Big(f, n)
  {
    SumOverIsBig(Same, s, f, n);
  }
}
