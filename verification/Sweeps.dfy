/**
 How a device launch covers the groups: work-items stride over them, sweep the
 corpus an odd number of times, and reduce their sums in a tree.
 */
module Sweeps {
  import opened Arithmetic
  import opened Checksums
  import opened Slices

  // ---- grid stride ------------------------------------------------------------

  /** Group visited at turn `i` by the work-items that start at group `q`. */
  function Visit(d: (nat, nat) -> Sum, stride: nat, q: nat, lane: nat, i: nat): Sum {
    d(i * stride + q, lane)
  }

  function Visits(d: (nat, nat) -> Sum, stride: nat, q: nat, lane: nat): nat -> Sum {
    i => Visit(d, stride, q, lane, i)
  }

  /** Everything one work-item adds in a sweep over n groups. */
  function Sweep(d: (nat, nat) -> Sum, stride: nat, n: nat, q: nat, lane: nat): Sum {
    Big(Visits(d, stride, q, lane), n)
  }

  ghost predicate EndsAt(d: (nat, nat) -> Sum, n: nat) {
    forall g: nat, lane: nat :: n <= g ==> d(g, lane) == Zero
  }

  lemma {:induction false} ZeroTail(f: nat -> Sum, m: nat, n: nat)
    requires m <= n && forall i: nat :: m <= i < n ==> f(i) == Zero
    ensures Big(f, n) == Big(f, m)
  {
    if m < n {
      ZeroTail(f, m, n - 1);
      XorZero(Big(f, m));
    }
  }

  lemma VisitBeyond(d: (nat, nat) -> Sum, stride: nat, n: nat, q: nat, lane: nat, i: nat, j: nat)
    requires EndsAt(d, n) && i <= j && n <= i * stride + q
    ensures Visits(d, stride, q, lane)(j) == Zero
  {
    assert j * stride == i * stride + (j - i) * stride;
  }

  /** Stopping where the groups run out loses nothing. */
  lemma SweepStops(d: (nat, nat) -> Sum, stride: nat, n: nat, q: nat, lane: nat, i: nat)
    requires EndsAt(d, n) && i <= n <= i * stride + q
    ensures Sweep(d, stride, n, q, lane) == Big(Visits(d, stride, q, lane), i)
  {
    hide Visits, EndsAt, Big, Xor;
    forall j: nat | i <= j < n ensures Visits(d, stride, q, lane)(j) == Zero {
      VisitBeyond(d, stride, n, q, lane, i, j);
    }
    ZeroTail(Visits(d, stride, q, lane), i, n);
  }

  function Turns(d: (nat, nat) -> Sum, stride: nat, lane: nat): (nat, nat) -> Sum {
    (q, i) => Visit(d, stride, q, lane, i)
  }

  lemma TurnsRow(d: (nat, nat) -> Sum, stride: nat, n: nat, q: nat, lane: nat)
    ensures RowSums(Turns(d, stride, lane), n)(q) == Sweep(d, stride, n, q, lane)
  {
    hide Xor;
    BigExt(Row(Turns(d, stride, lane), q), Visits(d, stride, q, lane), n);
  }

  lemma TurnsColumn(d: (nat, nat) -> Sum, stride: nat, lane: nat, i: nat)
    ensures ColumnSums(Turns(d, stride, lane), stride)(i) == Big((q: nat) => Column(d, lane)(i * stride + q), stride)
  {
    hide Xor;
    var f, g := Column(Turns(d, stride, lane), i), (q: nat) => Column(d, lane)(i * stride + q);
    forall q: nat | q < stride ensures f(q) == g(q) {
      var at: nat := i * stride + q;
      assert Column(d, lane)(at) == d(at, lane);
    }
    BigExt(f, g, stride);
  }

  function LaneSweeps(d: (nat, nat) -> Sum, stride: nat, n: nat, lane: nat): nat -> Sum {
    q => Sweep(d, stride, n, q, lane)
  }

  /** Together the items of one lane visit every group exactly once. */
  lemma LaneCovered(d: (nat, nat) -> Sum, stride: nat, n: nat, lane: nat)
    requires EndsAt(d, n) && 0 < stride
    ensures Big(LaneSweeps(d, stride, n, lane), stride) == Big(Column(d, lane), n)
  {
    hide Xor, Sweep, Visit, Big;
    var t := Turns(d, stride, lane);
    forall q: nat | q < stride ensures LaneSweeps(d, stride, n, lane)(q) == RowSums(t, n)(q) {
      TurnsRow(d, stride, n, q, lane);
    }
    BigExt(LaneSweeps(d, stride, n, lane), RowSums(t, n), stride);
    BigTranspose(t, stride, n);
    var rows := (i: nat) => Big((q: nat) => Column(d, lane)(i * stride + q), stride);
    forall i: nat | i < n ensures ColumnSums(t, stride)(i) == rows(i) {
      TurnsColumn(d, stride, lane, i);
    }
    BigExt(ColumnSums(t, stride), rows, n);
    BigRows(Column(d, lane), n, stride);
    assert n <= n * stride;
    ZeroTail(Column(d, lane), n, n * stride);
  }

  // ---- all the work-items -----------------------------------------------------

  /** What work-item `gid` adds in one sweep. */
  function Item(d: (nat, nat) -> Sum, stride: nat, lanes: nat, n: nat, gid: nat): Sum
    requires 0 < lanes
  {
    Sweep(d, stride, n, gid / lanes, gid % lanes)
  }

  function Items(d: (nat, nat) -> Sum, stride: nat, lanes: nat, n: nat): nat -> Sum
    requires 0 < lanes
  {
    gid => Item(d, stride, lanes, n, gid)
  }

  function Grid(d: (nat, nat) -> Sum, stride: nat, n: nat): (nat, nat) -> Sum {
    (q, lane) => Sweep(d, stride, n, q, lane)
  }

  lemma ItemInGrid(d: (nat, nat) -> Sum, stride: nat, lanes: nat, n: nat, q: nat, lane: nat)
    requires lane < lanes
    ensures Items(d, stride, lanes, n)(q * lanes + lane) == Row(Grid(d, stride, n), q)(lane)
  {
    hide Sweep;
    Quotient(lanes, q, lane);
  }

  lemma GridRow(d: (nat, nat) -> Sum, stride: nat, lanes: nat, n: nat, q: nat)
    requires 0 < lanes
    ensures Big((lane: nat) => Items(d, stride, lanes, n)(q * lanes + lane), lanes) == RowSums(Grid(d, stride, n),
      lanes)(q)
  {
    hide Item, Sweep, Xor, Items, Grid, Row, Big;
    var f := (lane: nat) => Items(d, stride, lanes, n)(q * lanes + lane);
    forall lane: nat | lane < lanes ensures f(lane) == Row(Grid(d, stride, n), q)(lane) {
      ItemInGrid(d, stride, lanes, n, q, lane);
    }
    BigExt(f, Row(Grid(d, stride, n), q), lanes);
  }

  lemma GridColumn(d: (nat, nat) -> Sum, stride: nat, n: nat, lane: nat)
    requires EndsAt(d, n) && 0 < stride
    ensures ColumnSums(Grid(d, stride, n), stride)(lane) == ColumnSums(d, n)(lane)
  {
    hide Sweep, Xor, EndsAt;
    BigExt(Column(Grid(d, stride, n), lane), LaneSweeps(d, stride, n, lane), stride);
    LaneCovered(d, stride, n, lane);
  }

  /** A sweep of a whole grid adds every group and lane exactly once. */
  lemma ItemsCover(d: (nat, nat) -> Sum, stride: nat, lanes: nat, n: nat)
    requires EndsAt(d, n) && 0 < stride && 0 < lanes
    ensures Big(Items(d, stride, lanes, n), stride * lanes) == Big(RowSums(d, lanes), n)
  {
    hide Items, Grid, Big, Xor, EndsAt;
    var s, g := Items(d, stride, lanes, n), Grid(d, stride, n);
    BigRows(s, stride, lanes);
    var rows := (q: nat) => Big((lane: nat) => s(q * lanes + lane), lanes);
    forall q: nat | q < stride ensures rows(q) == RowSums(g, lanes)(q) {
      GridRow(d, stride, lanes, n, q);
    }
    BigExt(rows, RowSums(g, lanes), stride);
    BigTranspose(g, stride, lanes);
    forall lane: nat | lane < lanes ensures ColumnSums(g, stride)(lane) == ColumnSums(d, n)(lane) {
      GridColumn(d, stride, n, lane);
    }
    BigExt(ColumnSums(g, stride), ColumnSums(d, n), lanes);
    BigTranspose(d, n, lanes);
  }

  // ---- repeats ----------------------------------------------------------------

  /** Adding the same sweep an odd number of times adds it once; an even number
      cancels it whatever it is. */
  lemma {:induction false} Repeats(x: Sum, times: nat)
    ensures Big((i: nat) => x, times) == if times % 2 == 1 then x else Zero
  {
    if times > 0 {
      Repeats(x, times - 1);
      XorZero(x);
      XorSelf(x);
    }
  }

  // ---- the tree ---------------------------------------------------------------

  predicate PowerOfTwo(n: nat) {
    n == 1 || (0 < n && n % 2 == 0 && PowerOfTwo(n / 2))
  }

  /** One round: the low half takes on the high half. An odd entry out is left
      behind. */
  function Halved(s: seq<Sum>): (r: seq<Sum>)
    requires 2 <= |s|
    ensures |r| == |s| / 2
  {
    seq(|s| / 2, i requires 0 <= i < |s| / 2 => Xor(s[i], s[|s| / 2 + i]))
  }

  /** What is left in entry 0. */
  function Tree(s: seq<Sum>): Sum
    requires 0 < |s|
    decreases |s|
  {
    if |s| == 1 then s[0] else Tree(Halved(s))
  }

  lemma {:induction false} PairSums(a: seq<Sum>, b: seq<Sum>, c: seq<Sum>)
    requires |a| == |b| == |c| && forall i :: 0 <= i < |c| ==> c[i] == Xor(a[i], b[i])
    ensures Folded(c) == Xor(Folded(a), Folded(b))
  {
    hide Xor;
    if c == [] {
      XorZero(Zero);
    } else {
      var n := |c| - 1;
      PairSums(a[..n], b[..n], c[..n]);
      XorSwap(Folded(a[..n]), Folded(b[..n]), a[n], b[n]);
    }
  }

  lemma Halves(s: seq<Sum>)
    requires 2 <= |s| && |s| % 2 == 0
    ensures Folded(Halved(s)) == Folded(s)
  {
    var lo, hi := s[..|s| / 2], s[|s| / 2..];
    PairSums(lo, hi, Halved(s));
    SumOverAppend(Same, lo, hi);
    assert s == lo + hi;
    hide Xor;
  }

  /** A power-of-two tree leaves the sum of all the entries. */
  lemma {:induction false} TreeSums(s: seq<Sum>)
    requires PowerOfTwo(|s|)
    ensures Tree(s) == Folded(s)
    decreases |s|
  {
    if |s| == 1 {
      XorZero(s[0]);
      assert SumOver(Same, s) == Xor(SumOver(Same, s[..0]), Same(s[0]));
    } else {
      Halves(s);
      TreeSums(Halved(s));
    }
  }

  /** The entry some round of a tree of another size leaves without a partner. */
  function LostAt(n: nat): (i: nat)
    requires !PowerOfTwo(n) && 0 < n
    ensures i < n
  {
    if n % 2 == 1 then n - 1 else LostAt(n / 2)
  }

  /** `x` in entry `at`, zero elsewhere. */
  function Only(n: nat, at: nat, x: Sum): (s: seq<Sum>)
    ensures |s| == n
  {
    seq(n, i => if i == at then x else Zero)
  }

  lemma {:induction false} FoldedOnly(n: nat, at: nat, x: Sum)
    ensures Folded(Only(n, at, x)) == if at < n then x else Zero
  {
    if n > 0 {
      FoldedOnly(n - 1, at, x);
      assert Only(n, at, x)[..n - 1] == Only(n - 1, at, x);
      XorZero(x);
      XorZero(Zero);
    }
  }

  lemma HalvedOnly(n: nat, at: nat, x: Sum)
    requires 2 <= n && (at < n / 2 || n - n % 2 <= at)
    ensures Halved(Only(n, at, x)) == Only(n / 2, at, x)
  {
    hide Xor;
    XorZero(x);
    XorZero(Zero);
  }

  lemma {:induction false} TreeMisses(n: nat, at: nat, x: Sum)
    requires 0 < n <= at
    ensures Tree(Only(n, at, x)) == Zero
  {
    if 2 <= n {
      HalvedOnly(n, at, x);
      TreeMisses(n / 2, at, x);
    }
  }

  /** A group size that is not a power of two loses a work-item's digests, so
      the reduction is right for every corpus only with a power of two. */
  lemma {:induction false} TreeLoses(n: nat, x: Sum)
    requires !PowerOfTwo(n) && 0 < n
    ensures Tree(Only(n, LostAt(n), x)) == Zero && Folded(Only(n, LostAt(n), x)) == x
  {
    FoldedOnly(n, LostAt(n), x);
    HalvedOnly(n, LostAt(n), x);
    if n % 2 == 1 {
      TreeMisses(n / 2, LostAt(n), x);
    } else {
      TreeLoses(n / 2, x);
    }
  }

  /** One round: the items below `half` add their partners' entries, all at
      once between two barriers. */
  method ReduceRound(scratch: array<Sum>, half: nat, ghost size: nat)
    requires 2 <= size <= scratch.Length && half == size / 2
    modifies scratch
    ensures scratch[..half] == Halved(old(scratch[..size]))
  {
    hide Xor;
    forall lid | 0 <= lid < half {
      scratch[lid] := Xor(scratch[lid], scratch[half + lid]);
    }
  }

  /** The reduction as a work-group runs it. */
  method Reduce(scratch: array<Sum>)
    requires 0 < scratch.Length
    modifies scratch
    ensures scratch[0] == Tree(old(scratch[..]))
  {
    hide Halved;
    ghost var size := scratch.Length;
    assert scratch[..size] == scratch[..];
    var half := scratch.Length / 2;
    while 0 < half
      invariant half == size / 2 && 0 < size <= scratch.Length
      invariant Tree(scratch[..size]) == Tree(old(scratch[..]))
    {
      ReduceRound(scratch, half, size);
      size := half;
      half := half / 2;
    }
  }
}
