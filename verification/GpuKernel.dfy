/**
 A device launch over some groups: work-items stride over the groups, each
 hashing its lane of every stream, sweep after sweep; work-groups reduce to one
 partial each. Folding the partials gives the checksum of the groups.
 */
module GpuKernel {
  import opened Arithmetic
  import opened Checksums
  import opened Slices
  import opened Algorithms
  import opened Workload
  import opened Words
  import opened Chain
  import opened Cells
  import opened CpuKernel
  import opened Hashes
  import opened Sweeps

  /** The words of `streams` slots. */
  type Group = seq<Word>

  datatype Launch = Launch(a: Algorithm, blocks: nat, streams: nat, lanes: nat, iterations: nat,
                           local: nat, global: nat, repeats: nat)
  {
    /** A power-of-two group that divides the grid, a grid of whole lanes, an
        odd repeat count. */
    ghost predicate Legal()
      ensures Legal() ==> a.Valid() && 0 < lanes && 0 < local
    {
      && a.Valid() && 0 < blocks && 0 < lanes && 0 < iterations
      && PowerOfTwo(local) && 0 < global && global % local == 0 && global % lanes == 0
      && repeats % 2 == 1
    }

    /** Enough to run without a fault, whatever the result. */
    ghost predicate Runs() {
      && a.Valid() && 0 < blocks && 0 < lanes && 0 < iterations && 0 < local && lanes <= global
    }

    function ViewOf(g: Group): View {
      View(g, streams, blocks, lanes)
    }

    ghost predicate Holds(groups: seq<Group>) {
      forall g :: 0 <= g < |groups| ==> ViewOf(groups[g]).Valid(a)
    }
  }

  // ---- what a launch must give ------------------------------------------------

  /** The checksum of one group. */
  ghost function GroupSum(l: Launch, g: Group): Sum {
    if l.ViewOf(g).Valid(l.a) then ViewSum(l.a, l.ViewOf(g), l.iterations, l.streams) else Zero
  }

  ghost function GroupSums(l: Launch): Group -> Sum {
    g => GroupSum(l, g)
  }

  /** One lane of one group. */
  ghost function LaneSum(l: Launch, g: Group, lane: nat): Sum {
    if l.ViewOf(g).Valid(l.a) then ColumnSums(AddedBy(l.a, l.ViewOf(g), l.iterations), l.streams)(lane) else Zero
  }

  ghost function Deposit(l: Launch, groups: seq<Group>, g: nat, lane: nat): Sum {
    if g < |groups| then LaneSum(l, groups[g], lane) else Zero
  }

  ghost function Deposits(l: Launch, groups: seq<Group>): (nat, nat) -> Sum {
    (g, lane) => Deposit(l, groups, g, lane)
  }

  lemma LanesOfGroup(l: Launch, groups: seq<Group>, g: nat)
    requires g < |groups| && l.Holds(groups)
    ensures RowSums(Deposits(l, groups), l.lanes)(g) == GroupSum(l, groups[g])
  {
    hide View.Valid, AddedBy, Xor, Big;
    var v := l.ViewOf(groups[g]);
    var f := AddedBy(l.a, v, l.iterations);
    BigTranspose(f, l.streams, l.lanes);
    var row := Row(Deposits(l, groups), g);
    forall lane: nat | lane < l.lanes ensures row(lane) == ColumnSums(f, l.streams)(lane) {
    }
    BigExt(row, ColumnSums(f, l.streams), l.lanes);
  }

  lemma {:induction false} GroupsInTurn(l: Launch, groups: seq<Group>, n: nat)
    requires l.Holds(groups) && n <= |groups|
    ensures Big(RowSums(Deposits(l, groups), l.lanes), n) == SumOver(GroupSums(l), groups[..n])
  {
    hide Xor, RowSums, Deposits, GroupSum;
    if n > 0 {
      GroupsInTurn(l, groups, n - 1);
      LanesOfGroup(l, groups, n - 1);
      assert groups[..n][..n - 1] == groups[..n - 1];
    }
  }

  // ---- what a launch gives ----------------------------------------------------

  ghost function ItemSums(l: Launch, groups: seq<Group>): nat -> Sum
    requires 0 < l.lanes
  {
    Items(Deposits(l, groups), l.global / l.lanes, l.lanes, |groups|)
  }

  /** What a work-item holds at the end of its sweeps. */
  ghost function ItemTotal(l: Launch, groups: seq<Group>, gid: nat): Sum
    requires 0 < l.lanes
  {
    var x := ItemSums(l, groups)(gid);
    if l.repeats % 2 == 1 then x else Zero
  }

  ghost function Entry(l: Launch, groups: seq<Group>, w: nat, lid: nat): Sum
    requires 0 < l.lanes
  {
    ItemTotal(l, groups, w * l.local + lid)
  }

  /** What work-group `w` has in its scratch memory. */
  ghost function Scratch(l: Launch, groups: seq<Group>, w: nat): (s: seq<Sum>)
    requires 0 < l.lanes
    ensures |s| == l.local
  {
    seq(l.local, (lid: nat) => Entry(l, groups, w, lid))
  }

  /** One partial per work-group. */
  ghost function Partials(l: Launch, groups: seq<Group>): (p: seq<Sum>) {
    if l.Runs() then seq(l.global / l.local, (w: nat) => Tree(Scratch(l, groups, w))) else []
  }

  lemma ScratchSum(l: Launch, groups: seq<Group>, w: nat)
    requires l.Legal()
    ensures Tree(Scratch(l, groups, w)) == Big((lid: nat) => ItemSums(l, groups)(w * l.local + lid), l.local)
  {
    hide ItemSums, Xor, Tree, Big, Folded;
    var s := Scratch(l, groups, w);
    TreeSums(s);
    var f := (lid: nat) => ItemSums(l, groups)(w * l.local + lid);
    forall lid: nat | lid < l.local ensures s[lid] == f(lid) {
      assert s[lid] == Entry(l, groups, w, lid);
    }
    FoldedIsBig(s, f, l.local);
    assert s[..l.local] == s;
  }

  lemma Divided(l: Launch)
    requires l.Legal()
    ensures l.Runs() && 0 < l.global / l.lanes
    ensures l.global / l.local * l.local == l.global && l.global / l.lanes * l.lanes == l.global
  {
    Rebuild(l.global, l.local);
    Rebuild(l.global, l.lanes);
    PositiveFactors(l.global / l.lanes, l.lanes);
  }

  /** Folding the partials of a legal launch gives the checksum of its groups. */
  lemma LaunchFolds(l: Launch, groups: seq<Group>)
    requires l.Legal() && l.Holds(groups)
    ensures Folded(Partials(l, groups)) == SumOver(GroupSums(l), groups)
  {
    hide Scratch, Tree, Big, Xor, Folded, ItemSums, Launch.Legal, Launch.Holds, Deposits;
    Divided(l);
    var p, n := Partials(l, groups), l.global / l.local;
    var sums := (w: nat) => Big((lid: nat) => ItemSums(l, groups)(w * l.local + lid), l.local);
    forall w: nat | w < n ensures p[w] == sums(w) {
      ScratchSum(l, groups, w);
    }
    FoldedIsBig(p, sums, n);
    assert p[..n] == p;
    BigRows(ItemSums(l, groups), n, l.local);
    ItemsTogether(l, groups);
  }

  lemma ItemsTogether(l: Launch, groups: seq<Group>)
    requires l.Legal() && l.Holds(groups)
    ensures Big(ItemSums(l, groups), l.global) == SumOver(GroupSums(l), groups)
  {
    hide Big, Xor, Launch.Legal, Launch.Holds, GroupSum;
    Divided(l);
    ItemsCover(Deposits(l, groups), l.global / l.lanes, l.lanes, |groups|);
    GroupsInTurn(l, groups, |groups|);
    assert groups[..|groups|] == groups;
  }

  lemma SliceHolds(l: Launch, groups: seq<seq<Word>>, n: nat, i: nat)
    requires l.Holds(groups) && i < n
    ensures l.Holds(Slice(groups, n, i))
  {
    hide View.Valid;
    Bounds(|groups|, n, i);
    var s, first := Slice(groups, n, i), First(|groups|, n, i);
    forall k | 0 <= k < |s| ensures l.ViewOf(s[k]).Valid(l.a) {
      assert s[k] == groups[first..][k] == groups[first + k];
    }
  }

  // ---- the launch as it runs --------------------------------------------------

  /** One block of one stream, as the device computes it. */
  method StepStream(a: Algorithm, x: Code, v: View, slot: nat, b: nat, fb: seq<Word>, h: seq<Word>, lane: nat)
    returns (r: seq<Word>)
    requires x.Computes(a) && v.Valid(a) && slot < v.slots && b < v.blocks && lane < v.lanes
    requires |fb| == |h| == a.digestWords
    ensures r == CompressedLane(a, v, slot, b, fb, h, lane)
  {
    hide Code.Computes, Shaped, LoadBlock, BlockOf, Algorithm.Valid, Algorithm.Laid;
    r := DeviceStep(x, a, h, fb, LoadBlock(v.words, v.slots, v.blocks, v.lanes, slot, b, lane), b);
  }

  /** The feedback of every stream is ready for hash `it`. */
  ghost predicate Held(a: Algorithm, v: View, lane: nat, fb: seq<seq<Word>>, it: nat) {
    && v.Valid(a) && lane < v.lanes && |fb| == v.slots
    && forall k :: 0 <= k < |fb| ==> fb[k] == Feedback(a, v, k, lane, it)
  }

  /** The first `k` streams are one block further than `b`. */
  ghost predicate Chained(a: Algorithm, v: View, lane: nat, h: seq<seq<Word>>, it: nat, b: nat, k: nat) {
    && v.Valid(a) && lane < v.lanes && |h| == v.slots && b <= v.blocks && k <= |h| && (0 < k ==> b < v.blocks)
    && forall i :: 0 <= i < |h| ==> h[i] == Chaining(a, v, i, lane, it, if i < k then b + 1 else b)
  }

  /** One block of every stream. */
  method StepStreams(a: Algorithm, x: Code, v: View, lane: nat, ghost it: nat, b: nat,
                     fb: array<seq<Word>>, h: array<seq<Word>>)
    requires x.Computes(a) && fb != h && b < v.blocks
    requires Held(a, v, lane, fb[..], it) && Chained(a, v, lane, h[..], it, b, 0)
    modifies h
    ensures Chained(a, v, lane, h[..], it, b + 1, 0)
  {
    hide Code.Computes, Feedback, Chaining, CompressedLane, View.Valid;
    for k := 0 to h.Length
      invariant Chained(a, v, lane, h[..], it, b, k)
    {
      ChainingSteps(a, v, k, lane, it, b);
      var next := StepStream(a, x, v, k, b, fb[k], h[k], lane);
      h[k] := next;
    }
  }

  /** One hash of every stream's message, the digests fed back. */
  method HashStreams(a: Algorithm, x: Code, v: View, lane: nat, ghost it: nat, fb: array<seq<Word>>,
                     h: array<seq<Word>>)
    requires x.Computes(a) && fb != h && fb.Length == h.Length && Held(a, v, lane, fb[..], it)
    modifies fb, h
    ensures Held(a, v, lane, fb[..], it + 1) && h[..] == fb[..]
  {
    hide Code.Computes, Feedback, Chaining, View.Valid;
    for k := 0 to h.Length
      invariant Held(a, v, lane, fb[..], it)
      invariant forall i :: 0 <= i < k ==> h[i] == Chaining(a, v, i, lane, it, 0)
    {
      ChainingEnds(a, v, k, lane, it);
      h[k] := a.iv;
    }
    for b := 0 to v.blocks
      invariant Held(a, v, lane, fb[..], it)
      invariant Chained(a, v, lane, h[..], it, b, 0)
    {
      StepStreams(a, x, v, lane, it, b, fb, h);
    }
    for k := 0 to h.Length
      invariant Chained(a, v, lane, h[..], it, v.blocks, 0)
      invariant forall i :: 0 <= i < k ==> fb[i] == h[i] == Feedback(a, v, i, lane, it + 1)
    {
      ChainingEnds(a, v, k, lane, it);
      fb[k] := h[k];
    }
  }

  /** The head of a stream's message, from the corpus. */
  method LoadFeedback(a: Algorithm, v: View, k: nat, lane: nat) returns (fb: seq<Word>)
    requires v.Valid(a) && k < v.slots && lane < v.lanes
    ensures fb == Feedback(a, v, k, lane, 0)
  {
    Enough(a, v);
    LoadIsPart(v.words, v.slots, v.blocks, v.lanes, k, 0, lane);
    hide Shaped, Cell, LoadBlock;
    fb := LoadBlock(v.words, v.slots, v.blocks, v.lanes, k, 0, lane)[..a.digestWords];
  }

  /** One lane of one group: its streams side by side, the digests in registers
      from hash to hash. */
  method HashLane(a: Algorithm, x: Code, v: View, lane: nat, n: nat) returns (r: seq<seq<Word>>)
    requires x.Computes(a) && v.Valid(a) && lane < v.lanes && 0 < n
    ensures Held(a, v, lane, r, n)
  {
    hide Code.Computes, Feedback, View.Valid;
    var fb := new seq<Word>[v.slots];
    var h := new seq<Word>[v.slots];
    for k := 0 to v.slots
      invariant forall i :: 0 <= i < k ==> fb[i] == Feedback(a, v, i, lane, 0)
    {
      var head := LoadFeedback(a, v, k, lane);
      fb[k] := head;
    }
    for it := 0 to n
      invariant Held(a, v, lane, fb[..], it)
      invariant 0 < it ==> h[..] == fb[..]
    {
      HashStreams(a, x, v, lane, it, fb, h);
    }
    r := h[..];
  }

  lemma StreamAdds(a: Algorithm, v: View, k: nat, lane: nat, n: nat)
    requires v.Valid(a) && k < v.slots && lane < v.lanes && 0 < n
    ensures Slots(Feedback(a, v, k, lane, n)) == Column(AddedBy(a, v, n), lane)(k)
  {
    hide ChainDigest, Shaped, Cell, Slots, Algorithm.Valid, Algorithm.Laid;
    Enough(a, v);
  }

  /** One group's lane: every stream's digest into the accumulator. */
  method AddLane(l: Launch, x: Code, g: Group, lane: nat, acc: Sum) returns (r: Sum)
    requires x.Computes(l.a) && l.Runs() && l.ViewOf(g).Valid(l.a) && lane < l.lanes
    ensures r == Xor(acc, LaneSum(l, g, lane))
  {
    hide Code.Computes, View.Valid, Xor, Slots, Feedback, AddedBy, Column, Algorithm.Valid, Algorithm.Laid;
    var v := l.ViewOf(g);
    ghost var f := Column(AddedBy(l.a, v, l.iterations), lane);
    var h := HashLane(l.a, x, v, lane, l.iterations);
    r := acc;
    XorZero(acc);
    for k := 0 to l.streams
      invariant r == Xor(acc, Big(f, k))
    {
      StreamAdds(l.a, v, k, lane, l.iterations);
      XorAssoc(acc, Big(f, k), f(k));
      r := Xor(r, Slots(h[k]));
    }
  }

  /** From group `q` on, every `stride`-th group's lane. */
  method Stride(l: Launch, x: Code, groups: seq<Group>, stride: nat, q: nat, lane: nat, acc: Sum)
    returns (r: Sum)
    requires x.Computes(l.a) && l.Runs() && l.Holds(groups) && 0 < stride && lane < l.lanes
    ensures r == Xor(acc, Sweep(Deposits(l, groups), stride, |groups|, q, lane))
  {
    ghost var d, i := Deposits(l, groups), 0;
    hide Code.Computes, View.Valid, Xor, Big, Visits, Algorithm.Valid, Algorithm.Laid, Launch.Runs, LaneSum, Sweep;
    NoVisits(d, stride, q, lane);
    XorZero(acc);
    r := acc;
    var g := q;
    while g < |groups|
      invariant g == i * stride + q && i <= |groups|
      invariant r == Xor(acc, Big(Visits(d, stride, q, lane), i))
      decreases |groups| + stride - g
    {
      StrideOn(stride, i, q, |groups|);
      NextVisit(d, stride, q, lane, i);
      XorAssoc(acc, Big(Visits(d, stride, q, lane), i), d(g, lane));
      r := AddLane(l, x, groups[g], lane, r);
      i := i + 1;
      g := g + stride;
    }
    SweepStops(d, stride, |groups|, q, lane, i);
  }

  /** One sweep of one work-item. */
  method SweepOnce(l: Launch, x: Code, groups: seq<Group>, gid: nat, acc: Sum) returns (r: Sum)
    requires x.Computes(l.a) && l.Runs() && l.Holds(groups)
    ensures r == Xor(acc, ItemSums(l, groups)(gid))
  {
    hide Code.Computes, View.Valid, Xor, Launch.Runs, Launch.Holds, Deposits, Sweep;
    PositiveStride(l);
    LaneBelow(gid, l.lanes);
    r := Stride(l, x, groups, l.global / l.lanes, gid / l.lanes, gid % l.lanes, acc);
  }

  lemma LaneBelow(gid: nat, lanes: nat)
    requires 0 < lanes
    ensures gid % lanes < lanes
  {
  }

  lemma NoVisits(d: (nat, nat) -> Sum, stride: nat, q: nat, lane: nat)
    ensures Big(Visits(d, stride, q, lane), 0) == Zero
  {
  }

  lemma NextVisit(d: (nat, nat) -> Sum, stride: nat, q: nat, lane: nat, i: nat)
    ensures Big(Visits(d, stride, q, lane), i + 1) == Xor(Big(Visits(d, stride, q, lane), i), d(i * stride + q, lane))
  {
    hide Xor;
  }

  lemma PositiveStride(l: Launch)
    requires l.Runs()
    ensures 0 < l.global / l.lanes && l.a.Valid() && 0 < l.lanes
  {
    Rebuild(l.global, l.lanes);
    PositiveFactors(l.global / l.lanes, l.lanes);
  }

  lemma StrideOn(stride: nat, i: nat, q: nat, n: nat)
    requires 0 < stride && i * stride + q < n
    ensures i < n && (i + 1) * stride + q == i * stride + q + stride
  {
    assert i <= i * stride;
  }

  /** All the sweeps of one work-item. */
  method RunItem(l: Launch, x: Code, groups: seq<Group>, gid: nat) returns (acc: Sum)
    requires x.Computes(l.a) && l.Runs() && l.Holds(groups)
    ensures acc == ItemTotal(l, groups, gid)
  {
    hide Code.Computes, View.Valid, Launch.Runs, ItemSums, Xor;
    PositiveStride(l);
    ghost var once := ItemSums(l, groups)(gid);
    acc := Zero;
    for rep := 0 to l.repeats
      invariant acc == Big((i: nat) => once, rep)
    {
      acc := SweepOnce(l, x, groups, gid, acc);
    }
    Repeats(once, l.repeats);
  }

  /** A work-group: its items' sums into scratch, then the tree. */
  method RunGroup(l: Launch, x: Code, groups: seq<Group>, w: nat) returns (partial: Sum)
    requires x.Computes(l.a) && l.Runs() && l.Holds(groups)
    ensures partial == Tree(Scratch(l, groups, w))
  {
    hide Code.Computes, View.Valid, ItemTotal, Xor, Tree, Launch.Holds;
    var scratch := new Sum[l.local](_ => Zero);
    for lid := 0 to l.local
      invariant forall i: nat :: i < lid ==> scratch[i] == Entry(l, groups, w, i)
    {
      scratch[lid] := RunItem(l, x, groups, w * l.local + lid);
    }
    assert scratch[..] == Scratch(l, groups, w);
    Reduce(scratch);
    partial := scratch[0];
  }

  /** The whole launch: one partial per work-group. */
  method Run(l: Launch, x: Code, groups: seq<Group>) returns (p: seq<Sum>)
    requires x.Computes(l.a) && l.Runs() && l.Holds(groups)
    ensures p == Partials(l, groups)
    ensures l.Legal() ==> Folded(p) == SumOver(GroupSums(l), groups)
  {
    hide Code.Computes, Scratch, Tree, Launch.Holds, Launch.Legal;
    p := [];
    for w := 0 to l.global / l.local
      invariant |p| == w && forall i: nat :: i < w ==> p[i] == Tree(Scratch(l, groups, i))
    {
      var partial := RunGroup(l, x, groups, w);
      p := p + [partial];
    }
    assert p == Partials(l, groups);
    if l.Legal() {
      LaunchFolds(l, groups);
    }
  }
}
