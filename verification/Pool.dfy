/**
 What a pool run means: how the corpus is cut over workers, what each worker
 checks on each repetition, and what the driver's verdict says about them all.
 A kernel may return anything on any call.
 */
module Pool {
  import opened Arithmetic
  import opened Checksums
  import opened Slices
  import opened Algorithms
  import opened Workload

  // ---- cutting the corpus -----------------------------------------------------

  /** groups, first corpus slot, and the range its reference covers. */
  datatype Share = Share(groups: nat, slot: nat, refStart: nat, refCount: nat)

  /** The threads a pool really has: never one without a group, never none. */
  function Threads(asked: nat, groups: nat): (n: nat)
    ensures 0 < n && (n <= groups || n == 1)
    ensures 0 < asked <= groups ==> n == asked
    ensures 0 < groups < asked ==> n == groups
  {
    var t := if asked > groups then groups else asked;
    if t < 1 then 1 else t
  }

  function ShareOf(start: nat, groups: nat, threads: nat, lanes: nat, streams: nat, i: nat): Share
    requires 0 < threads
  {
    var first := First(groups, threads, i);
    Share(Count(groups, threads, i), first * streams, (start + first * (lanes * streams)) % INDICES,
          Count(groups, threads, i) * (lanes * streams))
  }

  /** pool_create: slice the batch over the threads. */
  method Cut(start: nat, messages: nat, asked: nat, lanes: nat, streams: nat) returns (shares: seq<Share>)
    requires 0 < lanes && 0 < streams
    ensures 0 < lanes * streams
    ensures |shares| == Threads(asked, messages / (lanes * streams))
    ensures forall i :: 0 <= i < |shares| ==>
      shares[i] == ShareOf(start, messages / (lanes * streams), |shares|, lanes, streams, i)
    ensures 0 < messages / (lanes * streams) ==> forall i :: 0 <= i < |shares| ==> 0 < shares[i].groups
  {
    var group := lanes * streams;
    assert 0 < group;
    var total := messages / group;
    var threads := Threads(asked, total);
    var base, extra, off := total / threads, total % threads, 0;
    shares := [];
    Adjacent(total, threads, 0);
    for i := 0 to threads
      invariant off == First(total, threads, i)
      invariant |shares| == i
      invariant forall j :: 0 <= j < i ==> shares[j] == ShareOf(start, total, threads, lanes, streams, j)
      invariant 0 < total ==> forall j :: 0 <= j < i ==> 0 < shares[j].groups
    {
      Adjacent(total, threads, i);
      Bounds(total, threads, i);
      var firstMessage := off * group;
      SlotOf(off, lanes, streams);
      var n := base + if i < extra then 1 else 0;
      shares := shares + [Share(n, firstMessage / lanes, (start + firstMessage) % INDICES, n * group)];
      off := off + n;
    }
  }

  lemma SlotOf(off: nat, lanes: nat, streams: nat)
    requires 0 < lanes
    ensures off * (lanes * streams) / lanes == off * streams
  {
    assert off * (lanes * streams) == off * streams * lanes;
    Quotient(lanes, off * streams, 0);
  }

  /** The reference of one share. */
  function Reference(a: Algorithm, s: Share, bytes: nat, n: nat): Sum
    requires a.Valid()
  {
    RangeSum(a, s.refStart, s.refCount, bytes, n)
  }

  function References(a: Algorithm, start: nat, groups: nat, threads: nat, lanes: nat, streams: nat, bytes: nat,
                      n: nat): nat -> Sum
    requires a.Valid() && 0 < threads
  {
    i => Reference(a, ShareOf(start, groups, threads, lanes, streams, i), bytes, n)
  }

  lemma ShareJoins(a: Algorithm, start: nat, groups: nat, threads: nat, lanes: nat, streams: nat, bytes: nat, n: nat,
                   i: nat)
    requires a.Valid() && 0 < threads
    ensures RangeSum(a, start, First(groups, threads, i + 1) * (lanes * streams), bytes, n)
      == Xor(RangeSum(a, start, First(groups, threads, i) * (lanes * streams), bytes, n),
             References(a, start, groups, threads, lanes, streams, bytes, n)(i))
  {
    hide RangeSum, Xor, First, Count, Algorithm.Valid, Algorithm.Laid;
    var g, first, count := lanes * streams, First(groups, threads, i), Count(groups, threads, i);
    Adjacent(groups, threads, i);
    assert (first + count) * g == first * g + count * g;
    RangeSplit(a, start, first * g, count * g, bytes, n);
  }

  /** The shares' references add up to the reference of the whole groups. */
  lemma {:induction false} SharesCover(a: Algorithm, start: nat, groups: nat, threads: nat, lanes: nat, streams: nat,
                                       bytes: nat, n: nat, k: nat)
    requires a.Valid() && 0 < threads
    ensures Big(References(a, start, groups, threads, lanes, streams, bytes, n), k)
      == RangeSum(a, start, First(groups, threads, k) * (lanes * streams), bytes, n)
  {
    hide Term, Xor, References, Algorithm.Valid, Algorithm.Laid;
    if k == 0 {
      Adjacent(groups, threads, 0);
    } else {
      hide RangeSum, First;
      SharesCover(a, start, groups, threads, lanes, streams, bytes, n, k - 1);
      ShareJoins(a, start, groups, threads, lanes, streams, bytes, n, k - 1);
    }
  }

  // ---- one worker -------------------------------------------------------------

  /** Every call gave the value to compare against: the slice's reference, or,
      when only the whole corpus has one, whatever the first call gave. */
  predicate Agrees(supplied: bool, expected: Sum, outputs: seq<Sum>) {
    forall r :: 0 <= r < |outputs| ==> outputs[r] == if supplied then outputs[0] else expected
  }

  class Worker {
    var expected: Sum
    var checksum: Sum
    var ok: bool

    constructor (expected: Sum)
      ensures this.expected == expected
    {
      this.expected, checksum, ok := expected, Zero, false;
    }

    /** run_slice, with what the kernel returns on each call. */
    method RunSlice(supplied: bool, outputs: seq<Sum>)
      modifies this`checksum, this`ok
      ensures ok == Agrees(supplied, expected, outputs)
      ensures !supplied ==> (ok <==> forall r :: 0 <= r < |outputs| ==> outputs[r] == expected)
      ensures supplied ==>
        (ok <==> forall r, q :: 0 <= r < |outputs| && 0 <= q < |outputs| ==> outputs[r] == outputs[q])
      ensures checksum == if supplied && outputs != [] then outputs[0] else old(checksum)
    {
      var good, r := true, 0;
      while r < |outputs| && good
        invariant r <= |outputs|
        invariant good == Agrees(supplied, expected, outputs[..r])
        invariant checksum == if supplied && 0 < r then outputs[0] else old(checksum)
      {
        var cs := outputs[r];
        if supplied {
          if r == 0 {
            checksum := cs;
          } else if cs != checksum {
            good := false;
          }
        } else if cs != expected {
          good := false;
        }
        assert outputs[..r + 1] == outputs[..r] + [cs];
        r := r + 1;
      }
      assert outputs[..|outputs|] == outputs;
      assert outputs[..r] == [] || outputs[..r][0] == outputs[0];
      ok := good;
    }
  }

  // ---- the driver's verdict ---------------------------------------------------

  /** Every worker made `reps` calls. */
  ghost predicate Called(outputs: seq<seq<Sum>>, reps: nat) {
    forall i :: 0 <= i < |outputs| ==> |outputs[i]| == reps
  }

  /** What the workers' kernels gave on repetition `r`, together. */
  ghost function RepSum(outputs: seq<seq<Sum>>, reps: nat, r: nat): Sum
    requires Called(outputs, reps) && r < reps
  {
    Folded(seq(|outputs|, i requires 0 <= i < |outputs| => outputs[i][r]))
  }

  ghost predicate AllAgree(supplied: bool, expected: seq<Sum>, outputs: seq<seq<Sum>>)
    requires |outputs| == |expected|
  {
    forall i :: 0 <= i < |outputs| ==> Agrees(supplied, expected[i], outputs[i])
  }

  /** Every repetition, all the workers together, gave `whole`. */
  ghost predicate EveryRep(reps: nat, whole: Sum, outputs: seq<seq<Sum>>)
    requires Called(outputs, reps)
  {
    forall r: nat :: r < reps ==> RepSum(outputs, reps, r) == whole
  }

  /** With per-slice references the aggregate is their sum on every repetition. */
  lemma SliceGate(reps: nat, expected: seq<Sum>, outputs: seq<seq<Sum>>)
    requires |outputs| == |expected| && Called(outputs, reps) && AllAgree(false, expected, outputs)
    ensures EveryRep(reps, Folded(expected), outputs)
  {
    forall r: nat | r < reps ensures RepSum(outputs, reps, r) == Folded(expected) {
      var row := seq(|outputs|, i requires 0 <= i < |outputs| => outputs[i][r]);
      forall i | 0 <= i < |outputs| ensures row[i] == expected[i] {
        assert Agrees(false, expected[i], outputs[i]);
      }
      assert row == expected;
    }
  }

  /** With only a whole-corpus reference, the first repetition's aggregate
      speaks for all of them. */
  lemma WholeGate(reps: nat, expected: seq<Sum>, outputs: seq<seq<Sum>>, r: nat)
    requires |outputs| == |expected| && Called(outputs, reps) && AllAgree(true, expected, outputs) && r < reps
    ensures RepSum(outputs, reps, r) == RepSum(outputs, reps, 0)
  {
    var row, first := seq(|outputs|, i requires 0 <= i < |outputs| => outputs[i][r]),
                      seq(|outputs|, i requires 0 <= i < |outputs| => outputs[i][0]);
    forall i | 0 <= i < |outputs| ensures row[i] == first[i] {
      assert Agrees(true, expected[i], outputs[i]);
    }
    assert row == first;
  }

  ghost predicate Crew(w: seq<Worker>, expected: seq<Sum>)
    reads w
  {
    && |w| == |expected|
    && (forall i, j :: 0 <= i < j < |w| ==> w[i] != w[j])
    && (forall i :: 0 <= i < |w| ==> w[i].expected == expected[i])
  }

  /** The XOR of the workers' recorded checksums. */
  method Aggregate(w: seq<Worker>, ghost sums: seq<Sum>) returns (agg: Sum)
    requires |w| == |sums| && forall i :: 0 <= i < |w| ==> w[i].checksum == sums[i]
    ensures agg == Folded(sums)
  {
    hide Xor;
    agg := Zero;
    for i := 0 to |w|
      invariant agg == Folded(sums[..i])
    {
      assert sums[..i + 1][..i] == sums[..i];
      agg := Xor(agg, w[i].checksum);
    }
    assert sums[..|w|] == sums;
  }

  /** Let every worker run its slice. */
  method RunAll(w: seq<Worker>, ghost expected: seq<Sum>, supplied: bool, ghost reps: nat, outputs: seq<seq<Sum>>)
    requires Crew(w, expected) && |outputs| == |w| && Called(outputs, reps)
    modifies w
    ensures Crew(w, expected)
    ensures forall i :: 0 <= i < |w| ==> w[i].ok == Agrees(supplied, expected[i], outputs[i])
    ensures supplied && 0 < reps ==> forall i :: 0 <= i < |w| ==> w[i].checksum == outputs[i][0]
  {
    for i := 0 to |w|
      invariant Crew(w, expected)
      invariant forall j :: 0 <= j < i ==> w[j].ok == Agrees(supplied, expected[j], outputs[j])
      invariant supplied && 0 < reps ==> forall j :: 0 <= j < i ==> w[j].checksum == outputs[j][0]
    {
      w[i].RunSlice(supplied, outputs[i]);
    }
  }

  /** What the driver makes of the workers' records: all content and, with a
      reference for the whole corpus, their checksums together giving it. */
  ghost predicate Passes(oks: seq<bool>, sums: seq<Sum>, supplied: bool, whole: Sum, reps: nat) {
    && (forall i :: 0 <= i < |oks| ==> oks[i])
    && (supplied && 0 < reps ==> Folded(sums) == whole)
  }

  /** The end of pool_run. */
  method Judge(w: seq<Worker>, ghost oks: seq<bool>, ghost sums: seq<Sum>, supplied: bool, whole: Sum, reps: nat)
    returns (ok: bool)
    requires |w| == |oks| == |sums|
    requires forall i :: 0 <= i < |w| ==> w[i].ok == oks[i] && w[i].checksum == sums[i]
    ensures ok == Passes(oks, sums, supplied, whole, reps)
  {
    hide Folded;
    ok := true;
    for i := 0 to |w|
      invariant ok == forall j :: 0 <= j < i ==> oks[j]
    {
      if !w[i].ok {
        ok := false;
      }
    }
    if ok && supplied && reps > 0 {
      var agg := Aggregate(w, sums);
      if agg != whole {
        ok := false;
      }
    }
  }

  /** What the records are of: every worker's own verdict on its calls, and the
      first call's value if there is nothing to compare it with. */
  ghost predicate Records(oks: seq<bool>, sums: seq<Sum>, supplied: bool, expected: seq<Sum>, reps: nat,
                          outputs: seq<seq<Sum>>) {
    && |oks| == |sums| == |expected| == |outputs| && Called(outputs, reps)
    && (forall i :: 0 <= i < |oks| ==> oks[i] == Agrees(supplied, expected[i], outputs[i]))
    && (supplied && 0 < reps ==> forall i :: 0 <= i < |sums| ==> sums[i] == outputs[i][0])
  }

  /** Each worker gave what it is to give on every repetition. */
  ghost predicate Exact(expected: seq<Sum>, reps: nat, outputs: seq<seq<Sum>>)
    requires |outputs| == |expected| && Called(outputs, reps)
  {
    forall i, r :: 0 <= i < |outputs| && 0 <= r < reps ==> outputs[i][r] == expected[i]
  }

  /** Each worker gave the same on every repetition. */
  ghost predicate Steady(reps: nat, outputs: seq<seq<Sum>>)
    requires Called(outputs, reps)
  {
    forall i, r, q :: 0 <= i < |outputs| && 0 <= r < reps && 0 <= q < reps ==> outputs[i][r] == outputs[i][q]
  }

  /** What "ok" is to mean. With a reference for the whole corpus the workers'
      own, which are never filled in then, play no part. */
  ghost predicate Right(supplied: bool, expected: seq<Sum>, whole: Sum, reps: nat, outputs: seq<seq<Sum>>)
    requires |outputs| == |expected| && Called(outputs, reps)
  {
    if supplied then Steady(reps, outputs) && (0 < reps ==> RepSum(outputs, reps, 0) == whole)
    else Exact(expected, reps, outputs)
  }

  lemma AgreeingIsExact(expected: seq<Sum>, reps: nat, outputs: seq<seq<Sum>>)
    requires |outputs| == |expected| && Called(outputs, reps)
    ensures AllAgree(false, expected, outputs) <==> Exact(expected, reps, outputs)
  {
    if AllAgree(false, expected, outputs) {
      forall i, r | 0 <= i < |outputs| && 0 <= r < reps ensures outputs[i][r] == expected[i] {
        assert Agrees(false, expected[i], outputs[i]);
      }
    }
  }

  lemma AgreeingIsSteady(expected: seq<Sum>, reps: nat, outputs: seq<seq<Sum>>)
    requires |outputs| == |expected| && Called(outputs, reps)
    ensures AllAgree(true, expected, outputs) <==> Steady(reps, outputs)
  {
    if AllAgree(true, expected, outputs) {
      forall i, r, q | 0 <= i < |outputs| && 0 <= r < reps && 0 <= q < reps ensures outputs[i][r] == outputs[i][q] {
        assert Agrees(true, expected[i], outputs[i]);
      }
    }
  }

  /** Records pass exactly if what the workers gave is right; then on every
      repetition all the calls together gave the reference. */
  lemma PassesIsRight(oks: seq<bool>, sums: seq<Sum>, supplied: bool, expected: seq<Sum>, whole: Sum, reps: nat,
                      outputs: seq<seq<Sum>>)
    requires Records(oks, sums, supplied, expected, reps, outputs)
    ensures Passes(oks, sums, supplied, whole, reps) <==> Right(supplied, expected, whole, reps, outputs)
    ensures Right(supplied, expected, whole, reps, outputs)
      ==> EveryRep(reps, if supplied then whole else Folded(expected), outputs)
  {
    hide Agrees, Folded, Steady, Exact;
    AgreeingIsExact(expected, reps, outputs);
    AgreeingIsSteady(expected, reps, outputs);
    if supplied && 0 < reps {
      assert sums == seq(|outputs|, i requires 0 <= i < |outputs| => outputs[i][0]);
    }
    if Right(supplied, expected, whole, reps, outputs) {
      if supplied {
        forall r: nat | r < reps ensures RepSum(outputs, reps, r) == whole {
          WholeGate(reps, expected, outputs, r);
        }
      } else {
        SliceGate(reps, expected, outputs);
      }
    }
  }

  /** pool_run: "ok" exactly if what the kernel calls gave is right, whatever each
      call may have done; then on every repetition all of them together gave the
      reference. */
  method PoolRun(w: seq<Worker>, ghost expected: seq<Sum>, supplied: bool, whole: Sum, reps: nat,
                 outputs: seq<seq<Sum>>)
    returns (ok: bool)
    requires Crew(w, expected) && |outputs| == |w| && Called(outputs, reps)
    modifies w
    ensures ok == Right(supplied, expected, whole, reps, outputs)
    ensures ok ==> EveryRep(reps, if supplied then whole else Folded(expected), outputs)
  {
    hide Agrees, Folded, Passes, EveryRep, RepSum, AllAgree, Right;
    RunAll(w, expected, supplied, reps, outputs);
    ghost var oks := seq(|w|, i requires 0 <= i < |w| reads w => w[i].ok);
    ghost var sums := seq(|w|, i requires 0 <= i < |w| reads w => w[i].checksum);
    PassesIsRight(oks, sums, supplied, expected, whole, reps, outputs);
    ok := Judge(w, oks, sums, supplied, whole, reps);
  }

  /** Every worker's own reference is that of its share. */
  ghost predicate Own(a: Algorithm, start: nat, groups: nat, lanes: nat, streams: nat, bytes: nat, n: nat,
                      expected: seq<Sum>)
    requires a.Valid()
  {
    forall i :: 0 <= i < |expected| ==>
      expected[i] == Reference(a, ShareOf(start, groups, |expected|, lanes, streams, i), bytes, n)
  }

  /** The workers' own references fold to the reference of the whole corpus, so
      an "ok" without a supplied value says the same as one with it. */
  lemma ReferencesFold(a: Algorithm, start: nat, groups: nat, lanes: nat, streams: nat, bytes: nat, n: nat,
                       expected: seq<Sum>)
    requires a.Valid() && 0 < |expected| && Own(a, start, groups, lanes, streams, bytes, n, expected)
    ensures Folded(expected) == RangeSum(a, start, groups * (lanes * streams), bytes, n)
  {
    hide Reference, RangeSum, Folded, ShareOf;
    var t := |expected|;
    FoldedIsBig(expected, References(a, start, groups, t, lanes, streams, bytes, n), t);
    assert expected[..t] == expected;
    SharesCover(a, start, groups, t, lanes, streams, bytes, n, t);
    Adjacent(groups, t, 0);
  }

  // ---- how many repetitions ---------------------------------------------------

  const MOST_REPS: nat := 0x100_0000_0000

  /** At the rate of r repetitions in ns, n of them take no longer than `room`. */
  predicate HasRoom(n: real, r: nat, ns: nat, room: real) {
    n * ns as real <= room * r as real
  }

  /** How a run of r repetitions that took ns grows towards the floor: at least
      double, at most 64-fold, and otherwise to what the floor has room for. */
  predicate Grows(r: nat, ns: nat, floor: real, next: nat) {
    && 2 * r <= next <= 64 * r
    && (ns == 0 ==> next == 4 * r)
    && (ns > 0 ==> next == 2 * r || HasRoom(next as real, r, ns, floor))
    && (ns > 0 ==> next == 64 * r || !HasRoom(next as real + 1.0, r, ns, floor))
  }

  /** As many repetitions as the target has room for if r of them take ns, but at
      least one. */
  predicate Scales(r: nat, ns: nat, target: real, reps: nat) {
    && reps >= 1
    && (reps == 1 || (ns > 0 && HasRoom(reps as real, r, ns, target)))
    && (ns == 0 || !HasRoom(reps as real + 1.0, r, ns, target))
  }

  lemma Times(x: real, y: real, z: real)
    requires 0.0 < z
    ensures x <= y ==> x * z <= y * z
    ensures x < y ==> x * z < y * z
  {
  }

  /** The source's quotient and product of the search, in reals. */
  function Per(x: real, ns: nat): real
    requires 0 < ns
  {
    x / ns as real
  }

  function Product(r: nat, x: real): real {
    r as real * x
  }

  lemma ProductOrder(r: nat, x: real, y: real)
    requires 0 < r
    ensures x <= y ==> Product(r, x) <= Product(r, y)
    ensures x < y ==> Product(r, x) < Product(r, y)
    ensures Product(r, 2.0) == (2 * r) as real && Product(r, 64.0) == (64 * r) as real
    ensures Product(r, 4.0) == (4 * r) as real
  {
    Times(x, y, r as real);
  }

  /** What fits is at most the quotient. */
  lemma RoomIff(n: real, r: nat, ns: nat, room: real)
    requires 0 < ns
    ensures HasRoom(n, r, ns, room) <==> n <= Product(r, Per(room, ns))
  {
    var x, z, g := r as real, ns as real, room / ns as real;
    assert g * z == room;
    assert x * g * z == room * x;
    Times(n, x * g, z);
    Times(x * g, n, z);
  }

  lemma FloorIs(q: real)
    ensures q.Floor as real <= q < q.Floor as real + 1.0
  {
  }

  method Scaled(r: nat, ns: nat, target: real) returns (reps: nat)
    requires r > 0
    ensures 1 <= reps && Scales(r, ns, target, reps)
  {
    hide HasRoom, Per, Product;
    var want := if ns == 0 then 1.0 else Product(r, Per(target, ns));
    reps := if want < 1.0 then 1 else want.Floor;
    if ns > 0 {
      FloorIs(want);
      RoomIff(reps as real, r, ns, target);
      RoomIff(reps as real + 1.0, r, ns, target);
    }
  }

  method Grown(r: nat, ns: nat, floor: real) returns (next: nat)
    requires r > 0
    ensures 2 * r <= next && Grows(r, ns, floor, next)
  {
    hide HasRoom, Per, Product;
    var grow := if ns == 0 then 4.0 else Per(floor, ns);
    ghost var asked := grow;
    if grow < 2.0 {
      grow := 2.0;
    }
    if grow > 64.0 {
      grow := 64.0;
    }
    var times := Product(r, grow).Floor;
    next := if times > r then times else r * 2;
    ProductOrder(r, asked, 2.0);
    ProductOrder(r, 64.0, asked);
    ProductOrder(r, 2.0, grow);
    ProductOrder(r, grow, 64.0);
    FloorIs(Product(r, grow));
    if ns > 0 {
      RoomIff(next as real, r, ns, floor);
      RoomIff(next as real + 1.0, r, ns, floor);
    }
  }

  /** What the search has asked for: one repetition, and more after every run
      that fell short of the floor. */
  ghost predicate Searched(asked: seq<nat>, time: nat -> nat, floor: real) {
    && (asked != [] ==> asked[0] == 1)
    && forall i :: 0 < i < |asked| ==> time(i) as real < floor && Grows(asked[i - 1], time(i), floor, asked[i])
  }

  /** A target in nanoseconds. */
  function Target(ms: nat): real {
    ms as real * 1000000.0
  }

  /** calibrate_reps, whatever its runs take and whichever of them fail: run 0
      warms up, run i + 1 has asked[i] repetitions. No repetitions exactly if a
      run failed. Otherwise the last run reached a quarter of the target, and is
      scaled to it, or the next would be beyond what is asked at all. `asked` is
      a log that the source does not keep. */
  method CalibrateReps(targetMs: nat, time: nat -> nat, passes: nat -> bool)
    returns (reps: nat, asked: seq<nat>)
    ensures Searched(asked, time, Target(targetMs) / 4.0)
    ensures forall i :: 0 <= i < |asked| ==> passes(i)
    ensures reps == 0 <==> !passes(|asked|)
    ensures reps > 0 ==> asked != []
    ensures reps > 0 && time(|asked|) as real >= Target(targetMs) / 4.0 ==>
      Scales(asked[|asked| - 1], time(|asked|), Target(targetMs), reps)
    ensures reps > 0 && time(|asked|) as real < Target(targetMs) / 4.0 ==>
      reps > MOST_REPS && Grows(asked[|asked| - 1], time(|asked|), Target(targetMs) / 4.0, reps)
  {
    hide Grows, Scales, HasRoom;
    var target := Target(targetMs);
    var floor := target / 4.0;
    asked := [];
    if !passes(0) {
      return 0, [];
    }
    reps := 1;
    var run := 1;
    while true
      invariant 0 < reps <= MOST_REPS && run == |asked| + 1
      invariant Searched(asked + [reps], time, floor)
      invariant forall i :: 0 <= i < run ==> passes(i)
      decreases MOST_REPS - reps
    {
      var ns := time(run);
      asked := asked + [reps];
      if !passes(run) {
        return 0, asked;
      }
      if ns as real >= floor {
        reps := Scaled(reps, ns, target);
        return;
      }
      reps := Grown(reps, ns, floor);
      if reps > MOST_REPS {
        return;
      }
      run := run + 1;
    }
  }
}
