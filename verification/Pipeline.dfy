/**
 The host side of pipelined streaming: begin, next and end over any number of
 devices with different chunk counts. Every driver call may fail, and between
 any two of its own actions the host lets the device take any steps.
 */
module Pipeline {
  import opened Arithmetic
  import opened Checksums
  import opened Slices
  import opened Protocol
  import opened Hashes
  import GpuKernel

  function ChunkSum(c: Config, value: Group -> Sum, t: nat): Sum
    requires 0 < c.chunks
  {
    SumOver(value, c.Chunk(t))
  }

  /** What pass `p` should hold once `q` whole passes and `j` chunks are in. */
  function Due(c: Config, value: Group -> Sum, p: nat, q: nat, j: nat): Sum
    requires 0 < c.chunks
  {
    if q < p then Zero
    else if p < q then SumOver(value, c.host)
    else Big(SliceSums(value, c.host, c.chunks), j)
  }

  lemma DueStep(c: Config, value: Group -> Sum, p: nat, q: nat, j: nat)
    requires j < c.chunks
    ensures Xor(Due(c, value, p, q, j), if q == p then SliceSum(value, c.host, c.chunks, j) else Zero)
      == Due(c, value, p, q, j + 1)
  {
    XorZero(Zero);
    XorZero(SumOver(value, c.host));
  }

  lemma DueWrap(c: Config, value: Group -> Sum, p: nat, q: nat)
    requires 0 < c.chunks
    ensures Due(c, value, p, q, c.chunks) == Due(c, value, p, q + 1, 0)
  {
    SlicesCover(value, c.host, c.chunks);
  }

  /** What pass `p` holds when `k` chunks have been folded since a boundary. */
  function Held(c: Config, value: Group -> Sum, p: nat, k: nat): Sum
    requires 0 < c.chunks
  {
    Due(c, value, p, k / c.chunks, k % c.chunks)
  }

  lemma HeldStep(c: Config, value: Group -> Sum, p: nat, k: nat)
    requires 0 < c.chunks
    ensures Held(c, value, p, k + 1)
      == Xor(Held(c, value, p, k), if k / c.chunks == p then ChunkSum(c, value, k) else Zero)
  {
    hide Due, Xor;
    var n, q, j := c.chunks, k / c.chunks, k % c.chunks;
    Successor(k, n, q, j);
    DueStep(c, value, p, q, j);
    DueWrap(c, value, p, q);
  }

  /** `c.launch` is what launch `l` of a kernel leaves, and every group the host
      has is one it can hash. */
  ghost predicate Programmed(c: Config, l: GpuKernel.Launch) {
    && l.Runs() && l.Holds(c.host)
    && forall s: seq<Group> :: c.launch(s) == GpuKernel.Partials(l, s)
  }

  /** What a kernel has loaded by its end is its chunk, fit to be hashed. */
  lemma LoadedIsChunk(c: Config, l: GpuKernel.Launch, st: State)
    requires c.Valid() && Inv(c, st) && Enabled(c, st, FinishKernel) && Programmed(c, l)
    ensures Loaded(st.hashing.value, |c.Chunk(st.hashed)|) == c.Chunk(st.hashed)
    ensures l.Holds(c.Chunk(st.hashed))
  {
    hide GpuKernel.Launch.Holds, GpuKernel.Launch.Runs, Waits, Events, Results;
    GpuKernel.SliceHolds(l, c.host, c.chunks, st.hashed % c.chunks);
  }

  /** What a kernel's end is to the device's state. */
  lemma Finished(c: Config, st: State, p: Partials)
    requires Shaped(c, st) && Enabled(c, st, FinishKernel)
    requires p == c.launch(Loaded(st.hashing.value, |c.Chunk(st.hashed)|))
    ensures Step(c, st, FinishKernel)
      == st.(hashing := None, hashed := st.hashed + 1, part := st.part[Side(st.hashed) := Some(p)])
  {
    hide Loaded;
  }

  /** The driver's calls from the `from`-th to before the `to`-th all succeed. */
  ghost predicate Succeed(driver: nat -> bool, from: nat, to: nat) {
    forall n :: from <= n < to ==> driver(n)
  }

  lemma SucceedJoin(driver: nat -> bool, from: nat, mid: nat, to: nat)
    requires from <= mid <= to
    ensures Succeed(driver, from, to) <==> Succeed(driver, from, mid) && Succeed(driver, mid, to)
  {
  }

  lemma ThreeCalls(driver: nat -> bool, n: nat)
    ensures Succeed(driver, n, n + 1) <==> driver(n)
    ensures Succeed(driver, n, n + 2) <==> driver(n) && driver(n + 1)
    ensures Succeed(driver, n, n + 3) <==> driver(n) && driver(n + 1) && driver(n + 2)
  {
  }

  lemma SucceedOne(driver: nat -> bool, n: nat)
    ensures Succeed(driver, n, n) && (Succeed(driver, n, n + 1) <==> driver(n))
  {
  }

  /** The device keeps its pipe counters, events, queues and memory in `st`. Its
      kernel is the code `x`, launched as `l` says. */
  class Device {
    const c: Config
    const l: GpuKernel.Launch
    const x: Code
    ghost const value: Group -> Sum
    var st: State

    /** Which of the driver's calls succeed, the first it is asked for on, and how
        many have been made. */
    const driver: nat -> bool
    var made: nat

    /** No driver call since the `from`-th has failed. */
    ghost predicate Served(from: nat)
      reads this`made
    {
      Succeed(driver, from, made)
    }

    /** Calls made beyond three for every chunk queued and one for every chunk
        collected. */
    function Spare(): int
      reads this`made, this`st
    {
      made - 3 * st.queued - st.collected
    }

    method Driver() returns (ok: bool)
      modifies this`made
      ensures made == old(made) + 1 && ok == driver(old(made))
    {
      ok := driver(made);
      made := made + 1;
    }

    /** Launching the kernel over a chunk leaves partials that fold to the
        chunk's checksum. */
    ghost predicate LaunchFolds() {
      0 < c.chunks && forall t: nat :: Folded(c.launch(c.Chunk(t))) == SumOver(value, c.Chunk(t))
    }

    ghost predicate Valid()
      reads this`st
      ensures Valid() ==> 0 < c.chunks
    {
      c.Valid() && LaunchFolds() && Inv(c, st) && x.Computes(l.a) && Programmed(c, l)
    }

    /** Running, with no chunk half issued. */
    ghost predicate Open()
      reads this`st
    {
      Valid() && !st.draining && |st.uploads| == st.queued
    }

    /** Between calls: open and on a pass boundary. */
    ghost predicate Ready()
      reads this`st
    {
      Open() && st.collected % c.chunks == 0
    }

    /** A device with its queues empty, not streaming; its memory is arbitrary. */
    constructor (c: Config, l: GpuKernel.Launch, x: Code, ghost value: Group -> Sum, st: State, driver: nat -> bool)
      requires c.Valid() && Initial(c, st) && x.Computes(l.a) && Programmed(c, l)
      requires forall t: nat :: Folded(c.launch(c.Chunk(t))) == SumOver(value, c.Chunk(t))
      ensures Idle() && this.c == c && this.value == value && this.driver == driver && made == 0
    {
      this.c, this.l, this.x, this.value, this.st := c, l, x, value, st.(draining := true);
      this.driver, made := driver, 0;
      new;
      hide Code.Computes, Programmed;
      InvInitial(c, st);
      InvStep(c, st, Drain);
    }

    /** One step of the device. A kernel that has loaded its groups hashes what it
        loaded, as the launch runs. */
    method Perform(a: Action)
      requires Valid() && DeviceAction(a)
      modifies this`st
      ensures Valid() && st == Step(c, old(st), a)
    {
      hide Code.Computes, Programmed;
      InvStep(c, st, a);
      hide Inv;
      if a == FinishKernel && Enabled(c, st, a) {
        var t := st.hashed;
        var p := Launch(Loaded(st.hashing.value, |c.Chunk(t)|));
        Finished(c, st, p);
        hide Step;
        st := st.(hashing := None, hashed := t + 1, part := st.part[Side(t) := Some(p)]);
      } else {
        st := Step(c, st, a);
      }
    }

    /** The kernel, on what it has loaded. */
    method Launch(memory: seq<Group>) returns (p: Partials)
      requires Valid() && Enabled(c, st, FinishKernel)
      requires memory == Loaded(st.hashing.value, |c.Chunk(st.hashed)|)
      ensures p == c.launch(memory)
    {
      hide Code.Computes, GpuKernel.Launch.Runs, GpuKernel.Launch.Holds, Inv, LaunchFolds;
      LoadedIsChunk(c, l, st);
      p := GpuKernel.Run(l, x, memory);
    }

    /** The device runs on by itself: any number of its steps, in any order. */
    method Advance()
      requires Valid()
      modifies this`st
      ensures Valid() && SameHost(old(st), st) && old(st.read) <= st.read
    {
      var n: nat := *;
      while 0 < n
        invariant Valid() && SameHost(old(st), st) && old(st.read) <= st.read
        decreases n
      {
        var a: Action := *;
        if DeviceAction(a) {
          DeviceKeepsHost(c, st, a);
          Perform(a);
        }
        n := n - 1;
      }
    }

    method Act(a: Action)
      requires Valid() && Enabled(c, st, a)
      modifies this`st
      ensures Valid() && st == Apply(c, old(st), a)
    {
      InvStep(c, st, a);
      st := Step(c, st, a);
    }

    /** A chunk's commands come in order, the upload when there is room. */
    predicate MayIssue(a: Action)
      reads this`st
    {
      && !st.draining
      && match a
         case IssueUpload => |st.uploads| == st.queued < st.collected + c.ahead
         case IssueKernel => |st.uploads| == st.queued + 1 && |st.kernels| == st.queued
         case IssueRead => |st.kernels| == st.queued + 1
         case _ => false
    }

    /** One command, unless the driver refuses it. */
    method Issue(a: Action) returns (ok: bool)
      requires Valid() && MayIssue(a)
      modifies this
      ensures Valid() && made == old(made) + 1 && ok == driver(old(made))
      ensures st.collected == old(st.collected) && st.draining == old(st.draining)
      ensures ok ==> |st.uploads| == old(|st.uploads|) + (if a == IssueUpload then 1 else 0)
      ensures ok ==> |st.kernels| == old(|st.kernels|) + (if a == IssueKernel then 1 else 0)
      ensures ok ==> st.queued == old(st.queued) + (if a == IssueRead then 1 else 0)
    {
      Advance();
      hide Valid;
      ok := Driver();
      if ok {
        Act(a);
      }
    }

    lemma OpenKernels()
      requires Open()
      ensures |st.kernels| == st.queued
    {
      hide Waits, Events, Buffers, Results;
    }

    /** The kernel and the readback of a chunk whose upload is issued. */
    method IssueRest() returns (ok: bool)
      requires Valid() && MayIssue(IssueKernel) && |st.kernels| == st.queued
      modifies this
      ensures Valid() && !st.draining && st.collected == old(st.collected)
      ensures ok <==> driver(old(made)) && driver(old(made) + 1)
      ensures made == old(made) + if !driver(old(made)) then 1 else 2
      ensures ok ==> st.queued == old(st.queued) + 1 && |st.uploads| == old(|st.uploads|)
    {
      hide Valid;
      ok := Issue(IssueKernel);
      if ok {
        ok := Issue(IssueRead);
      }
    }

    /** All three commands of a chunk. */
    method IssueAll() returns (ok: bool)
      requires Valid() && MayIssue(IssueUpload) && |st.kernels| == st.queued
      modifies this
      ensures Valid() && !st.draining && st.collected == old(st.collected)
      ensures ok <==> driver(old(made)) && driver(old(made) + 1) && driver(old(made) + 2)
      ensures made == old(made) + if !driver(old(made)) then 1 else if !driver(old(made) + 1) then 2 else 3
      ensures ok ==> st.queued == old(st.queued) + 1 == |st.uploads|
    {
      hide Valid;
      ok := Issue(IssueUpload);
      if ok {
        ok := IssueRest();
      }
    }

    /** pipe_queue and pipe_enqueue: upload, kernel and readback of the next
        chunk, unless the driver refuses one of them. */
    method Queue() returns (ok: bool)
      requires Open() && st.queued < st.collected + c.ahead
      modifies this
      ensures Valid() && !st.draining && st.collected == old(st.collected) && old(made) <= made
      ensures ok <==> Served(old(made))
      ensures ok ==> Open() && st.queued == old(st.queued) + 1 && Spare() == old(Spare())
    {
      OpenKernels();
      ThreeCalls(driver, made);
      hide Valid, Succeed;
      ok := IssueAll();
    }

    /** Queue chunks until the device is as far ahead as it can go. */
    method TopUp() returns (ok: bool)
      requires Open()
      modifies this
      ensures Valid() && !st.draining && st.collected == old(st.collected) && old(made) <= made
      ensures ok <==> Served(old(made))
      ensures ok ==> Open() && st.collected < st.queued == st.collected + c.ahead && Spare() == old(Spare())
    {
      ok := true;
      while st.queued < st.collected + c.ahead
        invariant Open() && st.collected == old(st.collected) && old(made) <= made
        invariant ok && Served(old(made)) && Spare() == old(Spare())
      {
        ok := Queue();
        if !ok { return; }
      }
    }

    /** pipe_wait for the oldest chunk: whichever steps the device takes, this
        returns after finitely many that change anything, with that chunk read
        back, unless the driver reports failure. */
    method Wait() returns (ok: bool)
      requires Valid() && st.collected < st.queued
      modifies this
      ensures Valid() && SameHost(old(st), st) && made == old(made) + 1
      ensures ok <==> Served(old(made))
      ensures ok ==> st.collected < st.read
    {
      Advance();
      SucceedOne(driver, made);
      ok := Driver();
      if ok {
        hide Valid, Succeed;
        Await();
      }
    }

    /** Until the oldest chunk's event has come. */
    method Await()
      requires Valid() && st.collected < st.queued
      modifies this`st
      ensures Valid() && SameHost(old(st), st) && st.collected < st.read
    {
      assert Holds(st.rd, st.collected);
      var e := st.rd[Slot(st.collected)].value;
      while st.read <= e
        invariant Valid() && SameHost(old(st), st)
        decreases Pending(st), Left(c, st)
      {
        var a: Action := *;
        if !DeviceAction(a) || Step(c, st, a) == st {
          a := NextAction(c, st);
        }
        StepsConsume(c, st, a);
        DeviceKeepsHost(c, st, a);
        Perform(a);
      }
    }

    /** What pipe_wait points at: the ring slot of the oldest chunk, which still
        holds that chunk's partials however far the device has run on. */
    method Oldest() returns (p: Partials)
      requires Valid() && st.collected < st.read
      ensures p == c.launch(c.Chunk(st.collected)) && Folded(p) == ChunkSum(c, value, st.collected)
    {
      assert InRing(c, st, st.collected);
      p := st.ring[Slot(st.collected)].value;
    }

    /** The oldest chunk, read back, is done with: its events go. */
    method Retire()
      requires Open() && st.queued == st.collected + c.ahead && st.collected < st.read
      modifies this`st
      ensures Open() && st.collected == old(st.collected) + 1 && st.queued == old(st.queued)
    {
      assert Holds(st.rd, st.collected);
      Act(Collect);
    }

    /** vb_dev_pipe_end: collect what is in flight, only to retire it. Nothing
        is left in flight unless the driver reports a failure. */
    method End() returns (ok: bool)
      requires Valid()
      modifies this
      ensures Valid() && st.draining && old(made) <= made
      ensures ok <==> Served(old(made))
      ensures ok ==> st.collected == st.queued
      ensures ok && old(|st.uploads| == st.queued) ==> Idle()
    {
      Act(Drain);
      ok := true;
      while st.collected < st.queued
        invariant Valid() && st.draining && st.queued == old(st.queued) && st.uploads == old(st.uploads)
        invariant ok && old(made) <= made && Served(old(made))
        decreases st.queued - st.collected
      {
        ok := Wait();
        if !ok { return; }
        Advance();
        assert Holds(st.rd, st.collected);
        Act(Collect);
      }
    }

    /** Every command issued has completed and been collected. */
    ghost predicate Idle()
      reads this`st
    {
      && Valid() && st.draining
      && st.collected == st.queued == st.read == st.hashed == st.uploaded == |st.uploads| == |st.kernels|
    }

    /** vb_dev_pipe_begin on an idle device: whatever the last run left in the
        buffers, the ring and the event slots does not matter. */
    method Begin()
      requires Idle()
      modifies this`st
      ensures Ready() && st.collected == st.queued == 0
    {
      st := st.(queued := 0, collected := 0, draining := false, uploads := [], kernels := [],
                uploaded := 0, hashed := 0, read := 0);
      InvInitial(c, st);
    }
  }

  /** fold: XOR a launch's partials into an accumulator. */
  method Fold(p: Partials, acc: Sum) returns (r: Sum)
    ensures r == Xor(acc, Folded(p))
  {
    r := acc;
    XorZero(acc);
    for i := 0 to |p|
      invariant r == Xor(acc, Folded(p[..i]))
    {
      assert p[..i + 1][..i] == p[..i];
      XorAssoc(acc, Folded(p[..i]), p[i]);
      r := Xor(r, p[i]);
    }
    assert p[..|p|] == p;
  }

  /** Passes repeat their chunks: from a boundary the count starts over. */
  lemma SameChunk(c: Config, base: nat, k: nat)
    requires 0 < c.chunks && base % c.chunks == 0
    ensures c.Chunk(base + k) == c.Chunk(k)
  {
    var n := c.chunks;
    var q, r := base / n + k / n, k % n;
    assert base + k == q * n + r;
    Divides(base + k, n, q, r);
  }

  /** Top the device up and wait for its oldest chunk. */
  method FetchOne(dev: Device) returns (ok: bool)
    requires dev.Open()
    modifies dev
    ensures dev.Valid() && !dev.st.draining && dev.st.collected == old(dev.st.collected) && old(dev.made) <= dev.made
    ensures ok <==> dev.Served(old(dev.made))
    ensures ok ==> dev.Open() && dev.st.queued == dev.st.collected + dev.c.ahead && dev.st.collected < dev.st.read
    ensures ok ==> dev.Spare() == old(dev.Spare()) + 1
  {
    hide Device.Valid, Succeed;
    ghost var from := dev.made;
    ok := dev.TopUp();
    if !ok { return; }
    ghost var mid := dev.made;
    ok := dev.Wait();
    SucceedJoin(dev.driver, from, mid, dev.made);
  }

  /** Fold the oldest chunk, read back, into its pass and retire it. `k` counts
      the chunks collected since `base`, a boundary. */
  method TakeOne(dev: Device, ghost base: nat, ghost k: nat, p: nat, out: array<Sum>)
    requires dev.Open() && dev.st.queued == dev.st.collected + dev.c.ahead && dev.st.collected < dev.st.read
    requires dev.st.collected == base + k && base % dev.c.chunks == 0 && p < out.Length
    modifies dev`st, out
    ensures dev.Open() && dev.st.collected == base + k + 1 && dev.st.queued == old(dev.st.queued)
    ensures out[..] == old(out[..])[p := Xor(old(out[p]), ChunkSum(dev.c, dev.value, k))]
  {
    hide Device.Valid, Folded, Xor;
    dev.Advance();
    var partials := dev.Oldest();
    SameChunk(dev.c, base, k);
    out[p] := Fold(partials, out[p]);
    dev.Retire();
  }

  /** Top the device up, wait for its oldest chunk, and take it. */
  method CollectOne(dev: Device, ghost base: nat, ghost k: nat, p: nat, out: array<Sum>) returns (ok: bool)
    requires dev.Open() && dev.st.collected == base + k
    requires base % dev.c.chunks == 0
    requires p < out.Length
    modifies dev, out
    ensures dev.Valid() && !dev.st.draining && old(dev.made) <= dev.made
    ensures ok <==> dev.Served(old(dev.made))
    ensures ok ==> dev.Open() && dev.st.collected == base + k + 1 && dev.Spare() == old(dev.Spare())
    ensures ok ==> out[..] == old(out[..])[p := Xor(old(out[p]), ChunkSum(dev.c, dev.value, k))]
  {
    hide Device.Valid, Succeed, ChunkSum, Xor;
    ok := FetchOne(dev);
    if ok {
      TakeOne(dev, base, k, p, out);
    }
  }

  // ---- several devices at once -------------------------------------------------

  ghost predicate Distinct(ctx: seq<Device>) {
    forall i, j :: 0 <= i < j < |ctx| ==> ctx[i] != ctx[j]
  }

  /** What device `i` has put into pass `p` after `ks[i]` chunks. */
  ghost function HeldBy(ctx: seq<Device>, ks: seq<nat>, p: nat, i: nat): Sum {
    if i < |ctx| && i < |ks| && 0 < ctx[i].c.chunks
    then Held(ctx[i].c, ctx[i].value, p, ks[i]) else Zero
  }

  ghost function HeldSums(ctx: seq<Device>, ks: seq<nat>, p: nat): nat -> Sum {
    i => HeldBy(ctx, ks, p, i)
  }

  /** The checksum of device `i`'s whole slice. */
  ghost function SliceOf(ctx: seq<Device>, i: nat): Sum {
    if i < |ctx| then SumOver(ctx[i].value, ctx[i].c.host) else Zero
  }

  /** The single-pass checksum over every device. */
  ghost function PassSum(ctx: seq<Device>): Sum {
    Big(i => SliceOf(ctx, i), |ctx|)
  }

  lemma HeldAtStart(ctx: seq<Device>, ks: seq<nat>, p: nat)
    requires |ks| == |ctx| && forall i :: 0 <= i < |ctx| ==> ks[i] == 0
    ensures Big(HeldSums(ctx, ks, p), |ctx|) == Zero
  {
    BigZero(|ctx|);
    BigExt(HeldSums(ctx, ks, p), i => Zero, |ctx|);
  }

  lemma HeldAtEnd(ctx: seq<Device>, ks: seq<nat>, passes: nat, p: nat)
    requires |ks| == |ctx| && p < passes
    requires forall i :: 0 <= i < |ctx| ==> 0 < ctx[i].c.chunks && ks[i] == passes * ctx[i].c.chunks
    ensures Big(HeldSums(ctx, ks, p), |ctx|) == PassSum(ctx)
  {
    forall i: nat | i < |ctx| ensures HeldBy(ctx, ks, p, i) == SliceOf(ctx, i) {
      Divides(ks[i], ctx[i].c.chunks, passes, 0);
    }
    BigExt(HeldSums(ctx, ks, p), i => SliceOf(ctx, i), |ctx|);
  }

  lemma HeldGrows(ctx: seq<Device>, ks: seq<nat>, d: nat, p: nat, x: Sum)
    requires |ks| == |ctx| && d < |ctx|
    requires HeldBy(ctx, ks[d := ks[d] + 1], p, d) == Xor(HeldBy(ctx, ks, p, d), x)
    ensures Big(HeldSums(ctx, ks[d := ks[d] + 1], p), |ctx|) == Xor(Big(HeldSums(ctx, ks, p), |ctx|), x)
  {
    var next := ks[d := ks[d] + 1];
    forall i: nat | i < |ctx| && i != d ensures HeldBy(ctx, next, p, i) == HeldBy(ctx, ks, p, i) {
    }
    BigUpdate(HeldSums(ctx, ks, p), HeldSums(ctx, next, p), |ctx|, d, x);
  }

  /** One more chunk from device `d` lands in the pass it belongs to. */
  lemma ChunkLands(ctx: seq<Device>, ks: seq<nat>, d: nat, p: nat)
    requires |ks| == |ctx| && d < |ctx| && 0 < ctx[d].c.chunks
    ensures var x := ChunkSum(ctx[d].c, ctx[d].value, ks[d]);
      Big(HeldSums(ctx, ks[d := ks[d] + 1], p), |ctx|)
      == if ks[d] / ctx[d].c.chunks == p then Xor(Big(HeldSums(ctx, ks, p), |ctx|), x)
         else Big(HeldSums(ctx, ks, p), |ctx|)
  {
    hide Xor, Held, Big, ChunkSum;
    var dev := ctx[d];
    HeldStep(dev.c, dev.value, p, ks[d]);
    if ks[d] / dev.c.chunks == p {
      HeldGrows(ctx, ks, d, p, ChunkSum(dev.c, dev.value, ks[d]));
    } else {
      HeldGrows(ctx, ks, d, p, Zero);
      XorZero(Big(HeldSums(ctx, ks, p), |ctx|));
    }
  }

  /** Between two collections of vb_dev_pipe_next: `ks[i]` chunks of device `i`
      are in since its `base[i]`, of passes * chunks to go. */
  ghost predicate Midway(ctx: seq<Device>, base: seq<nat>, ks: seq<nat>, passes: nat)
    reads ctx
  {
    && |base| == |ks| == |ctx|
    && forall i :: 0 <= i < |ctx| ==>
         && ctx[i].Open() && base[i] % ctx[i].c.chunks == 0
         && ctx[i].st.collected == base[i] + ks[i]
         && ks[i] <= passes * ctx[i].c.chunks
  }

  ghost predicate Tallied(ctx: seq<Device>, ks: seq<nat>, out: seq<Sum>) {
    forall p: nat :: p < |out| ==> out[p] == Big(HeldSums(ctx, ks, p), |ctx|)
  }

  lemma TallyStep(ctx: seq<Device>, ks: seq<nat>, d: nat, p: nat, before: seq<Sum>, after: seq<Sum>)
    requires |ks| == |ctx| && d < |ctx| && 0 < ctx[d].c.chunks
    requires p == ks[d] / ctx[d].c.chunks < |before|
    requires Tallied(ctx, ks, before)
    requires after == before[p := Xor(before[p], ChunkSum(ctx[d].c, ctx[d].value, ks[d]))]
    ensures Tallied(ctx, ks[d := ks[d] + 1], after)
  {
    forall q: nat | q < |after|
      ensures after[q] == Big(HeldSums(ctx, ks[d := ks[d] + 1], q), |ctx|)
    {
      ChunkLands(ctx, ks, d, q);
    }
  }

  /** No driver call of any device has failed since the `from[i]`-th, and none
      was made but for what was queued and collected. */
  ghost predicate AllServed(ctx: seq<Device>, from: seq<nat>, spare: seq<int>)
    reads ctx
  {
    && |from| == |spare| == |ctx|
    && forall i :: 0 <= i < |ctx| ==> from[i] <= ctx[i].made && ctx[i].Served(from[i]) && ctx[i].Spare() == spare[i]
  }

  /** One device's turn in a round of vb_dev_pipe_next. */
  method Turn(ctx: seq<Device>, d: nat, base: seq<nat>, ghost ks: seq<nat>, out: array<Sum>,
              ghost from: seq<nat>, ghost spare: seq<int>)
    returns (ok: bool)
    requires Distinct(ctx) && d < |ctx| && Midway(ctx, base, ks, out.Length) && AllServed(ctx, from, spare)
    requires ks[d] < out.Length * ctx[d].c.chunks && Tallied(ctx, ks, out[..])
    modifies ctx[d], out
    ensures ctx[d].Valid() && from[d] <= ctx[d].made
    ensures ok <==> ctx[d].Served(from[d])
    ensures ok ==> AllServed(ctx, from, spare)
    ensures ok ==> Midway(ctx, base, ks[d := ks[d] + 1], out.Length)
    ensures ok ==> Tallied(ctx, ks[d := ks[d] + 1], out[..])
  {
    hide Device.Valid;
    var dev := ctx[d];
    var p := (dev.st.collected - base[d]) / dev.c.chunks;
    QuotientBelow(ks[d], dev.c.chunks, out.Length);
    ok := CollectOne(dev, base[d], ks[d], p, out);
    if ok {
      TallyStep(ctx, ks, d, p, old(out[..]), out[..]);
    }
  }

  /** Where each device ends this call: `passes` whole passes from its base. */
  ghost predicate Goals(ctx: seq<Device>, base: seq<nat>, stop: seq<nat>, passes: nat) {
    && |base| == |stop| == |ctx|
    && forall i :: 0 <= i < |ctx| ==> stop[i] == base[i] + passes * ctx[i].c.chunks
  }

  /** Where each device stands and where this call will leave it. */
  method Mark(ctx: seq<Device>, passes: nat) returns (base: seq<nat>, stop: seq<nat>)
    ensures Goals(ctx, base, stop, passes)
    ensures forall i :: 0 <= i < |ctx| ==> base[i] == ctx[i].st.collected
  {
    base, stop := [], [];
    for d := 0 to |ctx|
      invariant |base| == |stop| == d
      invariant forall i :: 0 <= i < d ==> base[i] == ctx[i].st.collected
      invariant forall i :: 0 <= i < d ==> stop[i] == base[i] + passes * ctx[i].c.chunks
    {
      var at := ctx[d].st.collected;
      base, stop := base + [at], stop + [at + passes * ctx[d].c.chunks];
    }
  }

  ghost function Total(ks: seq<nat>): nat {
    if ks == [] then 0 else Total(ks[..|ks| - 1]) + ks[|ks| - 1]
  }

  lemma {:induction false} TotalStep(ks: seq<nat>, d: nat)
    requires d < |ks|
    ensures Total(ks[d := ks[d] + 1]) == Total(ks) + 1
  {
    var m := |ks| - 1;
    if d == m {
      assert ks[d := ks[d] + 1][..m] == ks[..m];
    } else {
      assert ks[d := ks[d] + 1][..m] == ks[..m][d := ks[d] + 1];
      TotalStep(ks[..m], d);
    }
  }

  /** Chunks of a call that are not in yet. */
  ghost function Outstanding(base: seq<nat>, stop: seq<nat>, ks: seq<nat>): int
    requires |base| == |stop|
  {
    Total(stop) - Total(base) - Total(ks)
  }

  /** Device `i` has collected everything this call asks of it. */
  ghost predicate Done(base: seq<nat>, stop: seq<nat>, ks: seq<nat>, i: nat)
    requires |base| == |stop| == |ks| && i < |ks|
  {
    stop[i] <= base[i] + ks[i]
  }

  /** One round of vb_dev_pipe_next: a chunk from every device not done yet. */
  method Round(ctx: seq<Device>, base: seq<nat>, stop: seq<nat>, out: array<Sum>, ghost ks: seq<nat>,
               ghost from: seq<nat>, ghost spare: seq<int>)
    returns (ok: bool, busy: bool, ghost after: seq<nat>)
    requires Distinct(ctx) && Goals(ctx, base, stop, out.Length)
    requires Midway(ctx, base, ks, out.Length) && Tallied(ctx, ks, out[..]) && AllServed(ctx, from, spare)
    modifies ctx, out
    ensures forall i :: 0 <= i < |ctx| ==> ctx[i].Valid() && from[i] <= ctx[i].made
    ensures ok <==> forall i :: 0 <= i < |ctx| ==> ctx[i].Served(from[i])
    ensures ok ==> AllServed(ctx, from, spare)
    ensures ok ==> Midway(ctx, base, after, out.Length) && Tallied(ctx, after, out[..])
    ensures ok && busy ==> Total(ks) < Total(after)
    ensures ok && !busy ==> after == ks && forall i: nat :: i < |ctx| ==> Done(base, stop, after, i)
  {
    hide Device.Valid, Device.Served, Device.Spare;
    ok, busy, after := true, false, ks;
    for d := 0 to |ctx|
      invariant ok && Midway(ctx, base, after, out.Length) && Tallied(ctx, after, out[..])
      invariant AllServed(ctx, from, spare)
      invariant if busy then Total(ks) < Total(after) else after == ks
      invariant !busy ==> forall i: nat :: i < d ==> Done(base, stop, after, i)
    {
      if ctx[d].st.collected < stop[d] {
        ok := Turn(ctx, d, base, after, out, from, spare);
        if !ok { return; }
        TotalStep(after, d);
        busy, after := true, after[d := after[d] + 1];
      }
    }
  }

  lemma BoundaryAgain(base: nat, n: nat, passes: nat)
    requires 0 < n && base % n == 0
    ensures (base + passes * n) % n == 0
  {
    Divides(base + passes * n, n, base / n + passes, 0);
  }

  /** What a finished call leaves behind. */
  lemma CallFinished(ctx: seq<Device>, base: seq<nat>, stop: seq<nat>, ks: seq<nat>, out: seq<Sum>)
    requires Goals(ctx, base, stop, |out|) && Midway(ctx, base, ks, |out|) && Tallied(ctx, ks, out)
    requires forall i: nat :: i < |ctx| ==> Done(base, stop, ks, i)
    ensures forall i :: 0 <= i < |ctx| ==>
      ctx[i].Ready() && ctx[i].st.collected == base[i] + |out| * ctx[i].c.chunks
    ensures forall p :: 0 <= p < |out| ==> out[p] == PassSum(ctx)
  {
    forall i | 0 <= i < |ctx|
      ensures ks[i] == |out| * ctx[i].c.chunks && ctx[i].Ready()
    {
      assert Done(base, stop, ks, i);
      BoundaryAgain(base[i], ctx[i].c.chunks, |out|);
    }
    forall p | 0 <= p < |out| ensures out[p] == PassSum(ctx) {
      HeldAtEnd(ctx, ks, |out|, p);
    }
  }

  /** Every pass starts from nothing. */
  method Clear(ctx: seq<Device>, out: array<Sum>) returns (ghost ks: seq<nat>)
    modifies out
    ensures |ks| == |ctx| && forall i :: 0 <= i < |ctx| ==> ks[i] == 0
    ensures Tallied(ctx, ks, out[..])
  {
    for p := 0 to out.Length
      invariant forall q :: 0 <= q < p ==> out[q] == Zero
    {
      out[p] := Zero;
    }
    ks := seq(|ctx|, _ => 0);
    forall p: nat | p < out.Length ensures Big(HeldSums(ctx, ks, p), |ctx|) == Zero {
      HeldAtStart(ctx, ks, p);
    }
  }

  /** The chunks collected never exceed the chunks asked for. */
  lemma {:induction false} NotBeyond(base: seq<nat>, stop: seq<nat>, ks: seq<nat>)
    requires |base| == |stop| == |ks|
    requires forall i :: 0 <= i < |ks| ==> base[i] + ks[i] <= stop[i]
    ensures 0 <= Outstanding(base, stop, ks)
  {
    if ks != [] {
      NotBeyond(base[..|ks| - 1], stop[..|ks| - 1], ks[..|ks| - 1]);
    }
  }

  /**
   vb_dev_pipe_next: it fails exactly if one of the driver's calls fails. If none
   does, every pass collected is the single-pass checksum of all the devices'
   slices together, and every device is left on a pass boundary with exactly
   `out.Length` more passes collected.
   */
  method PipeNext(ctx: seq<Device>, out: array<Sum>) returns (ok: bool)
    requires Distinct(ctx) && forall i :: 0 <= i < |ctx| ==> ctx[i].Ready()
    modifies ctx, out
    ensures forall i :: 0 <= i < |ctx| ==> ctx[i].Valid() && old(ctx[i].made) <= ctx[i].made
    ensures ok <==> forall i :: 0 <= i < |ctx| ==> ctx[i].Served(old(ctx[i].made))
    ensures ok ==> forall i :: 0 <= i < |ctx| ==>
      && ctx[i].Ready() && ctx[i].Spare() == old(ctx[i].Spare())
      && ctx[i].st.collected == old(ctx[i].st.collected) + out.Length * ctx[i].c.chunks
    ensures ok ==> forall p :: 0 <= p < out.Length ==> out[p] == PassSum(ctx)
  {
    hide Device.Valid, Device.Served, Device.Spare;
    var base, stop := Mark(ctx, out.Length);
    ghost var ks := Clear(ctx, out);
    ghost var from, spare := Counts(ctx);
    ok := AllRounds(ctx, base, stop, out, ks, from, spare);
  }

  /** Where every device's driver calls stand. */
  lemma Counts(ctx: seq<Device>) returns (from: seq<nat>, spare: seq<int>)
    ensures AllServed(ctx, from, spare)
    ensures forall i :: 0 <= i < |ctx| ==> from[i] == ctx[i].made && spare[i] == ctx[i].Spare()
  {
    from := seq(|ctx|, i requires 0 <= i < |ctx| reads ctx => ctx[i].made);
    spare := seq(|ctx|, i requires 0 <= i < |ctx| reads ctx => ctx[i].Spare());
  }

  /** Rounds until no device has anything left to do for this call. */
  method AllRounds(ctx: seq<Device>, base: seq<nat>, stop: seq<nat>, out: array<Sum>, ghost start: seq<nat>,
                   ghost from: seq<nat>, ghost spare: seq<int>)
    returns (ok: bool)
    requires Distinct(ctx) && Goals(ctx, base, stop, out.Length)
    requires Midway(ctx, base, start, out.Length) && Tallied(ctx, start, out[..]) && AllServed(ctx, from, spare)
    modifies ctx, out
    ensures forall i :: 0 <= i < |ctx| ==> ctx[i].Valid() && from[i] <= ctx[i].made
    ensures ok <==> forall i :: 0 <= i < |ctx| ==> ctx[i].Served(from[i])
    ensures ok ==> AllServed(ctx, from, spare)
    ensures ok ==> forall i :: 0 <= i < |ctx| ==>
      ctx[i].Ready() && ctx[i].st.collected == base[i] + out.Length * ctx[i].c.chunks
    ensures ok ==> forall p :: 0 <= p < out.Length ==> out[p] == PassSum(ctx)
  {
    hide Device.Valid, Device.Served, Device.Spare;
    ghost var ks := start;
    var busy := true;
    ok := true;
    while busy
      invariant ok && Midway(ctx, base, ks, out.Length) && Tallied(ctx, ks, out[..]) && AllServed(ctx, from, spare)
      invariant !busy ==> forall i: nat :: i < |ctx| ==> Done(base, stop, ks, i)
      decreases Outstanding(base, stop, ks), busy
    {
      ghost var after;
      ok, busy, after := Round(ctx, base, stop, out, ks, from, spare);
      if !ok { return; }
      NotBeyond(base, stop, after);
      ks := after;
    }
    CallFinished(ctx, base, stop, ks, out[..]);
  }

  /** A run: begin, then any number of calls of any lengths, none of which
      drains anything, until one fails. `got` gathers every pass of every call.
      It fails exactly if one of the driver's calls fails. */
  method Session(ctx: seq<Device>, calls: seq<nat>) returns (ok: bool, got: seq<Sum>)
    requires Distinct(ctx) && forall i :: 0 <= i < |ctx| ==> ctx[i].Idle()
    modifies ctx
    ensures forall i :: 0 <= i < |ctx| ==> ctx[i].Valid() && old(ctx[i].made) <= ctx[i].made
    ensures ok <==> forall i :: 0 <= i < |ctx| ==> ctx[i].Served(old(ctx[i].made))
    ensures ok ==> |got| == Total(calls)
    ensures forall p :: 0 <= p < |got| ==> got[p] == PassSum(ctx)
    ensures ok ==> forall i :: 0 <= i < |ctx| ==>
      ctx[i].st.collected == |got| * ctx[i].c.chunks && ctx[i].Spare() == old(ctx[i].made)
  {
    hide Device.Valid, PassSum, Xor, Device.Served, Device.Spare;
    ghost var from := BeginAll(ctx);
    ok, got := AllCalls(ctx, calls, from);
  }

  /** vb_dev_pipe_begin. */
  method BeginAll(ctx: seq<Device>) returns (ghost from: seq<nat>)
    requires Distinct(ctx) && forall i :: 0 <= i < |ctx| ==> ctx[i].Idle()
    modifies ctx
    ensures |from| == |ctx| && forall i :: 0 <= i < |ctx| ==> from[i] == ctx[i].made == old(ctx[i].made)
    ensures AllServed(ctx, from, from)
    ensures forall i :: 0 <= i < |ctx| ==> ctx[i].Ready() && ctx[i].st.collected == 0
  {
    hide Device.Valid, Device.Served;
    from := seq(|ctx|, i requires 0 <= i < |ctx| reads ctx => ctx[i].made);
    for d := 0 to |ctx|
      invariant forall i :: 0 <= i < d ==> ctx[i].Ready() && ctx[i].st.collected == 0 && ctx[i].Spare() == ctx[i].made
      invariant forall i :: d <= i < |ctx| ==> ctx[i].Idle()
      invariant forall i :: 0 <= i < |ctx| ==> ctx[i].made == from[i]
    {
      ctx[d].Begin();
    }
    Fresh(ctx, from);
  }

  /** The calls in turn, until one fails. */
  method AllCalls(ctx: seq<Device>, calls: seq<nat>, ghost from: seq<nat>) returns (ok: bool, got: seq<Sum>)
    requires Distinct(ctx) && AllServed(ctx, from, from)
    requires forall i :: 0 <= i < |ctx| ==> ctx[i].Ready() && ctx[i].st.collected == 0
    modifies ctx
    ensures forall i :: 0 <= i < |ctx| ==> ctx[i].Valid() && from[i] <= ctx[i].made
    ensures ok <==> forall i :: 0 <= i < |ctx| ==> ctx[i].Served(from[i])
    ensures ok ==> |got| == Total(calls)
    ensures forall p :: 0 <= p < |got| ==> got[p] == PassSum(ctx)
    ensures ok ==> forall i :: 0 <= i < |ctx| ==>
      ctx[i].st.collected == |got| * ctx[i].c.chunks && ctx[i].Spare() == from[i]
  {
    hide Device.Valid, PassSum, Device.Served, Device.Spare;
    ok, got := true, [];
    for n := 0 to |calls|
      invariant ok && |got| == Total(calls[..n])
      invariant forall p :: 0 <= p < |got| ==> got[p] == PassSum(ctx)
      invariant AllServed(ctx, from, from)
      invariant forall i :: 0 <= i < |ctx| ==>
        ctx[i].Ready() && ctx[i].st.collected == |got| * ctx[i].c.chunks
    {
      assert calls[..n + 1][..n] == calls[..n];
      var out := new Sum[calls[n]](_ => Zero);
      ok := OneCall(ctx, out, from);
      if !ok { return; }
      Scaled(ctx, |got|, calls[n]);
      got := got + out[..];
    }
    assert calls[..|calls|] == calls;
  }

  lemma Scaled(ctx: seq<Device>, m: nat, n: nat)
    ensures forall i :: 0 <= i < |ctx| ==> m * ctx[i].c.chunks + n * ctx[i].c.chunks == (m + n) * ctx[i].c.chunks
  {
  }

  lemma Fresh(ctx: seq<Device>, from: seq<nat>)
    requires |from| == |ctx| && forall i :: 0 <= i < |ctx| ==> ctx[i].made == from[i] && ctx[i].Spare() == from[i]
    ensures AllServed(ctx, from, from)
  {
  }

  /** One call of a run that has not failed yet. */
  method OneCall(ctx: seq<Device>, out: array<Sum>, ghost from: seq<nat>) returns (ok: bool)
    requires Distinct(ctx) && (forall i :: 0 <= i < |ctx| ==> ctx[i].Ready()) && AllServed(ctx, from, from)
    modifies ctx, out
    ensures forall i :: 0 <= i < |ctx| ==> ctx[i].Valid() && from[i] <= ctx[i].made
    ensures ok <==> forall i :: 0 <= i < |ctx| ==> ctx[i].Served(from[i])
    ensures ok ==> AllServed(ctx, from, from)
    ensures ok ==> forall i :: 0 <= i < |ctx| ==>
      ctx[i].Ready() && ctx[i].st.collected == old(ctx[i].st.collected) + out.Length * ctx[i].c.chunks
    ensures ok ==> forall p :: 0 <= p < out.Length ==> out[p] == PassSum(ctx)
  {
    hide Device.Valid, PassSum;
    ok := PipeNext(ctx, out);
  }
}
