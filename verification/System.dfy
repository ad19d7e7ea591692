/**
 The parts put together: a corpus built, cut into groups, sliced over devices or
 worker threads, hashed by the kernels and folded, against the oracle's value.
 */
module System {
  import opened Arithmetic
  import opened Checksums
  import opened Slices
  import opened Algorithms
  import opened Workload
  import opened Corpus
  import opened Words
  import opened Chain
  import opened Cells
  import opened CpuKernel
  import opened GpuKernel
  import Protocol
  import opened Pipeline
  import opened Hashes
  import Geometry
  import Oracle
  import Pool

  // ---- a corpus as groups -----------------------------------------------------

  /** Words of one group: `streams` slots. */
  function GroupWords(l: Launch): nat {
    l.streams * (l.blocks * WORDS_PER_BLOCK) * l.lanes
  }

  lemma GroupInside(words: nat, n: nat, size: nat, g: nat)
    requires words == n * size && g < n
    ensures g * size + size <= words
  {
    assert n * size == g * size + size + (n - g - 1) * size;
  }

  function GroupOf(l: Launch, words: seq<Word>, n: nat, g: nat): (r: seq<Word>)
    requires |words| == n * GroupWords(l) && g < n
    ensures |r| == GroupWords(l)
  {
    GroupInside(|words|, n, GroupWords(l), g);
    words[g * GroupWords(l)..g * GroupWords(l) + GroupWords(l)]
  }

  function GroupsOf(l: Launch, words: seq<Word>, n: nat): (r: seq<seq<Word>>)
    requires |words| == n * GroupWords(l)
    ensures |r| == n && forall g :: 0 <= g < n ==> r[g] == GroupOf(l, words, n, g)
  {
    seq(n, g requires 0 <= g < n => GroupOf(l, words, n, g))
  }

  /** The whole corpus as one view. */
  function WholeView(l: Launch, words: seq<Word>, n: nat): View {
    View(words, n * l.streams, l.blocks, l.lanes)
  }

  lemma CellIndex(g: nat, streams: nat, k: nat, per: nat, x: nat, lanes: nat, lane: nat)
    ensures ((g * streams + k) * per + x) * lanes + lane == g * (streams * per * lanes) + ((k * per + x) * lanes + lane)
  {
    assert (g * streams + k) * per + x == g * (streams * per) + (k * per + x) by {
      assert (g * streams + k) * per == g * streams * per + k * per;
      assert g * streams * per == g * (streams * per);
    }
    assert (g * (streams * per) + (k * per + x)) * lanes == g * (streams * per) * lanes + (k * per + x) * lanes;
    assert g * (streams * per) * lanes == g * (streams * per * lanes);
  }

  lemma WholeShaped(l: Launch, words: seq<Word>, n: nat)
    requires |words| == n * GroupWords(l)
    ensures Shaped(words, n * l.streams, l.blocks, l.lanes)
  {
    var w := l.blocks * WORDS_PER_BLOCK;
    assert n * l.streams * w * l.lanes == n * (l.streams * w * l.lanes) by {
      CellIndex(n, l.streams, 0, l.blocks * WORDS_PER_BLOCK, 0, l.lanes, 0);
    }
  }

  lemma SlotInside(g: nat, n: nat, streams: nat, k: nat)
    requires g < n && k < streams
    ensures g * streams + k < n * streams
  {
    Within(g, n, k, streams);
  }

  lemma WordOfGroup(l: Launch, words: seq<Word>, n: nat, g: nat, i: nat)
    requires |words| == n * GroupWords(l) && g < n && i < GroupWords(l)
    ensures g * GroupWords(l) + i < |words| && GroupOf(l, words, n, g)[i] == words[g * GroupWords(l) + i]
  {
    hide GroupWords;
    GroupInside(|words|, n, GroupWords(l), g);
  }

  lemma IndexInGroup(l: Launch, k: nat, x: nat, lane: nat)
    requires k < l.streams && lane < l.lanes && x < l.blocks * WORDS_PER_BLOCK
    ensures (k * (l.blocks * WORDS_PER_BLOCK) + x) * l.lanes + lane < GroupWords(l)
  {
    CellInside(l.streams, l.blocks * WORDS_PER_BLOCK, l.lanes, k, x, lane);
  }

  lemma IndexInCorpus(l: Launch, g: nat, k: nat, x: nat, lane: nat)
    ensures ((g * l.streams + k) * (l.blocks * WORDS_PER_BLOCK) + x) * l.lanes + lane
      == g * GroupWords(l) + ((k * (l.blocks * WORDS_PER_BLOCK) + x) * l.lanes + lane)
  {
    CellIndex(g, l.streams, k, l.blocks * WORDS_PER_BLOCK, x, l.lanes, lane);
  }

  lemma SameWord(l: Launch, words: seq<Word>, n: nat, g: nat, k: nat, lane: nat, x: nat, i: nat, j: nat)
    requires |words| == n * GroupWords(l) && g < n && k < l.streams && lane < l.lanes && x < l.blocks * WORDS_PER_BLOCK
    requires i == (k * (l.blocks * WORDS_PER_BLOCK) + x) * l.lanes + lane
    requires j == ((g * l.streams + k) * (l.blocks * WORDS_PER_BLOCK) + x) * l.lanes + lane
    ensures i < GroupWords(l) && j < |words| && GroupOf(l, words, n, g)[i] == words[j]
  {
    hide GroupOf, GroupWords;
    IndexInGroup(l, k, x, lane);
    IndexInCorpus(l, g, k, x, lane);
    WordOfGroup(l, words, n, g, i);
  }

  lemma GroupShaped(l: Launch, words: seq<Word>, n: nat, g: nat)
    requires |words| == n * GroupWords(l) && g < n
    ensures Shaped(words, n * l.streams, l.blocks, l.lanes)
      && Shaped(GroupOf(l, words, n, g), l.streams, l.blocks, l.lanes)
  {
    WholeShaped(l, words, n);
    hide GroupOf;
  }

  lemma SameEntry(l: Launch, words: seq<Word>, n: nat, g: nat, k: nat, lane: nat, x: nat)
    requires |words| == n * GroupWords(l) && g < n && k < l.streams && lane < l.lanes && x < l.blocks * WORDS_PER_BLOCK
    requires Shaped(words, n * l.streams, l.blocks, l.lanes) && g * l.streams + k < n * l.streams
    requires Shaped(GroupOf(l, words, n, g), l.streams, l.blocks, l.lanes)
    ensures Cell(GroupOf(l, words, n, g), l.streams, l.blocks, l.lanes, k, lane)[x]
      == Cell(words, n * l.streams, l.blocks, l.lanes, g * l.streams + k, lane)[x]
  {
    hide GroupOf, GroupWords, Shaped;
    SameWord(l, words, n, g, k, lane, x, (k * (l.blocks * WORDS_PER_BLOCK) + x) * l.lanes + lane,
             ((g * l.streams + k) * (l.blocks * WORDS_PER_BLOCK) + x) * l.lanes + lane);
  }

  /** A group's cell is the corpus's. */
  lemma SameCell(l: Launch, words: seq<Word>, n: nat, g: nat, k: nat, lane: nat)
    requires |words| == n * GroupWords(l) && g < n && k < l.streams && lane < l.lanes
    ensures Shaped(words, n * l.streams, l.blocks, l.lanes) && g * l.streams + k < n * l.streams
    ensures Shaped(GroupOf(l, words, n, g), l.streams, l.blocks, l.lanes)
    ensures Cell(GroupOf(l, words, n, g), l.streams, l.blocks, l.lanes, k, lane)
      == Cell(words, n * l.streams, l.blocks, l.lanes, g * l.streams + k, lane)
  {
    hide GroupOf, GroupWords, Shaped, Cell;
    GroupShaped(l, words, n, g);
    SlotInside(g, n, l.streams, k);
    var left := Cell(GroupOf(l, words, n, g), l.streams, l.blocks, l.lanes, k, lane);
    var right := Cell(words, n * l.streams, l.blocks, l.lanes, g * l.streams + k, lane);
    forall x | 0 <= x < |left| ensures left[x] == right[x] {
      SameEntry(l, words, n, g, k, lane, x);
    }
  }

  // ---- the corpus's checksum, by groups ---------------------------------------

  lemma SameAdded(l: Launch, words: seq<Word>, n: nat, g: nat, k: nat, lane: nat)
    requires l.a.Valid() && 0 < l.blocks && |words| == n * GroupWords(l) && g < n && k < l.streams && lane < l.lanes
    ensures WholeView(l, words, n).Valid(l.a) && l.ViewOf(GroupOf(l, words, n, g)).Valid(l.a)
    ensures Row(AddedBy(l.a, l.ViewOf(GroupOf(l, words, n, g)), l.iterations), k)(lane)
      == Row(AddedBy(l.a, WholeView(l, words, n), l.iterations), g * l.streams + k)(lane)
  {
    hide Shaped, Cell, CellSum, GroupOf, Algorithm.Valid, Algorithm.Laid;
    SameCell(l, words, n, g, k, lane);
  }

  /** Every group of a corpus is one a launch can be given. */
  lemma GroupsHold(l: Launch, words: seq<Word>, n: nat)
    requires l.a.Valid() && 0 < l.blocks && 0 < l.lanes && |words| == n * GroupWords(l)
    ensures l.Holds(GroupsOf(l, words, n)) && WholeView(l, words, n).Valid(l.a)
  {
    WholeShaped(l, words, n);
    hide GroupOf, Algorithm.Valid, Algorithm.Laid;
  }

  lemma SameRow(l: Launch, words: seq<Word>, n: nat, g: nat, k: nat)
    requires l.a.Valid() && 0 < l.blocks && 0 < l.lanes && |words| == n * GroupWords(l) && g < n && k < l.streams
    ensures WholeView(l, words, n).Valid(l.a) && l.ViewOf(GroupOf(l, words, n, g)).Valid(l.a)
    ensures RowSums(AddedBy(l.a, l.ViewOf(GroupOf(l, words, n, g)), l.iterations), l.lanes)(k)
      == RowSums(AddedBy(l.a, WholeView(l, words, n), l.iterations), l.lanes)(g * l.streams + k)
  {
    SameAdded(l, words, n, g, k, 0);
    hide GroupOf, GroupWords, WholeView, AddedBy, Row, Big, Algorithm.Valid, Algorithm.Laid, View.Valid, Launch.ViewOf;
    var f := Row(AddedBy(l.a, l.ViewOf(GroupOf(l, words, n, g)), l.iterations), k);
    var h := Row(AddedBy(l.a, WholeView(l, words, n), l.iterations), g * l.streams + k);
    forall lane: nat | lane < l.lanes ensures f(lane) == h(lane) {
      SameAdded(l, words, n, g, k, lane);
    }
    BigExt(f, h, l.lanes);
  }

  /** A group's checksum is that of its own slots. */
  lemma GroupSumIs(l: Launch, words: seq<Word>, n: nat, g: nat)
    requires l.a.Valid() && 0 < l.blocks && 0 < l.lanes && |words| == n * GroupWords(l) && g < n
    ensures l.ViewOf(GroupOf(l, words, n, g)).Valid(l.a)
    ensures GroupSum(l, GroupOf(l, words, n, g))
      == Big(RowSums(AddedBy(l.a, l.ViewOf(GroupOf(l, words, n, g)), l.iterations), l.lanes), l.streams)
  {
    GroupsHold(l, words, n);
    assert GroupsOf(l, words, n)[g] == GroupOf(l, words, n, g);
    hide GroupOf, GroupWords, AddedBy, RowSums, Big, Algorithm.Valid, Algorithm.Laid, View.Valid;
  }

  /** A group's checksum is its slots' part of the corpus's. */
  lemma GroupIsSlots(l: Launch, words: seq<Word>, n: nat, g: nat)
    requires l.a.Valid() && 0 < l.blocks && 0 < l.lanes && |words| == n * GroupWords(l) && g < n
    requires WholeView(l, words, n).Valid(l.a)
    ensures GroupSum(l, GroupOf(l, words, n, g))
      == Big((k: nat) => RowSums(AddedBy(l.a, WholeView(l, words, n), l.iterations), l.lanes)(g * l.streams + k),
        l.streams)
  {
    hide GroupOf, GroupWords, GroupSum, WholeView, AddedBy, RowSums, Big, Algorithm.Valid, Algorithm.Laid, View.Valid;
    hide Launch.ViewOf;
    GroupSumIs(l, words, n, g);
    var rows := RowSums(AddedBy(l.a, WholeView(l, words, n), l.iterations), l.lanes);
    var f := RowSums(AddedBy(l.a, l.ViewOf(GroupOf(l, words, n, g)), l.iterations), l.lanes);
    var h := (k: nat) => rows(g * l.streams + k);
    forall k: nat | k < l.streams ensures f(k) == h(k) {
      SameRow(l, words, n, g, k);
    }
    BigExt(f, h, l.streams);
  }

  /** The groups' checksums add up to the whole corpus's. */
  lemma GroupsAddUp(l: Launch, words: seq<Word>, n: nat)
    requires l.a.Valid() && 0 < l.blocks && 0 < l.lanes && |words| == n * GroupWords(l)
    requires WholeView(l, words, n).Valid(l.a)
    ensures SumOver(GroupSums(l), GroupsOf(l, words, n)) == ViewSum(l.a, WholeView(l, words, n), l.iterations,
      n * l.streams)
  {
    hide GroupOf, GroupWords, GroupSum, AddedBy, RowSums, Big, Algorithm.Valid, Algorithm.Laid, View.Valid;
    var rows := RowSums(AddedBy(l.a, WholeView(l, words, n), l.iterations), l.lanes);
    var f := (g: nat) => Big((k: nat) => rows(g * l.streams + k), l.streams);
    var groups := GroupsOf(l, words, n);
    forall g: nat | g < n ensures GroupSums(l)(groups[g]) == f(g) {
      GroupIsSlots(l, words, n, g);
    }
    SumOverIsBig(GroupSums(l), groups, f, n);
    assert groups[..n] == groups;
    BigRows(rows, n, l.streams);
  }

  // ---- devices ----------------------------------------------------------------

  /** What the tuner chooses and the calibrated repeat count make a legal launch,
      for lane counts the cap is a multiple of. */
  lemma ChosenIsLegal(l: Launch, c: Geometry.Context, held: nat)
    requires Geometry.Sound(c, held, l.global, l.local) && c.lanes == l.lanes
    requires Geometry.Max(Geometry.MAX_LOCAL, l.lanes) % l.lanes == 0 && l.repeats % 2 == 1
    requires l.a.Valid() && 0 < l.blocks && 0 < l.iterations
    ensures l.Legal()
  {
    Geometry.SoundIsOk(c, held, l.global, l.local);
    hide Geometry.Sound, Algorithm.Valid, Algorithm.Laid;
  }

  /** A legal launch meets what the pipeline asks of a kernel, for every chunk. */
  lemma LaunchIsLawful(l: Launch, c: Protocol.Config, groups: seq<seq<Word>>, n: nat, i: nat)
    requires l.Legal() && l.Holds(groups) && 0 < c.chunks && i < n && c.host == Slice(groups, n, i)
    requires forall g: seq<seq<Word>> :: c.launch(g) == Partials(l, g)
    ensures forall t: nat :: Folded(c.launch(c.Chunk(t))) == SumOver(GroupSums(l), c.Chunk(t))
  {
    hide Launch.Legal, Partials, GroupSums, View.Valid, Folded;
    forall t: nat ensures Folded(c.launch(c.Chunk(t))) == SumOver(GroupSums(l), c.Chunk(t)) {
      SliceHolds(l, groups, n, i);
      SliceHolds(l, c.host, c.chunks, t % c.chunks);
      LaunchFolds(l, c.Chunk(t));
    }
  }

  /** Devices that hold a corpus between them, each with launches of its own but
      all of the same hash. */
  ghost predicate Hold(ctx: seq<Device>, l: Launch, groups: seq<seq<Word>>) {
    forall i :: 0 <= i < |ctx| ==>
      ctx[i].c.host == Slice(groups, |ctx|, i) && forall g: seq<Word> :: ctx[i].value(g) == GroupSum(l, g)
  }

  lemma {:induction false} SameValues(u: seq<Word> -> Sum, v: seq<Word> -> Sum, s: seq<seq<Word>>)
    requires forall g: seq<Word> :: u(g) == v(g)
    ensures SumOver(u, s) == SumOver(v, s)
  {
    if s != [] {
      SameValues(u, v, s[..|s| - 1]);
    }
  }

  /** One pass over all the devices is the sum of all the groups. */
  lemma DevicesCover(ctx: seq<Device>, l: Launch, groups: seq<seq<Word>>)
    requires Hold(ctx, l, groups) && 0 < |ctx|
    ensures PassSum(ctx) == SumOver(GroupSums(l), groups)
  {
    hide GroupSum, SumOver, Slice, Xor, Big;
    var f, h := i => SliceOf(ctx, i), SliceSums(GroupSums(l), groups, |ctx|);
    forall i: nat | i < |ctx| ensures f(i) == h(i) {
      SameValues(ctx[i].value, GroupSums(l), ctx[i].c.host);
    }
    BigExt(f, h, |ctx|);
    SlicesCover(GroupSums(l), groups, |ctx|);
  }

  /** A corpus as it is built for a launch's hash, of `n` groups. */
  ghost predicate BuiltFor(l: Launch, start: nat, bytes: nat, words: seq<Word>, n: nat)
    ensures BuiltFor(l, start, bytes, words, n) ==>
      |words| == n * GroupWords(l) && l.a.Valid() && 0 < l.lanes && 0 < l.blocks
  {
    && l.a.Valid() && Built(l.a, start, bytes, l.lanes, n * l.streams, words)
    && |words| == n * GroupWords(l)
    && 0 < l.blocks == BlocksFor(l.a, bytes) && Feeds(l.a, bytes, l.iterations)
  }

  /** The oracle's checksum of it. */
  function CorpusSum(l: Launch, start: nat, bytes: nat, n: nat): Sum
    requires l.a.Valid()
  {
    RangeSum(l.a, start, n * l.streams * l.lanes, bytes, l.iterations)
  }

  /** The groups of a built corpus add up to the oracle's checksum. */
  lemma GroupsAreReference(l: Launch, start: nat, bytes: nat, words: seq<Word>, n: nat)
    requires BuiltFor(l, start, bytes, words, n)
    ensures SumOver(GroupSums(l), GroupsOf(l, words, n)) == CorpusSum(l, start, bytes, n)
  {
    hide Built, Feeds, BlocksFor, GroupWords, SumOver, ViewSum, RangeSum, GroupsOf, GroupSums, Algorithm.Valid;
    hide Algorithm.Laid, View.Valid;
    GroupsHold(l, words, n);
    GroupsAddUp(l, words, n);
    ViewSumIsRangeSum(l.a, start, bytes, WholeView(l, words, n), l.iterations);
  }

  lemma PassIsReference(ctx: seq<Device>, l: Launch, start: nat, bytes: nat, words: seq<Word>, n: nat)
    requires BuiltFor(l, start, bytes, words, n) && Hold(ctx, l, GroupsOf(l, words, n)) && 0 < |ctx|
    ensures PassSum(ctx) == CorpusSum(l, start, bytes, n)
  {
    hide BuiltFor, Hold, PassSum, CorpusSum, SumOver, GroupsOf, GroupSums, GroupWords, Algorithm.Valid, Algorithm.Laid;
    DevicesCover(ctx, l, GroupsOf(l, words, n));
    GroupsAreReference(l, start, bytes, words, n);
  }

  /** Devices ready to stream: over any number of them and any sequence of
      calls, every pass that is reported gives the oracle's checksum of the whole
      corpus. */
  method StreamDevices(ctx: seq<Device>, calls: seq<nat>, ghost l: Launch, ghost start: nat, ghost bytes: nat,
                       ghost words: seq<Word>, ghost n: nat)
    returns (ok: bool, got: seq<Sum>)
    requires Distinct(ctx) && 0 < |ctx| && forall i :: 0 <= i < |ctx| ==> ctx[i].Idle()
    requires BuiltFor(l, start, bytes, words, n) && Hold(ctx, l, GroupsOf(l, words, n))
    modifies ctx
    ensures ok <==> forall i :: 0 <= i < |ctx| ==> ctx[i].Served(old(ctx[i].made))
    ensures ok ==> |got| == Total(calls)
    ensures forall p :: 0 <= p < |got| ==> got[p] == CorpusSum(l, start, bytes, n)
    ensures ok ==> forall i :: 0 <= i < |ctx| ==> ctx[i].Spare() == old(ctx[i].made)
  {
    hide BuiltFor, Hold, PassSum, CorpusSum, GroupsOf, GroupWords, Device.Valid, Algorithm.Valid, Algorithm.Laid;
    PassIsReference(ctx, l, start, bytes, words, n);
    ok, got := Session(ctx, calls);
  }

  /** The same hash, whatever the grid and the repeats. */
  ghost predicate SameHash(l: Launch, m: Launch) {
    l.a == m.a && l.blocks == m.blocks && l.streams == m.streams && l.lanes == m.lanes && l.iterations == m.iterations
  }

  /** Device `i` of `d` is given its slice of the corpus, a grid its tuner may
      have chosen, an odd repeat count, and a kernel that runs that launch. */
  ghost predicate Planned(l: Launch, groups: seq<seq<Word>>, d: nat, i: nat, c: Protocol.Config, m: Launch,
                          tuned: Geometry.Context, held: nat)
    requires i < d
  {
    && c.Valid() && c.host == Slice(groups, d, i)
    && SameHash(l, m) && m.repeats % 2 == 1
    && tuned.lanes == m.lanes && Geometry.Sound(tuned, held, m.global, m.local)
    && forall s: seq<seq<Word>> :: c.launch(s) == Partials(m, s)
  }

  lemma SameGroupSums(l: Launch, m: Launch, groups: seq<seq<Word>>)
    requires SameHash(l, m)
    ensures SumOver(GroupSums(m), groups) == SumOver(GroupSums(l), groups)
    ensures l.Holds(groups) ==> m.Holds(groups)
  {
    hide View.Valid, ViewSum, SumOver;
    SameValues(GroupSums(m), GroupSums(l), groups);
  }

  /** A planned device's launches fold to the checksums of its chunks. */
  lemma PlanIsLawful(l: Launch, groups: seq<seq<Word>>, d: nat, i: nat, c: Protocol.Config, m: Launch,
                     tuned: Geometry.Context, held: nat)
    requires i < d && Planned(l, groups, d, i, c, m, tuned, held) && l.Holds(groups)
    requires l.a.Valid() && 0 < l.blocks && 0 < l.iterations
    requires Geometry.Max(Geometry.MAX_LOCAL, l.lanes) % l.lanes == 0
    ensures forall t: nat :: Folded(c.launch(c.Chunk(t))) == SumOver(GroupSums(l), c.Chunk(t))
  {
    hide Launch.Holds, Launch.Legal, Geometry.Sound, Partials, GroupSums, SumOver, Folded, Slice;
    hide Algorithm.Valid, Algorithm.Laid, Protocol.Config.Chunk;
    ChosenIsLegal(m, tuned, held);
    SameGroupSums(l, m, groups);
    LaunchIsLawful(m, c, groups, d, i);
    forall t: nat ensures Folded(c.launch(c.Chunk(t))) == SumOver(GroupSums(l), c.Chunk(t)) {
      SameGroupSums(l, m, c.Chunk(t));
    }
  }

  /** Every device of a measurement is planned, and starts with empty queues. */
  ghost predicate AllPlanned(l: Launch, groups: seq<seq<Word>>, configs: seq<Protocol.Config>,
                             states: seq<Protocol.State>, ls: seq<Launch>, tuned: seq<Geometry.Context>,
                               held: seq<nat>) {
    && |states| == |ls| == |tuned| == |held| == |configs|
    && forall i :: 0 <= i < |configs| ==>
      Planned(l, groups, |configs|, i, configs[i], ls[i], tuned[i], held[i]) && Protocol.Initial(configs[i], states[i])
  }

  /** Make the devices. */
  method MakeDevices(configs: seq<Protocol.Config>, states: seq<Protocol.State>, ls: seq<Launch>, x: Code,
                     drivers: seq<nat -> bool>,
                     ghost l: Launch, ghost groups: seq<seq<Word>>, ghost tuned: seq<Geometry.Context>,
                     ghost held: seq<nat>)
    returns (ctx: seq<Device>)
    requires x.Computes(l.a) && |drivers| == |configs| && l.Holds(groups)
    requires AllPlanned(l, groups, configs, states, ls, tuned, held)
    requires l.a.Valid() && 0 < l.blocks && 0 < l.lanes && 0 < l.iterations
    requires Geometry.Max(Geometry.MAX_LOCAL, l.lanes) % l.lanes == 0
    ensures |ctx| == |configs| && Distinct(ctx) && Hold(ctx, l, groups)
    ensures forall i :: 0 <= i < |ctx| ==>
      fresh(ctx[i]) && ctx[i].Idle() && ctx[i].driver == drivers[i] && ctx[i].made == 0
  {
    hide Planned, Protocol.Initial, Launch.Holds, GroupSum, Device.Valid, Algorithm.Valid, Algorithm.Laid, Slice;
    hide Code.Computes, Programmed;
    ctx := [];
    for i := 0 to |configs|
      invariant |ctx| == i && Distinct(ctx)
      invariant forall j :: 0 <= j < i ==> fresh(ctx[j]) && ctx[j].Idle()
      invariant forall j :: 0 <= j < i ==> ctx[j].driver == drivers[j] && ctx[j].made == 0
      invariant forall j :: 0 <= j < i ==> ctx[j].c == configs[j] && ctx[j].value == GroupSums(l)
    {
      PlanIsLawful(l, groups, |configs|, i, configs[i], ls[i], tuned[i], held[i]);
      PlanIsValid(l, groups, |configs|, i, configs[i], ls[i], tuned[i], held[i]);
      PlanRuns(l, groups, |configs|, i, configs[i], ls[i], tuned[i], held[i]);
      var device := new Device(configs[i], ls[i], x, GroupSums(l), states[i], drivers[i]);
      ctx := ctx + [device];
    }
    forall i | 0 <= i < |ctx| ensures ctx[i].c.host == Slice(groups, |ctx|, i) {
      PlanIsValid(l, groups, |configs|, i, configs[i], ls[i], tuned[i], held[i]);
    }
  }

  /** A planned device's kernel runs its launches on the groups it holds. */
  lemma PlanRuns(l: Launch, groups: seq<seq<Word>>, d: nat, i: nat, c: Protocol.Config, m: Launch,
                 tuned: Geometry.Context, held: nat)
    requires i < d && Planned(l, groups, d, i, c, m, tuned, held) && l.Holds(groups)
    requires l.a.Valid() && 0 < l.blocks && 0 < l.iterations
    requires 0 < l.lanes && Geometry.Max(Geometry.MAX_LOCAL, l.lanes) % l.lanes == 0
    ensures m.a == l.a && Programmed(c, m)
  {
    ChosenIsLegal(m, tuned, held);
    Divided(m);
    SameGroupSums(l, m, groups);
    SliceHolds(m, groups, d, i);
    hide Launch.Holds, Launch.Legal, Launch.Runs, Geometry.Sound, Slice, Algorithm.Valid, Algorithm.Laid;
  }

  lemma PlanIsValid(l: Launch, groups: seq<seq<Word>>, d: nat, i: nat, c: Protocol.Config, m: Launch,
                    tuned: Geometry.Context, held: nat)
    requires i < d && Planned(l, groups, d, i, c, m, tuned, held)
    ensures c.Valid() && c.host == Slice(groups, d, i)
  {
  }

  /** The streamed measurement: a built corpus over any number of devices, each
      with a chunk count and an odd repeat count of its own and any grid its
      tuner may choose, running the hash function's own kernel. It fails exactly
      if a driver call fails. Whatever the devices do in between and whatever the
      sequence of calls, every pass that is reported gives the oracle's checksum
      of the whole corpus. */
  method StreamCorpus(configs: seq<Protocol.Config>, states: seq<Protocol.State>, ls: seq<Launch>, x: Code,
                      drivers: seq<nat -> bool>, calls: seq<nat>, ghost l: Launch,
                      ghost tuned: seq<Geometry.Context>, ghost held: seq<nat>,
                      ghost start: nat, ghost bytes: nat, ghost words: seq<Word>, ghost n: nat)
    returns (ok: bool, got: seq<Sum>, ctx: seq<Device>)
    requires x.Computes(l.a) && 0 < |configs| == |drivers| && 0 < l.iterations && BuiltFor(l, start, bytes, words, n)
    requires Geometry.Max(Geometry.MAX_LOCAL, l.lanes) % l.lanes == 0
    requires AllPlanned(l, GroupsOf(l, words, n), configs, states, ls, tuned, held)
    ensures |ctx| == |configs| && forall i :: 0 <= i < |ctx| ==> ctx[i].driver == drivers[i]
    ensures ok <==> forall i :: 0 <= i < |ctx| ==> ctx[i].Served(0)
    ensures (forall i, n: nat :: 0 <= i < |drivers| ==> drivers[i](n)) ==> ok
    ensures ok ==> |got| == Total(calls)
    ensures forall p :: 0 <= p < |got| ==> got[p] == CorpusSum(l, start, bytes, n)
    ensures ok ==> forall i :: 0 <= i < |ctx| ==> ctx[i].Spare() == 0
  {
    hide BuiltFor, Hold, AllPlanned, CorpusSum, GroupsOf, GroupWords, Device.Valid, Algorithm.Valid, Algorithm.Laid;
    hide Launch.Holds, Code.Computes;
    GroupsHold(l, words, n);
    ctx := MakeDevices(configs, states, ls, x, drivers, l, GroupsOf(l, words, n), tuned, held);
    ok, got := StreamDevices(ctx, calls, l, start, bytes, words, n);
  }

  // ---- worker threads ---------------------------------------------------------

  lemma PartIndex(at: nat, from: nat, per: nat, lanes: nat)
    requires 0 < lanes && 0 < per
    ensures Owner(from * per * lanes + at, lanes, per) == from * lanes + Owner(at, lanes, per)
    ensures Offset(from * per * lanes + at, lanes, per) == Offset(at, lanes, per)
  {
    var row, lane := at / lanes, at % lanes;
    Rebuild(at, lanes);
    Rebuild(row, per);
    assert from * per * lanes + at == (from * per + row) * lanes + lane;
    Quotient(lanes, from * per + row, lane);
    assert from * per + row == (from + row / per) * per + row % per;
    Quotient(per, from + row / per, row % per);
    assert (from + row / per) * lanes == from * lanes + row / per * lanes;
  }

  /** From slot `from` on, a corpus is the corpus of the messages from there. */
  lemma PartWord(a: Algorithm, start: nat, bytes: nat, lanes: nat, from: nat, at: nat)
    requires a.Valid() && 0 < lanes
    ensures CorpusWord(a, start, bytes, lanes, from * WordsPerMessage(a, bytes) * lanes + at)
      == CorpusWord(a, (start + from * lanes) % INDICES, bytes, lanes, at)
  {
    hide Owner, Offset, Message, Pad, WordAt, WordsPerMessage, BlocksFor, Algorithm.Valid, Algorithm.Laid;
    SomeBlocks(a, bytes);
    var per := WordsPerMessage(a, bytes);
    PartIndex(at, from, per, lanes);
    ModAdd(start + from * lanes, Owner(at, lanes, per), INDICES);
  }

  lemma PartInside(slots: nat, from: nat, count: nat, size: nat)
    requires from + count <= slots
    ensures from * size + count * size <= slots * size
  {
    assert slots * size == from * size + count * size + (slots - from - count) * size;
  }

  /** The words of `count` slots from slot `from`. */
  function PartOf(words: seq<Word>, from: nat, count: nat, per: nat, lanes: nat): (r: seq<Word>)
    requires from * per * lanes + count * per * lanes <= |words|
    ensures |r| == count * per * lanes
  {
    words[from * per * lanes..from * per * lanes + count * per * lanes]
  }

  lemma PartBuilt(a: Algorithm, start: nat, bytes: nat, lanes: nat, words: seq<Word>, from: nat, count: nat, slots: nat)
    requires Built(a, start, bytes, lanes, slots, words)
    requires from * WordsPerMessage(a, bytes) * lanes + count * WordsPerMessage(a, bytes) * lanes <= |words|
    ensures Built(a, (start + from * lanes) % INDICES, bytes, lanes, count,
                  PartOf(words, from, count, WordsPerMessage(a, bytes), lanes))
  {
    hide CorpusWord, WordsPerMessage, Algorithm.Valid, Algorithm.Laid;
    var base, part := from * WordsPerMessage(a, bytes) * lanes,
      PartOf(words, from, count, WordsPerMessage(a, bytes), lanes);
    forall at | 0 <= at < |part| ensures part[at] == CorpusWord(a, (start + from * lanes) % INDICES, bytes, lanes, at) {
      assert part[at] == words[base + at];
      PartWord(a, start, bytes, lanes, from, at);
    }
  }

  /** A kernel over a built corpus gives the oracle's checksum. */
  method HashBuilt(a: Algorithm, x: Code, ghost start: nat, bytes: nat, lanes: nat, streams: nat, words: seq<Word>,
                   groups: nat, iterations: nat) returns (sum: Sum)
    requires x.Computes(a) && Built(a, start, bytes, lanes, groups * streams, words) && Feeds(a, bytes, iterations)
      && 0 < iterations
    ensures sum == RangeSum(a, start, groups * streams * lanes, bytes, iterations)
  {
    hide Code.Computes;
    SomeBlocks(a, bytes);
    ghost var v := View(words, groups * streams, BlocksFor(a, bytes), lanes);
    assert v.Valid(a);
    hide Built, Feeds, RangeSum, ViewSum, BlocksFor, Shaped;
    sum := Kernel(a, x, words, groups, BlocksFor(a, bytes), iterations, lanes, streams);
    ViewSumIsRangeSum(a, start, bytes, v, iterations);
  }

  lemma PartFits(slots: nat, from: nat, count: nat, per: nat, lanes: nat)
    requires from + count <= slots
    ensures from * per * lanes + count * per * lanes <= slots * per * lanes
  {
    PartInside(slots, from, count, per);
    PartInside(slots * per, from * per, count * per, lanes);
  }

  /** A share of a corpus of `slots` slots: it lies inside, and its reference is
      over the messages of the slots it is given. */
  predicate Fair(s: Pool.Share, start: nat, lanes: nat, streams: nat, slots: nat) {
    && s.slot + s.groups * streams <= slots
    && s.refStart == (start + s.slot * lanes) % INDICES
    && s.refCount == s.groups * streams * lanes
  }

  lemma SharesAreFair(start: nat, groups: nat, threads: nat, lanes: nat, streams: nat, i: nat, slots: nat)
    requires i < threads && groups * streams <= slots
    ensures Fair(Pool.ShareOf(start, groups, threads, lanes, streams, i), start, lanes, streams, slots)
  {
    var first, count := First(groups, threads, i), Count(groups, threads, i);
    Bounds(groups, threads, i);
    hide First, Count;
    PartInside(groups, first, count, streams);
    assert first * (lanes * streams) == first * streams * lanes;
    assert count * (lanes * streams) == count * streams * lanes;
  }

  /** A worker's kernel over what its share gives it, from the slot the share
      starts at and over as many groups, gives the share's reference. */
  method HashShare(a: Algorithm, x: Code, ghost start: nat, bytes: nat, lanes: nat, streams: nat, words: seq<Word>,
                   ghost slots: nat, s: Pool.Share, iterations: nat)
    returns (sum: Sum)
    requires x.Computes(a) && Built(a, start, bytes, lanes, slots, words)
    requires Feeds(a, bytes, iterations) && 0 < iterations && Fair(s, start, lanes, streams, slots)
    ensures sum == Pool.Reference(a, s, bytes, iterations)
  {
    hide Code.Computes, Built, Feeds, RangeSum, WordsPerMessage, Algorithm.Valid, Algorithm.Laid;
    PartFits(slots, s.slot, s.groups * streams, WordsPerMessage(a, bytes), lanes);
    PartBuilt(a, start, bytes, lanes, words, s.slot, s.groups * streams, slots);
    var part := PartOf(words, s.slot, s.groups * streams, WordsPerMessage(a, bytes), lanes);
    sum := HashBuilt(a, x, (start + s.slot * lanes) % INDICES, bytes, lanes, streams, part, s.groups, iterations);
  }

  /** worker_reference: the oracle over a worker's own share, unless a reference
      for the whole corpus was supplied. */
  method WorkerReference(a: Algorithm, x: Code, s: Pool.Share, bytes: nat, n: nat, supplied: bool) returns (sum: Sum)
    requires x.Computes(a) && Feeds(a, bytes, n) && 0 < n
    ensures sum == if supplied then Zero else Pool.Reference(a, s, bytes, n)
  {
    hide Code.Computes, RangeSum, Algorithm.Valid, Algorithm.Laid, Feeds;
    if supplied {
      return Zero;
    }
    var out := new Sum[1](_ => Zero);
    Oracle.ReferenceChecksums(a, x, s.refStart, s.refCount, bytes, [n], out, 0);
    sum := out[0];
  }

  /** Every worker's calls gave its share's reference. */
  ghost predicate AllReferences(refs: seq<Sum>, outputs: seq<seq<Sum>>) {
    |refs| == |outputs| && forall i, r :: 0 <= i < |outputs| && 0 <= r < |outputs[i]| ==> outputs[i][r] == refs[i]
  }

  lemma ReferencesAreRight(supplied: bool, expected: seq<Sum>, whole: Sum, reps: nat, refs: seq<Sum>,
                           outputs: seq<seq<Sum>>)
    requires |outputs| == |expected| && Pool.Called(outputs, reps) && AllReferences(refs, outputs)
    requires if supplied then whole == Folded(refs) else expected == refs
    ensures Pool.Right(supplied, expected, whole, reps, outputs)
  {
    hide Folded;
    if supplied && 0 < reps {
      assert seq(|outputs|, i requires 0 <= i < |outputs| => outputs[i][0]) == refs;
    }
  }

  /** Messages of the whole groups of a corpus. */
  function GroupMessages(slots: nat, lanes: nat, streams: nat): nat
    requires 0 < streams
  {
    slots / streams * (lanes * streams)
  }

  /** Every worker of a pool, and what its kernel gives on its share. */
  method RunWorkers(a: Algorithm, x: Code, start: nat, bytes: nat, lanes: nat, streams: nat, words: seq<Word>,
                    slots: nat, shares: seq<Pool.Share>, iterations: nat, reps: nat, supplied: bool)
    returns (w: seq<Pool.Worker>, outputs: seq<seq<Sum>>, ghost expected: seq<Sum>, ghost refs: seq<Sum>)
    requires x.Computes(a) && Built(a, start, bytes, lanes, slots, words) && Feeds(a, bytes, iterations)
    requires 0 < iterations && 0 < lanes && 0 < streams
    requires forall i :: 0 <= i < |shares| ==> Fair(shares[i], start, lanes, streams, slots)
    ensures |outputs| == |w| == |refs| == |shares| && Pool.Crew(w, expected) && Pool.Called(outputs, reps)
    ensures fresh(w)
    ensures AllReferences(refs, outputs) && (!supplied ==> expected == refs)
    ensures forall j :: 0 <= j < |shares| ==> refs[j] == Pool.Reference(a, shares[j], bytes, iterations)
  {
    hide Code.Computes, Built, Feeds, Pool.Reference, RangeSum, Fair, Algorithm.Valid, Algorithm.Laid;
    w, outputs, expected, refs := [], [], [], [];
    for i := 0 to |shares|
      invariant |outputs| == |w| == |refs| == i && Pool.Crew(w, expected) && Pool.Called(outputs, reps)
      invariant fresh(w)
      invariant AllReferences(refs, outputs) && (!supplied ==> expected == refs)
      invariant forall j :: 0 <= j < i ==> refs[j] == Pool.Reference(a, shares[j], bytes, iterations)
    {
      var value := WorkerReference(a, x, shares[i], bytes, iterations, supplied);
      var sum := HashShare(a, x, start, bytes, lanes, streams, words, slots, shares[i], iterations);
      var worker := new Pool.Worker(value);
      w, expected, outputs, refs := w + [worker], expected + [value], outputs + [seq(reps, _ => sum)], refs + [sum];
    }
  }

  /** A pool of workers whose kernel is the template is always content, at any
      thread count and repetition count, with references of its own or with the
      right one supplied for the whole corpus. */
  method CorrectKernelPasses(a: Algorithm, x: Code, start: nat, bytes: nat, lanes: nat, streams: nat, words: seq<Word>,
                             slots: nat, asked: nat, iterations: nat, reps: nat, supplied: bool, whole: Sum)
    returns (ok: bool)
    requires x.Computes(a) && Built(a, start, bytes, lanes, slots, words) && Feeds(a, bytes, iterations)
    requires 0 < iterations && 0 < lanes && 0 < streams
    requires supplied ==> whole == RangeSum(a, start, GroupMessages(slots, lanes, streams), bytes, iterations)
    ensures ok
  {
    hide Code.Computes, Built, Feeds, Pool.Reference, Pool.ShareOf, RangeSum, Fair, Folded, Pool.Right;
    hide Algorithm.Valid, Algorithm.Laid;
    GroupsOfSlots(slots, lanes, streams);
    var shares := Pool.Cut(start, slots * lanes, asked, lanes, streams);
    forall i | 0 <= i < |shares| ensures Fair(shares[i], start, lanes, streams, slots) {
      SharesAreFair(start, slots / streams, |shares|, lanes, streams, i, slots);
    }
    ghost var expected, refs;
    var w, outputs;
    w, outputs, expected, refs :=
      RunWorkers(a, x, start, bytes, lanes, streams, words, slots, shares, iterations, reps, supplied);
    Pool.ReferencesFold(a, start, slots / streams, lanes, streams, bytes, iterations, refs);
    ReferencesAreRight(supplied, expected, whole, reps, refs, outputs);
    ok := Pool.PoolRun(w, expected, supplied, whole, reps, outputs);
  }

  lemma GroupsOfSlots(slots: nat, lanes: nat, streams: nat)
    requires 0 < lanes && 0 < streams
    ensures 0 < lanes * streams && slots * lanes / (lanes * streams) == slots / streams
    ensures slots / streams * streams <= slots
  {
    var q, r := slots / streams, slots % streams;
    Rebuild(slots, streams);
    assert slots * lanes == q * (lanes * streams) + r * lanes;
    Less(r, streams, lanes);
    Divides(slots * lanes, lanes * streams, q, r * lanes);
  }

  lemma Less(r: nat, streams: nat, lanes: nat)
    requires r < streams && 0 < lanes
    ensures r * lanes < lanes * streams
  {
    assert (r + 1) * lanes == r * lanes + lanes;
    ProductGrows(r + 1, streams, lanes, lanes);
  }
}
