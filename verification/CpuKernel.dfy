/**
 The CPU kernel template, for any number of lanes and streams: a vector holds
 one value per lane, a group is `streams` consecutive slots hashed side by side,
 and digests stay in registers from iteration to iteration.
 */
module CpuKernel {
  import opened Arithmetic
  import opened Checksums
  import opened Algorithms
  import opened Workload
  import opened Words
  import opened Corpus
  import opened Chain
  import opened Cells
  import opened Hashes

  /** A vector of digests, one per lane. */
  type Vec = seq<seq<Word>>

  /** The corpus as a kernel is handed it. */
  datatype View = View(words: seq<Word>, slots: nat, blocks: nat, lanes: nat) {
    ghost predicate Valid(a: Algorithm) {
      && a.Valid() && 0 < blocks && 0 < lanes
      && Shaped(words, slots, blocks, lanes)
    }

    function Message(slot: nat, lane: nat): (m: seq<Word>)
      requires Shaped(words, slots, blocks, lanes) && slot < slots && lane < lanes
      ensures |m| == blocks * WORDS_PER_BLOCK
    {
      Cell(words, slots, blocks, lanes, slot, lane)
    }
  }

  // ---- vectors ----------------------------------------------------------------

  /** The head words of a slot's messages, from the corpus. */
  function LoadHead(a: Algorithm, v: View, slot: nat): Vec
    requires v.Valid(a) && slot < v.slots
  {
    seq(v.lanes, l requires 0 <= l < v.lanes =>
      LoadBlock(v.words, v.slots, v.blocks, v.lanes, slot, 0, l)[..a.digestWords])
  }

  /** What one block of one lane of a slot must give. */
  function CompressedLane(a: Algorithm, v: View, slot: nat, b: nat, fb: seq<Word>, h: seq<Word>, lane: nat): seq<Word>
    requires v.Valid(a) && slot < v.slots && b < v.blocks && lane < v.lanes && |fb| == a.digestWords
  {
    a.compress(h, BlockOf(fb, LoadBlock(v.words, v.slots, v.blocks, v.lanes, slot, b, lane), b))
  }

  /** What one block of every lane of a slot must give. */
  function Compressed(a: Algorithm, v: View, slot: nat, b: nat, fb: Vec, h: Vec): (r: Vec)
    requires v.Valid(a) && slot < v.slots && b < v.blocks && |fb| == |h| == v.lanes
    requires forall l :: 0 <= l < v.lanes ==> |fb[l]| == a.digestWords
    ensures |r| == v.lanes
  {
    seq(v.lanes, l requires 0 <= l < v.lanes => CompressedLane(a, v, slot, b, fb[l], h[l], l))
  }

  /** What the feedback registers of a slot must hold before hash `it`. */
  ghost function Heads(a: Algorithm, v: View, slot: nat, it: nat): (r: Vec)
    requires v.Valid(a) && slot < v.slots
    ensures |r| == v.lanes && forall l :: 0 <= l < v.lanes ==> |r[l]| == a.digestWords
  {
    Enough(a, v);
    seq(v.lanes, l requires 0 <= l < v.lanes => Head(a, v.Message(slot, l), it))
  }

  /** What the state registers of a slot must hold after `b` blocks of hash `it`. */
  ghost function States(a: Algorithm, v: View, slot: nat, it: nat, b: nat): (r: Vec)
    requires v.Valid(a) && slot < v.slots && b <= v.blocks
    ensures |r| == v.lanes
  {
    Enough(a, v);
    assert b * WORDS_PER_BLOCK <= v.blocks * WORDS_PER_BLOCK;
    seq(v.lanes, l requires 0 <= l < v.lanes =>
      AfterBlocks(a, Head(a, v.Message(slot, l), it), v.Message(slot, l), b))
  }

  lemma Enough(a: Algorithm, v: View)
    requires v.Valid(a)
    ensures a.digestWords <= WORDS_PER_BLOCK <= v.blocks * WORDS_PER_BLOCK
  {
  }

  /** One block of one message. */
  lemma MessageCarries(a: Algorithm, v: View, fb: seq<Word>, slot: nat, lane: nat, b: nat)
    requires v.Valid(a) && slot < v.slots && lane < v.lanes && b < v.blocks && |fb| == a.digestWords
    ensures |fb| <= |v.Message(slot, lane)| && b * WORDS_PER_BLOCK + WORDS_PER_BLOCK <= |v.Message(slot, lane)|
    ensures AfterBlocks(a, fb, v.Message(slot, lane), b + 1) == a.compress(AfterBlocks(a, fb, v.Message(slot, lane), b),
      BlockOf(fb, LoadBlock(v.words, v.slots, v.blocks, v.lanes, slot, b, lane), b))
  {
    hide Shaped, Cell, LoadBlock, BlockOf, AfterBlocks;
    Enough(a, v);
    BlockCarries(a, fb, v.words, v.slots, v.blocks, v.lanes, slot, b, lane);
  }

  lemma HeadsLoaded(a: Algorithm, v: View, slot: nat)
    requires v.Valid(a) && slot < v.slots
    ensures LoadHead(a, v, slot) == Heads(a, v, slot, 0)
  {
    hide Shaped, Cell, LoadBlock;
    Enough(a, v);
    var left, right := LoadHead(a, v, slot), Heads(a, v, slot, 0);
    forall l | 0 <= l < v.lanes ensures left[l] == right[l] {
      LoadIsPart(v.words, v.slots, v.blocks, v.lanes, slot, 0, l);
    }
  }

  lemma BlockStepped(a: Algorithm, v: View, slot: nat, it: nat, b: nat)
    requires v.Valid(a) && slot < v.slots && b < v.blocks
    ensures Compressed(a, v, slot, b, Heads(a, v, slot, it), States(a, v, slot, it, b)) == States(a, v, slot, it, b + 1)
  {
    hide Shaped, Cell, LoadBlock, AfterBlocks, BlockOf, Head, Algorithm.Valid, Algorithm.Laid;
    Enough(a, v);
    var left := Compressed(a, v, slot, b, Heads(a, v, slot, it), States(a, v, slot, it, b));
    var right := States(a, v, slot, it, b + 1);
    forall l | 0 <= l < v.lanes ensures left[l] == right[l] {
      BlockCarries(a, Head(a, v.Message(slot, l), it), v.words, v.slots, v.blocks, v.lanes, slot, b, l);
    }
  }

  lemma StatesAreWhole(a: Algorithm, v: View, slot: nat, it: nat, b: nat)
    requires v.Valid(a) && slot < v.slots && b <= v.blocks
    ensures forall l :: 0 <= l < v.lanes ==> |States(a, v, slot, it, b)[l]| == a.digestWords
  {
    hide Shaped, Cell, AbsorbWords, Head, Algorithm.Valid, Algorithm.Laid, Fits;
    Enough(a, v);
    forall l | 0 <= l < v.lanes ensures |States(a, v, slot, it, b)[l]| == a.digestWords {
      DigestAfter(a, Head(a, v.Message(slot, l), it), v.Message(slot, l), b);
    }
  }

  /** The digest a lane of a slot feeds back into hash `it`. */
  ghost function Feedback(a: Algorithm, v: View, slot: nat, lane: nat, it: nat): (h: seq<Word>)
    requires v.Valid(a) && slot < v.slots && lane < v.lanes
    ensures |h| == a.digestWords
  {
    Enough(a, v);
    Head(a, v.Message(slot, lane), it)
  }

  /** Its chaining value after `b` blocks of that hash. */
  ghost function Chaining(a: Algorithm, v: View, slot: nat, lane: nat, it: nat, b: nat): (h: seq<Word>)
    requires v.Valid(a) && slot < v.slots && lane < v.lanes && b <= v.blocks
  {
    Enough(a, v);
    assert b * WORDS_PER_BLOCK <= v.blocks * WORDS_PER_BLOCK;
    AfterBlocks(a, Head(a, v.Message(slot, lane), it), v.Message(slot, lane), b)
  }

  lemma ChainingEnds(a: Algorithm, v: View, slot: nat, lane: nat, it: nat)
    requires v.Valid(a) && slot < v.slots && lane < v.lanes
    ensures Chaining(a, v, slot, lane, it, 0) == a.iv
    ensures Chaining(a, v, slot, lane, it, v.blocks) == Feedback(a, v, slot, lane, it + 1)
  {
    hide Shaped, Cell, AfterBlocks, Head, Algorithm.Valid, Algorithm.Laid;
    Enough(a, v);
    AllBlocks(a, v.Message(slot, lane), v.blocks, it);
  }

  lemma ChainingSteps(a: Algorithm, v: View, slot: nat, lane: nat, it: nat, b: nat)
    requires v.Valid(a) && slot < v.slots && lane < v.lanes && b < v.blocks
    ensures |Chaining(a, v, slot, lane, it, b)| == a.digestWords
    ensures CompressedLane(a, v, slot, b, Feedback(a, v, slot, lane, it), Chaining(a, v, slot, lane, it, b), lane)
      == Chaining(a, v, slot, lane, it, b + 1)
  {
    hide Shaped, Cell, AfterBlocks, Head, LoadBlock, BlockOf, Fits, Algorithm.Valid, Algorithm.Laid;
    Enough(a, v);
    DigestAfter(a, Head(a, v.Message(slot, lane), it), v.Message(slot, lane), b);
    MessageCarries(a, v, Head(a, v.Message(slot, lane), it), slot, lane, b);
  }

  /** One block of one lane, as the template computes it. */
  method StepLane(a: Algorithm, x: Code, v: View, slot: nat, b: nat, fb: seq<Word>, h: seq<Word>, lane: nat)
    returns (r: seq<Word>)
    requires x.Computes(a) && v.Valid(a) && slot < v.slots && b < v.blocks && lane < v.lanes
    requires |fb| == |h| == a.digestWords
    ensures r == CompressedLane(a, v, slot, b, fb, h, lane)
  {
    hide Code.Computes, Shaped, LoadBlock, BlockOf, Algorithm.Valid, Algorithm.Laid;
    r := TemplateStep(x, a, h, fb, LoadBlock(v.words, v.slots, v.blocks, v.lanes, slot, b, lane), b);
  }

  /** One block of every lane of a slot. */
  method StepBlock(a: Algorithm, x: Code, v: View, slot: nat, b: nat, fb: Vec, h: Vec) returns (r: Vec)
    requires x.Computes(a) && v.Valid(a) && slot < v.slots && b < v.blocks && |fb| == |h| == v.lanes
    requires forall l :: 0 <= l < v.lanes ==> |fb[l]| == |h[l]| == a.digestWords
    ensures r == Compressed(a, v, slot, b, fb, h)
  {
    hide Code.Computes, CompressedLane, View.Valid, Algorithm.Valid, Algorithm.Laid;
    r := [];
    for l := 0 to v.lanes
      invariant |r| == l && forall i :: 0 <= i < l ==> r[i] == CompressedLane(a, v, slot, b, fb[i], h[i], i)
    {
      var next := StepLane(a, x, v, slot, b, fb[l], h[l], l);
      r := r + [next];
    }
  }

  lemma HashEnds(a: Algorithm, v: View, slot: nat, it: nat)
    requires v.Valid(a) && slot < v.slots
    ensures States(a, v, slot, it, 0) == seq(v.lanes, l => a.iv)
    ensures States(a, v, slot, it, v.blocks) == Heads(a, v, slot, it + 1)
  {
    hide Shaped, Cell, AfterBlocks, Head, Algorithm.Valid, Algorithm.Laid;
    Enough(a, v);
    var left, right := States(a, v, slot, it, v.blocks), Heads(a, v, slot, it + 1);
    var first, iv := States(a, v, slot, it, 0), seq(v.lanes, l => a.iv);
    forall l | 0 <= l < v.lanes ensures left[l] == right[l] && first[l] == iv[l] {
      AllBlocks(a, v.Message(slot, l), v.blocks, it);
    }
  }

  // ---- the streams of a group -------------------------------------------------

  ghost predicate Fed(a: Algorithm, v: View, base: nat, fb: seq<Vec>, it: nat) {
    && v.Valid(a) && base + |fb| <= v.slots
    && forall k :: 0 <= k < |fb| ==> fb[k] == Heads(a, v, base + k, it)
  }

  ghost predicate Stepped(a: Algorithm, v: View, base: nat, h: seq<Vec>, it: nat, b: nat, k: nat) {
    && v.Valid(a) && base + |h| <= v.slots && b <= v.blocks && k <= |h|
    && (0 < k ==> b < v.blocks)
    && forall i :: 0 <= i < |h| ==> h[i] == States(a, v, base + i, it, if i < k then b + 1 else b)
  }

  /** One block of every stream. */
  method EachStream(a: Algorithm, x: Code, v: View, base: nat, ghost it: nat, b: nat, fb: array<Vec>, h: array<Vec>)
    requires x.Computes(a) && fb != h && fb.Length == h.Length && b < v.blocks
    requires Fed(a, v, base, fb[..], it) && Stepped(a, v, base, h[..], it, b, 0)
    modifies h
    ensures Stepped(a, v, base, h[..], it, b + 1, 0)
  {
    hide Code.Computes, Heads, States, Compressed, View.Valid;
    for k := 0 to h.Length
      invariant Stepped(a, v, base, h[..], it, b, k)
    {
      BlockStepped(a, v, base + k, it, b);
      StatesAreWhole(a, v, base + k, it, b);
      var next := StepBlock(a, x, v, base + k, b, fb[k], h[k]);
      h[k] := next;
    }
  }

  /** One hash of every stream's messages, the digests fed back. */
  method HashOnce(a: Algorithm, x: Code, v: View, base: nat, ghost it: nat, fb: array<Vec>, h: array<Vec>)
    requires x.Computes(a) && fb != h && fb.Length == h.Length && Fed(a, v, base, fb[..], it)
    modifies fb, h
    ensures Fed(a, v, base, fb[..], it + 1) && h[..] == fb[..]
  {
    hide Code.Computes, Heads, States, View.Valid;
    for k := 0 to h.Length
      invariant Fed(a, v, base, fb[..], it)
      invariant forall i :: 0 <= i < k ==> h[i] == States(a, v, base + i, it, 0)
    {
      HashEnds(a, v, base + k, it);
      h[k] := seq(v.lanes, l => a.iv);
    }
    for b := 0 to v.blocks
      invariant Fed(a, v, base, fb[..], it)
      invariant Stepped(a, v, base, h[..], it, b, 0)
    {
      EachStream(a, x, v, base, it, b, fb, h);
    }
    for k := 0 to h.Length
      invariant Stepped(a, v, base, h[..], it, v.blocks, 0)
      invariant forall i :: 0 <= i < k ==> fb[i] == h[i] == Heads(a, v, base + i, it + 1)
    {
      HashEnds(a, v, base + k, it);
      fb[k] := h[k];
    }
  }

  /** A group: the streams side by side, hashed `iterations` times. */
  method HashGroup(a: Algorithm, x: Code, v: View, base: nat, streams: nat, iterations: nat) returns (r: seq<Vec>)
    requires x.Computes(a) && v.Valid(a) && base + streams <= v.slots && 0 < iterations
    ensures |r| == streams
    ensures forall k :: 0 <= k < streams ==> r[k] == Heads(a, v, base + k, iterations)
  {
    hide Code.Computes, Heads, View.Valid;
    var fb := new Vec[streams];
    var h := new Vec[streams];
    for k := 0 to streams
      invariant forall i :: 0 <= i < k ==> fb[i] == Heads(a, v, base + i, 0)
    {
      HeadsLoaded(a, v, base + k);
      fb[k] := LoadHead(a, v, base + k);
    }
    for it := 0 to iterations
      invariant Fed(a, v, base, fb[..], it)
      invariant 0 < it ==> h[..] == fb[..]
    {
      HashOnce(a, x, v, base, it, fb, h);
    }
    r := h[..];
  }

  // ---- the whole corpus -------------------------------------------------------

  /** What the message in a slot and lane adds; nothing outside the corpus. */
  ghost function Added(a: Algorithm, v: View, n: nat, slot: nat, lane: nat): Sum
    requires v.Valid(a)
  {
    if slot < v.slots && lane < v.lanes then Enough(a, v); CellSum(a, v.Message(slot, lane), n) else Zero
  }

  ghost function AddedBy(a: Algorithm, v: View, n: nat): (nat, nat) -> Sum
    requires v.Valid(a)
  {
    (slot, lane) => if v.Valid(a) then Added(a, v, n, slot, lane) else Zero
  }

  /** The sum over the first `slots` slots, slot by slot. */
  ghost function ViewSum(a: Algorithm, v: View, n: nat, slots: nat): Sum
    requires v.Valid(a)
  {
    Big(RowSums(AddedBy(a, v, n), v.lanes), slots)
  }

  lemma HeadAdds(a: Algorithm, v: View, slot: nat, n: nat, lane: nat)
    requires v.Valid(a) && slot < v.slots && lane < v.lanes && 0 < n
    ensures Slots(Heads(a, v, slot, n)[lane]) == Added(a, v, n, slot, lane)
  {
    hide ChainDigest, Shaped, Cell, Slots, Algorithm.Valid, Algorithm.Laid;
    Enough(a, v);
  }

  /** XOR a slot's digests into the lane accumulators. */
  method Accumulate(a: Algorithm, v: View, n: nat, slot: nat, h: Vec, acc: seq<Sum>) returns (r: seq<Sum>)
    requires v.Valid(a) && slot < v.slots && 0 < n && h == Heads(a, v, slot, n)
    requires |acc| == v.lanes && forall l: nat :: l < v.lanes ==> acc[l] == ColumnSums(AddedBy(a, v, n), slot)(l)
    ensures |r| == v.lanes && forall l: nat :: l < v.lanes ==> r[l] == ColumnSums(AddedBy(a, v, n), slot + 1)(l)
  {
    r := seq(v.lanes, l requires 0 <= l < v.lanes => Xor(acc[l], Slots(h[l])));
    hide Xor, Slots, View.Valid, Added;
    forall l: nat | l < v.lanes ensures r[l] == ColumnSums(AddedBy(a, v, n), slot + 1)(l) {
      HeadAdds(a, v, slot, n, l);
    }
  }

  /** The accumulators hold the sums of the first `slots` slots, lane by lane. */
  ghost predicate Accumulated(a: Algorithm, v: View, n: nat, slots: nat, acc: seq<Sum>)
    ensures Accumulated(a, v, n, slots, acc) ==> v.Valid(a) && |acc| == v.lanes
  {
    && v.Valid(a) && |acc| == v.lanes
    && forall l: nat :: l < v.lanes ==> acc[l] == ColumnSums(AddedBy(a, v, n), slots)(l)
  }

  /** Hash a group and add its streams. */
  method AddGroup(a: Algorithm, x: Code, v: View, n: nat, base: nat, streams: nat, acc: seq<Sum>)
    returns (r: seq<Sum>)
    requires x.Computes(a) && 0 < n && base + streams <= v.slots && Accumulated(a, v, n, base, acc)
    ensures Accumulated(a, v, n, base + streams, r)
  {
    hide Code.Computes, Heads, Big, AddedBy, View.Valid;
    var h := HashGroup(a, x, v, base, streams, n);
    r := acc;
    for k := 0 to streams
      invariant Accumulated(a, v, n, base + k, r)
    {
      r := Accumulate(a, v, n, base + k, h[k], r);
    }
  }

  /** Fold the lanes. */
  method FoldLanes(a: Algorithm, v: View, n: nat, slots: nat, acc: seq<Sum>) returns (r: Sum)
    requires Accumulated(a, v, n, slots, acc)
    ensures r == ViewSum(a, v, n, slots)
  {
    hide AddedBy, Xor, View.Valid;
    ghost var f := AddedBy(a, v, n);
    r := Zero;
    for l := 0 to v.lanes
      invariant r == Big(ColumnSums(f, slots), l)
    {
      r := Xor(r, acc[l]);
    }
    BigTranspose(f, slots, v.lanes);
  }

  lemma NoneAccumulated(a: Algorithm, v: View, n: nat)
    requires v.Valid(a)
    ensures Accumulated(a, v, n, 0, seq(v.lanes, l => Zero))
  {
    hide AddedBy, View.Valid;
  }

  lemma GroupInside(g: nat, groups: nat, streams: nat)
    requires g < groups
    ensures g * streams + streams <= groups * streams && (g + 1) * streams == g * streams + streams
  {
    assert groups * streams == g * streams + (groups - g) * streams;
    assert (groups - g) * streams == streams + (groups - g - 1) * streams;
  }

  /** Group after group, the streams of each. */
  method AllGroups(a: Algorithm, x: Code, v: View, n: nat, groups: nat, streams: nat) returns (acc: seq<Sum>)
    requires x.Computes(a) && v.Valid(a) && 0 < n && v.slots == groups * streams
    ensures Accumulated(a, v, n, v.slots, acc)
  {
    hide Code.Computes, Accumulated, View.Valid;
    NoneAccumulated(a, v, n);
    acc := seq(v.lanes, l => Zero);
    for g := 0 to groups
      invariant Accumulated(a, v, n, g * streams, acc)
    {
      GroupInside(g, groups, streams);
      acc := AddGroup(a, x, v, n, g * streams, streams, acc);
    }
  }

  /** The template. Zero iterations or zero blocks is the XOR of nothing;
      otherwise every message of every group is counted once. */
  method Kernel(a: Algorithm, x: Code, words: seq<Word>, groups: nat, blocks: nat, iterations: nat, lanes: nat,
                streams: nat)
    returns (checksum: Sum)
    requires x.Computes(a) && 0 < lanes && Shaped(words, groups * streams, blocks, lanes)
    ensures iterations == 0 || blocks == 0 ==> checksum == Zero
    ensures 0 < iterations && 0 < blocks ==>
      checksum == ViewSum(a, View(words, groups * streams, blocks, lanes), iterations, groups * streams)
  {
    hide Code.Computes, Accumulated, ViewSum, Shaped;
    if iterations == 0 || blocks == 0 {
      return Zero;
    }
    var v := View(words, groups * streams, blocks, lanes);
    var acc := AllGroups(a, x, v, iterations, groups, streams);
    checksum := FoldLanes(a, v, iterations, v.slots, acc);
  }

  // ---- the reference value ----------------------------------------------------

  lemma AddedIsTerm(a: Algorithm, start: nat, bytes: nat, v: View, n: nat, slot: nat, lane: nat)
    requires v.Valid(a) && Built(a, start, bytes, v.lanes, v.slots, v.words) && v.blocks == BlocksFor(a, bytes)
    requires slot < v.slots && lane < v.lanes && Feeds(a, bytes, n)
    ensures Added(a, v, n, slot, lane) == Term(a, start, bytes, n, slot * v.lanes + lane)
  {
    CellSumIsTerm(a, start, bytes, v.lanes, v.slots, v.words, n, slot, lane);
    hide Built, Shaped, Term, Feeds, BlocksFor, CellSum, Cell;
  }

  lemma RowTerm(a: Algorithm, start: nat, bytes: nat, v: View, n: nat, slot: nat, lane: nat)
    requires v.Valid(a) && Built(a, start, bytes, v.lanes, v.slots, v.words) && v.blocks == BlocksFor(a, bytes)
    requires slot < v.slots && lane < v.lanes && Feeds(a, bytes, n)
    ensures Row(AddedBy(a, v, n), slot)(lane) == Terms(a, start, bytes, n)(slot * v.lanes + lane)
  {
    hide Built, Term, Feeds, BlocksFor, Added, View.Valid, Algorithm.Valid, Algorithm.Laid;
    AddedIsTerm(a, start, bytes, v, n, slot, lane);
  }

  lemma RowIsRange(a: Algorithm, start: nat, bytes: nat, v: View, n: nat, slot: nat)
    requires v.Valid(a) && Built(a, start, bytes, v.lanes, v.slots, v.words) && v.blocks == BlocksFor(a, bytes)
    requires slot < v.slots && Feeds(a, bytes, n)
    ensures RowSums(AddedBy(a, v, n), v.lanes)(slot)
      == Big((l: nat) => Terms(a, start, bytes, n)(slot * v.lanes + l), v.lanes)
  {
    hide Built, Term, Terms, Feeds, BlocksFor, AddedBy, Row, Big, View.Valid, Algorithm.Valid, Algorithm.Laid;
    var f, g := Row(AddedBy(a, v, n), slot), (l: nat) => Terms(a, start, bytes, n)(slot * v.lanes + l);
    forall l: nat | l < v.lanes ensures f(l) == g(l) {
      RowTerm(a, start, bytes, v, n, slot, l);
    }
    BigExt(f, g, v.lanes);
  }

  /** On a corpus as it is built, a kernel's sum is the oracle's checksum. */
  lemma ViewSumIsRangeSum(a: Algorithm, start: nat, bytes: nat, v: View, n: nat)
    requires v.Valid(a) && Built(a, start, bytes, v.lanes, v.slots, v.words) && v.blocks == BlocksFor(a, bytes)
    requires Feeds(a, bytes, n)
    ensures ViewSum(a, v, n, v.slots) == RangeSum(a, start, v.slots * v.lanes, bytes, n)
  {
    hide Built, Feeds, BlocksFor, Term, AddedBy, View.Valid, Xor;
    var f := RowSums(AddedBy(a, v, n), v.lanes);
    var g := (s: nat) => Big((l: nat) => Terms(a, start, bytes, n)(s * v.lanes + l), v.lanes);
    forall s: nat | s < v.slots ensures f(s) == g(s) {
      RowIsRange(a, start, bytes, v, n, s);
    }
    BigExt(f, g, v.slots);
    BigRows(Terms(a, start, bytes, n), v.slots, v.lanes);
  }
}
