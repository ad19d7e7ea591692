/**
 The SHA-NI kernel around its block step: one lane, the digest in two registers
 from hash to hash, and sums kept in quads until the words are put back in order.
 */
module ShaNiKernel {
  import opened Checksums
  import opened Algorithms
  import opened Workload
  import opened Corpus
  import opened Words
  import opened Sha1
  import opened ShaNi
  import opened Chain
  import opened Cells
  import opened CpuKernel

  /** The checksum as it is put back in order: the highest word first. */
  function InSlots(abcd: Quad, e: Quad): Sum {
    [abcd.d3, abcd.d2, abcd.d1, abcd.d0, e.d3, 0, 0, 0]
  }

  lemma SlotsOfDigest(abcd: Quad, e: Quad)
    ensures InSlots(abcd, e) == Slots(Digest(abcd, e))
  {
  }

  lemma XorSlot(a: Sum, b: Sum, i: nat)
    requires i < SLOTS
    ensures Xor(a, b)[i] == XorWord(a[i], b[i])
  {
    hide XorWord;
  }

  lemma QuadsXor(x: Quad, y: Quad, u: Quad, w: Quad)
    ensures InSlots(XorQuad(x, u), XorQuad(y, w)) == Xor(InSlots(x, y), InSlots(u, w))
  {
    var a, b := InSlots(x, y), InSlots(u, w);
    var left, right := InSlots(XorQuad(x, u), XorQuad(y, w)), Xor(a, b);
    hide XorWord, Xor;
    WordComm(0, 0);
    XorSlot(a, b, 0);
    XorSlot(a, b, 1);
    XorSlot(a, b, 2);
    XorSlot(a, b, 3);
    XorSlot(a, b, 4);
    XorSlot(a, b, 5);
    XorSlot(a, b, 6);
    XorSlot(a, b, 7);
  }

  /** A corpus of 32-bit words, one lane wide. */
  ghost predicate Usable(k: seq<Word>, iv: seq<Word>, v: View)
    ensures Usable(k, iv, v) ==> |k| == 4 && |iv| == 5 && v.Valid(Descriptor(k, iv)) && v.lanes == 1
  {
    && |k| == 4 && |iv| == 5 && v.lanes == 1 && v.Valid(Descriptor(k, iv))
    && forall i :: 0 <= i < |v.words| ==> Lane(v.words[i])
  }

  lemma LoadedLanes(k: seq<Word>, iv: seq<Word>, v: View, slot: nat, b: nat)
    requires Usable(k, iv, v) && slot < v.slots && b < v.blocks
    ensures forall j :: 0 <= j < WORDS_PER_BLOCK ==> Lane(LoadBlock(v.words, v.slots, v.blocks, v.lanes, slot, b, 0)[j])
  {
    hide Lane, Algorithm.Valid, Algorithm.Laid;
    forall j | 0 <= j < WORDS_PER_BLOCK
      ensures Lane(LoadBlock(v.words, v.slots, v.blocks, v.lanes, slot, b, 0)[j])
    {
      BlockInside(v.slots, v.blocks, v.lanes, slot, b, j, 0);
    }
  }

  /** A quad with a digest's last word on top of zeros. */
  predicate Topped(e: Quad) {
    e.d2 == e.d1 == e.d0 == 0
  }

  /** One block of one stream. */
  method BlockOnce(k: seq<Word>, iv: seq<Word>, v: View, slot: nat, b: nat, fb: Quad, fbe: Quad, h: Quad, he: Quad)
    returns (r: Quad, re: Quad)
    requires Usable(k, iv, v) && slot < v.slots && b < v.blocks && Topped(he) && Topped(fbe)
    ensures Digest(r, re) == CompressedLane(Descriptor(k, iv), v, slot, b, Digest(fb, fbe), Digest(h, he), 0)
    ensures Topped(re)
  {
    LoadedLanes(k, iv, v, slot, b);
    hide Usable, Lane, Compress, LoadBlock, Shaped, Algorithm.Valid, Algorithm.Laid;
    r, re := BlockStep(k, LoadBlock(v.words, v.slots, v.blocks, v.lanes, slot, b, 0), b == 0, fb, fbe, h, he);
  }

  /** The feedback quads of every stream of a group are ready for hash `it`. */
  ghost predicate Fed(k: seq<Word>, iv: seq<Word>, v: View, base: nat, fb: seq<Quad>, fbe: seq<Quad>, it: nat) {
    && Usable(k, iv, v) && |fb| == |fbe| && base + |fb| <= v.slots
    && forall s :: 0 <= s < |fb| ==>
      Digest(fb[s], fbe[s]) == Feedback(Descriptor(k, iv), v, base + s, 0, it) && Topped(fbe[s])
  }

  /** The first `n` streams are one block further than `b`. */
  ghost predicate Along(k: seq<Word>, iv: seq<Word>, v: View, base: nat, h: seq<Quad>, he: seq<Quad>, it: nat,
                        b: nat, n: nat) {
    && Usable(k, iv, v) && |h| == |he| && base + |h| <= v.slots && b <= v.blocks && n <= |h|
    && (0 < n ==> b < v.blocks)
    && forall s :: 0 <= s < |h| ==>
      Digest(h[s], he[s]) == Chaining(Descriptor(k, iv), v, base + s, 0, it, if s < n then b + 1 else b)
      && Topped(he[s])
  }

  /** One block of every stream. */
  method StepStreams(k: seq<Word>, iv: seq<Word>, v: View, base: nat, ghost it: nat, b: nat,
                     fb: array<Quad>, fbe: array<Quad>, h: array<Quad>, he: array<Quad>)
    requires Apart(fb, fbe, h, he) && b < v.blocks
    requires Fed(k, iv, v, base, fb[..], fbe[..], it) && Along(k, iv, v, base, h[..], he[..], it, b, 0)
    modifies h, he
    ensures Along(k, iv, v, base, h[..], he[..], it, b + 1, 0)
  {
    hide Usable, Feedback, Chaining, CompressedLane, Digest, Descriptor;
    for s := 0 to h.Length
      invariant Along(k, iv, v, base, h[..], he[..], it, b, s)
    {
      ChainingSteps(Descriptor(k, iv), v, base + s, 0, it, b);
      var next, nextE := BlockOnce(k, iv, v, base + s, b, fb[s], fbe[s], h[s], he[s]);
      h[s], he[s] := next, nextE;
    }
  }

  /** Four arrays of one entry a stream. */
  predicate Apart(fb: array<Quad>, fbe: array<Quad>, h: array<Quad>, he: array<Quad>) {
    && fb != fbe && fb != h && fb != he && fbe != h && fbe != he && h != he
    && fb.Length == fbe.Length == h.Length == he.Length
  }

  lemma InitialQuads(k: seq<Word>, iv: seq<Word>, v: View, slot: nat, it: nat)
    requires Usable(k, iv, v) && slot < v.slots
    ensures Digest(Quad(iv[0], iv[1], iv[2], iv[3]), Quad(iv[4], 0, 0, 0))
      == Chaining(Descriptor(k, iv), v, slot, 0, it, 0)
    ensures Chaining(Descriptor(k, iv), v, slot, 0, it, v.blocks) == Feedback(Descriptor(k, iv), v, slot, 0, it + 1)
  {
    hide Usable, Chaining, Feedback, View.Valid;
    ChainingEnds(Descriptor(k, iv), v, slot, 0, it);
  }

  /** Every stream's state starts from the initial one. */
  method StartHash(k: seq<Word>, iv: seq<Word>, v: View, base: nat, ghost it: nat, h: array<Quad>, he: array<Quad>)
    requires Usable(k, iv, v) && h != he && h.Length == he.Length && base + h.Length <= v.slots
    modifies h, he
    ensures Along(k, iv, v, base, h[..], he[..], it, 0, 0)
  {
    hide Usable, Chaining, Digest, Descriptor;
    for s := 0 to h.Length
      invariant forall i :: 0 <= i < s ==>
        Digest(h[i], he[i]) == Chaining(Descriptor(k, iv), v, base + i, 0, it, 0) && Topped(he[i])
    {
      InitialQuads(k, iv, v, base + s, it);
      h[s], he[s] := Quad(iv[0], iv[1], iv[2], iv[3]), Quad(iv[4], 0, 0, 0);
    }
  }

  /** Every stream's digest becomes its feedback. */
  method FeedBack(k: seq<Word>, iv: seq<Word>, v: View, base: nat, ghost it: nat,
                  fb: array<Quad>, fbe: array<Quad>, h: array<Quad>, he: array<Quad>)
    requires Apart(fb, fbe, h, he) && Along(k, iv, v, base, h[..], he[..], it, v.blocks, 0)
    modifies fb, fbe
    ensures Fed(k, iv, v, base, fb[..], fbe[..], it + 1) && h[..] == fb[..] && he[..] == fbe[..]
  {
    hide Usable, Feedback, Chaining, Digest, Descriptor;
    for s := 0 to h.Length
      invariant forall i :: 0 <= i < s ==> fb[i] == h[i] && fbe[i] == he[i]
    {
      fb[s], fbe[s] := h[s], he[s];
    }
    forall s | 0 <= s < fb.Length
      ensures Digest(fb[s], fbe[s]) == Feedback(Descriptor(k, iv), v, base + s, 0, it + 1)
    {
      InitialQuads(k, iv, v, base + s, it);
    }
  }

  /** One hash of every stream's message, the digests fed back. */
  method HashStreams(k: seq<Word>, iv: seq<Word>, v: View, base: nat, ghost it: nat,
                     fb: array<Quad>, fbe: array<Quad>, h: array<Quad>, he: array<Quad>)
    requires Apart(fb, fbe, h, he) && Fed(k, iv, v, base, fb[..], fbe[..], it)
    modifies fb, fbe, h, he
    ensures Fed(k, iv, v, base, fb[..], fbe[..], it + 1) && h[..] == fb[..] && he[..] == fbe[..]
  {
    hide Usable, Feedback, Along, Digest, Descriptor;
    StartHash(k, iv, v, base, it, h, he);
    for b := 0 to v.blocks
      invariant Fed(k, iv, v, base, fb[..], fbe[..], it)
      invariant Along(k, iv, v, base, h[..], he[..], it, b, 0)
    {
      StepStreams(k, iv, v, base, it, b, fb, fbe, h, he);
    }
    FeedBack(k, iv, v, base, it, fb, fbe, h, he);
  }

  /** The head of one message, loaded and reversed. */
  method LoadFeedback(k: seq<Word>, iv: seq<Word>, v: View, slot: nat) returns (fb: Quad, fbe: Quad)
    requires Usable(k, iv, v) && slot < v.slots
    ensures Digest(fb, fbe) == Feedback(Descriptor(k, iv), v, slot, 0, 0) && Topped(fbe)
  {
    Enough(Descriptor(k, iv), v);
    LoadIsPart(v.words, v.slots, v.blocks, v.lanes, slot, 0, 0);
    hide Usable, Shaped, Cell, LoadBlock, Descriptor;
    var first := LoadBlock(v.words, v.slots, v.blocks, v.lanes, slot, 0, 0);
    fb, fbe := Reversed(InMemory(first, 0)), Quad(first[4], 0, 0, 0);
    assert Digest(fb, fbe) == first[..5];
  }

  /** A group: the streams side by side, hashed `n` times. */
  method HashGroup(k: seq<Word>, iv: seq<Word>, v: View, base: nat, streams: nat, n: nat)
    returns (r: seq<Quad>, re: seq<Quad>)
    requires Usable(k, iv, v) && base + streams <= v.slots && 0 < n
    ensures |r| == streams && Fed(k, iv, v, base, r, re, n)
  {
    hide Usable, Feedback, Digest, Descriptor;
    var fb, fbe, h, he := new Quad[streams], new Quad[streams], new Quad[streams], new Quad[streams];
    for s := 0 to streams
      invariant forall i :: 0 <= i < s ==>
        Digest(fb[i], fbe[i]) == Feedback(Descriptor(k, iv), v, base + i, 0, 0) && Topped(fbe[i])
    {
      var first, firstE := LoadFeedback(k, iv, v, base + s);
      fb[s], fbe[s] := first, firstE;
    }
    for it := 0 to n
      invariant Fed(k, iv, v, base, fb[..], fbe[..], it)
      invariant 0 < it ==> h[..] == fb[..] && he[..] == fbe[..]
    {
      HashStreams(k, iv, v, base, it, fb, fbe, h, he);
    }
    r, re := h[..], he[..];
  }

  /** Hash a group and add its streams. */
  method AddGroup(k: seq<Word>, iv: seq<Word>, v: View, n: nat, base: nat, streams: nat, abcd: Quad, e: Quad)
    returns (r: Quad, re: Quad)
    requires Usable(k, iv, v) && base + streams <= v.slots && 0 < n
    requires InSlots(abcd, e) == ViewSum(Descriptor(k, iv), v, n, base)
    ensures InSlots(r, re) == ViewSum(Descriptor(k, iv), v, n, base + streams)
  {
    hide InSlots, Usable, ViewSum, XorQuad, Xor, Feedback, Digest, Descriptor;
    var h, he := HashGroup(k, iv, v, base, streams, n);
    r, re := abcd, e;
    for s := 0 to streams
      invariant InSlots(r, re) == ViewSum(Descriptor(k, iv), v, n, base + s)
    {
      QuadsXor(r, re, h[s], he[s]);
      OneSlot(k, iv, v, n, base + s, h[s], he[s]);
      r, re := XorQuad(r, h[s]), XorQuad(re, he[s]);
    }
  }

  /** The kernel: streams of every group in turn, sums in quads, the words put
      back in order at the end. */
  method Kernel(k: seq<Word>, iv: seq<Word>, words: seq<Word>, groups: nat, blocks: nat, iterations: nat, streams: nat)
    returns (checksum: Sum)
    requires blocks == 0 || Usable(k, iv, View(words, groups * streams, blocks, 1))
    ensures iterations == 0 || blocks == 0 ==> checksum == Zero
    ensures 0 < iterations && 0 < blocks ==>
      checksum == ViewSum(Descriptor(k, iv), View(words, groups * streams, blocks, 1), iterations, groups * streams)
  {
    hide Usable, ViewSum, Descriptor;
    if iterations == 0 || blocks == 0 {
      return Zero;
    }
    var v := View(words, groups * streams, blocks, 1);
    NoSlots(k, iv, v, iterations);
    var abcd, e := Quad(0, 0, 0, 0), Quad(0, 0, 0, 0);
    for g := 0 to groups
      invariant InSlots(abcd, e) == ViewSum(Descriptor(k, iv), v, iterations, g * streams)
    {
      GroupInside(g, groups, streams);
      abcd, e := AddGroup(k, iv, v, iterations, g * streams, streams, abcd, e);
    }
    checksum := InSlots(abcd, e);
  }

  lemma NoSlots(k: seq<Word>, iv: seq<Word>, v: View, n: nat)
    requires Usable(k, iv, v)
    ensures ViewSum(Descriptor(k, iv), v, n, 0) == Zero
  {
    hide Usable, Algorithm.Valid, Algorithm.Laid;
  }

  /** One more slot of one lane adds one digest. */
  lemma OneSlot(k: seq<Word>, iv: seq<Word>, v: View, n: nat, slot: nat, h: Quad, he: Quad)
    requires Usable(k, iv, v) && slot < v.slots && 0 < n
    requires Digest(h, he) == Feedback(Descriptor(k, iv), v, slot, 0, n)
    ensures ViewSum(Descriptor(k, iv), v, n, slot + 1) == Xor(ViewSum(Descriptor(k, iv), v, n, slot), InSlots(h, he))
  {
    hide Usable, Xor, Slots, ChainDigest, Shaped, Cell, Digest, InSlots, Algorithm.Valid, Algorithm.Laid;
    SlotsOfDigest(h, he);
    var f := Row(AddedBy(Descriptor(k, iv), v, n), slot);
    assert f(0) == InSlots(h, he);
    assert Big(f, 1) == Xor(Big(f, 0), f(0));
    XorZero(f(0));
  }

  // ---- the corpus it is given -------------------------------------------------

  /** No bits outside the mask. */
  predicate Masked(x: Word, mask: Word) {
    x & mask == x
  }

  lemma JoinMasked(x: Word, b: Byte)
    ensures Masked(Join(0, b), 0xff)
    ensures Masked(x, 0xff) ==> Masked(Join(x, b), 0xffff)
    ensures Masked(x, 0xffff) ==> Masked(Join(x, b), 0xff_ffff)
    ensures Masked(x, 0xff_ffff) ==> Masked(Join(x, b), 0xffff_ffff)
  {
  }

  lemma MaskedLane(x: Word)
    ensures Masked(x, 0xffff_ffff) ==> Lane(x)
  {
  }

  lemma LoadNext(p: seq<Byte>, n: nat)
    requires n < |p|
    ensures LoadBig(p[..0]) == 0 && LoadBig(p[..n + 1]) == Join(LoadBig(p[..n]), p[n])
  {
    assert p[..n + 1][..n] == p[..n];
  }

  lemma LoadedLane(p: seq<Byte>)
    requires |p| == 4
    ensures Lane(LoadBig(p))
  {
    hide Join, LoadBig, Lane, Masked;
    LoadNext(p, 0);
    LoadNext(p, 1);
    LoadNext(p, 2);
    LoadNext(p, 3);
    JoinMasked(0, p[0]);
    JoinMasked(LoadBig(p[..1]), p[1]);
    JoinMasked(LoadBig(p[..2]), p[2]);
    JoinMasked(LoadBig(p[..3]), p[3]);
    assert p[..4] == p;
    MaskedLane(LoadBig(p));
  }

  /** A SHA-1 corpus as it is built is one the kernel can be given. */
  lemma BuiltUsable(k: seq<Word>, iv: seq<Word>, start: nat, bytes: nat, slots: nat, words: seq<Word>)
    requires |k| == 4 && |iv| == 5 && Built(Descriptor(k, iv), start, bytes, 1, slots, words)
    ensures Usable(k, iv, View(words, slots, BlocksFor(Descriptor(k, iv), bytes), 1))
  {
    var a := Descriptor(k, iv);
    SomeBlocks(a, bytes);
    hide Lane, BlocksFor, Pad, Message, Algorithm.Valid, Algorithm.Laid;
    forall at | 0 <= at < |words| ensures Lane(words[at]) {
      var per := WordsPerMessage(a, bytes);
      WordIsLane(a, start, bytes, Owner(at, 1, per), Offset(at, 1, per));
    }
  }

  lemma WordIsLane(a: Algorithm, start: nat, bytes: nat, m: nat, x: nat)
    requires a.Valid() && a.bigEndian && a.wordBytes == 4 && x < WordsPerMessage(a, bytes)
    ensures Lane(PaddedWord(a, start, bytes, m, x))
  {
    hide Lane, LoadBig, Padded, WordsPerMessage, Algorithm.Valid, Algorithm.Laid;
    PaddedHolds(a, bytes, x);
    LoadedLane(Padded(a, start, bytes, m)[x * 4..(x + 1) * 4]);
  }
}
