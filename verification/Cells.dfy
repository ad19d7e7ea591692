/**
 The kernels' view of the corpus: a slot is the words of `lanes` messages
 interleaved, a cell is one lane of a slot, and a message is a cell.
 */
module Cells {
  import opened Arithmetic
  import opened Checksums
  import opened Algorithms
  import opened Workload
  import opened Corpus
  import opened Chain
  import opened Words

  /** Corpus words shaped as slots of `blocks` blocks and `lanes` lanes. */
  ghost predicate Shaped(words: seq<Word>, slots: nat, blocks: nat, lanes: nat) {
    |words| == slots * (blocks * WORDS_PER_BLOCK) * lanes
  }

  lemma CellInside(slots: nat, per: nat, lanes: nat, slot: nat, x: nat, lane: nat)
    requires slot < slots && x < per && lane < lanes
    ensures (slot * per + x) * lanes + lane < slots * per * lanes
  {
    Within(slot, slots, x, per);
    Within(slot * per + x, slots * per, lane, lanes);
  }

  /** The words of one message, in order. */
  function Cell(words: seq<Word>, slots: nat, blocks: nat, lanes: nat, slot: nat, lane: nat): (m: seq<Word>)
    requires Shaped(words, slots, blocks, lanes) && slot < slots && lane < lanes
    ensures |m| == blocks * WORDS_PER_BLOCK
  {
    var per := blocks * WORDS_PER_BLOCK;
    seq(per, x requires 0 <= x < per =>
      CellInside(slots, per, lanes, slot, x, lane);
      words[(slot * per + x) * lanes + lane])
  }

  lemma BlockInside(slots: nat, blocks: nat, lanes: nat, slot: nat, b: nat, j: nat, lane: nat)
    requires slot < slots && b < blocks && j < WORDS_PER_BLOCK && lane < lanes
    ensures b * WORDS_PER_BLOCK + j < blocks * WORDS_PER_BLOCK
    ensures ((slot * blocks + b) * WORDS_PER_BLOCK + j) * lanes + lane
      == (slot * (blocks * WORDS_PER_BLOCK) + (b * WORDS_PER_BLOCK + j)) * lanes + lane
    ensures ((slot * blocks + b) * WORDS_PER_BLOCK + j) * lanes + lane < slots * (blocks * WORDS_PER_BLOCK) * lanes
  {
    assert slot * blocks * WORDS_PER_BLOCK == slot * (blocks * WORDS_PER_BLOCK);
    CellInside(slots, blocks * WORDS_PER_BLOCK, lanes, slot, b * WORDS_PER_BLOCK + j, lane);
  }

  /** The sixteen loads of a block: base slot + b blocks, one word every `lanes`. */
  function LoadBlock(words: seq<Word>, slots: nat, blocks: nat, lanes: nat, slot: nat, b: nat,
                     lane: nat): (m: seq<Word>)
    requires Shaped(words, slots, blocks, lanes) && slot < slots && b < blocks && lane < lanes
    ensures |m| == WORDS_PER_BLOCK
  {
    seq(WORDS_PER_BLOCK, j requires 0 <= j < WORDS_PER_BLOCK =>
      BlockInside(slots, blocks, lanes, slot, b, j, lane);
      words[((slot * blocks + b) * WORDS_PER_BLOCK + j) * lanes + lane])
  }

  lemma LoadIsPart(words: seq<Word>, slots: nat, blocks: nat, lanes: nat, slot: nat, b: nat, lane: nat)
    requires Shaped(words, slots, blocks, lanes) && slot < slots && b < blocks && lane < lanes
    ensures b * WORDS_PER_BLOCK + WORDS_PER_BLOCK <= blocks * WORDS_PER_BLOCK
    ensures LoadBlock(words, slots, blocks, lanes, slot, b, lane)
      == Cell(words, slots, blocks, lanes, slot, lane)[b * WORDS_PER_BLOCK..b * WORDS_PER_BLOCK + WORDS_PER_BLOCK]
  {
    var left, m := LoadBlock(words, slots, blocks, lanes, slot, b, lane), Cell(words, slots, blocks, lanes, slot, lane);
    var right := m[b * WORDS_PER_BLOCK..b * WORDS_PER_BLOCK + WORDS_PER_BLOCK];
    forall j | 0 <= j < WORDS_PER_BLOCK ensures left[j] == right[j] {
      BlockInside(slots, blocks, lanes, slot, b, j, lane);
      assert right[j] == m[b * WORDS_PER_BLOCK + j];
    }
  }

  // ---- one cell through a kernel ----------------------------------------------

  /** What block b of a cell is compressed as, with `fb` over the head of the
      first. */
  function BlockOf(fb: seq<Word>, loaded: seq<Word>, b: nat): (m: seq<Word>)
    requires |fb| <= |loaded|
    ensures |m| == |loaded|
  {
    if b == 0 then Spliced(fb, loaded) else loaded
  }

  lemma SplicePart(fb: seq<Word>, m: seq<Word>, b: nat)
    requires |fb| <= WORDS_PER_BLOCK && b * WORDS_PER_BLOCK + WORDS_PER_BLOCK <= |m|
    ensures BlockOf(fb, m[b * WORDS_PER_BLOCK..b * WORDS_PER_BLOCK + WORDS_PER_BLOCK], b)
      == Spliced(fb, m)[b * WORDS_PER_BLOCK..b * WORDS_PER_BLOCK + WORDS_PER_BLOCK]
  {
  }

  /** The chaining value of a cell after `b` blocks. */
  function AfterBlocks(a: Algorithm, fb: seq<Word>, m: seq<Word>, b: nat): seq<Word>
    requires |fb| <= |m| && b * WORDS_PER_BLOCK <= |m|
  {
    AbsorbWords(a, a.iv, Spliced(fb, m)[..b * WORDS_PER_BLOCK])
  }

  /** Compressing the loaded block carries a cell from b blocks to b + 1. */
  lemma BlockCarries(a: Algorithm, fb: seq<Word>, words: seq<Word>, slots: nat, blocks: nat, lanes: nat,
                     slot: nat, b: nat, lane: nat)
    requires Shaped(words, slots, blocks, lanes) && slot < slots && b < blocks && lane < lanes
    requires |fb| <= WORDS_PER_BLOCK
    ensures b * WORDS_PER_BLOCK + WORDS_PER_BLOCK <= blocks * WORDS_PER_BLOCK
    ensures var m := Cell(words, slots, blocks, lanes, slot, lane);
      AfterBlocks(a, fb, m, b + 1) == a.compress(AfterBlocks(a, fb, m, b),
        BlockOf(fb, LoadBlock(words, slots, blocks, lanes, slot, b, lane), b))
  {
    hide Cell, LoadBlock, Spliced, AbsorbWords, BlockOf, Shaped;
    var m := Cell(words, slots, blocks, lanes, slot, lane);
    LoadIsPart(words, slots, blocks, lanes, slot, b, lane);
    SplicePart(fb, m, b);
    var s := Spliced(fb, m)[..(b + 1) * WORDS_PER_BLOCK];
    AbsorbNext(a, a.iv, s, b);
    assert s[..b * WORDS_PER_BLOCK] == Spliced(fb, m)[..b * WORDS_PER_BLOCK];
    assert s[b * WORDS_PER_BLOCK..] == Spliced(fb, m)[b * WORDS_PER_BLOCK..b * WORDS_PER_BLOCK + WORDS_PER_BLOCK];
  }

  lemma DigestAfter(a: Algorithm, fb: seq<Word>, m: seq<Word>, b: nat)
    requires a.Valid() && |fb| <= |m| && b * WORDS_PER_BLOCK <= |m|
    ensures a.IsDigest(AfterBlocks(a, fb, m, b))
  {
    hide Spliced, AbsorbWords;
    AbsorbWordsDigest(a, a.iv, Spliced(fb, m)[..b * WORDS_PER_BLOCK]);
  }

  lemma AllBlocks(a: Algorithm, m: seq<Word>, blocks: nat, n: nat)
    requires a.Valid() && 0 < blocks && |m| == blocks * WORDS_PER_BLOCK
    ensures AfterBlocks(a, Head(a, m, n), m, 0) == a.iv
    ensures AfterBlocks(a, Head(a, m, n), m, blocks) == Head(a, m, n + 1)
  {
    var s := Spliced(Head(a, m, n), m);
    assert s[..|s|] == s;
    assert s[..0] == [];
  }

  // ---- cells of a built corpus ------------------------------------------------

  /** What one cell adds to a checksum after `n` hashes. */
  function CellSum(a: Algorithm, m: seq<Word>, n: nat): Sum
    requires a.Valid() && a.digestWords <= |m|
  {
    if n == 0 then Zero else Slots(ChainDigest(a, m, n))
  }

  ghost predicate Built(a: Algorithm, start: nat, bytes: nat, lanes: nat, slots: nat, words: seq<Word>)
    ensures Built(a, start, bytes, lanes, slots, words) ==>
      a.Valid() && 0 < lanes && |words| == slots * WordsPerMessage(a, bytes) * lanes
  {
    && a.Valid() && 0 < lanes
    && |words| == slots * WordsPerMessage(a, bytes) * lanes
    && forall at :: 0 <= at < |words| ==> words[at] == CorpusWord(a, start, bytes, lanes, at)
  }

  lemma CellMessage(m: nat, slot: nat, lanes: nat, lane: nat, x: nat, per: nat)
    requires lane < lanes && m == slot * lanes + lane && x < per
    ensures Position(m, x, lanes, per) == (slot * per + x) * lanes + lane
    ensures Owner(Position(m, x, lanes, per), lanes, per) == m
    ensures Offset(Position(m, x, lanes, per), lanes, per) == x
  {
    Divides(m, lanes, slot, lane);
    PositionDecodes(m, x, lanes, per);
  }

  lemma BuiltWord(a: Algorithm, start: nat, bytes: nat, lanes: nat, slots: nat, words: seq<Word>, m: nat, x: nat,
                  at: nat)
    requires Built(a, start, bytes, lanes, slots, words) && at < |words| && x < WordsPerMessage(a, bytes)
    requires Owner(at, lanes, WordsPerMessage(a, bytes)) == m && Offset(at, lanes, WordsPerMessage(a, bytes)) == x
    ensures words[at] == PaddedWord(a, start, bytes, m, x)
  {
    hide PaddedWord, BlocksFor, Position, Owner, Offset, Algorithm.Valid, Algorithm.Laid;
  }

  lemma CellAt(words: seq<Word>, slots: nat, blocks: nat, lanes: nat, slot: nat, lane: nat, x: nat)
    requires Shaped(words, slots, blocks, lanes) && slot < slots && lane < lanes && x < blocks * WORDS_PER_BLOCK
    ensures (slot * (blocks * WORDS_PER_BLOCK) + x) * lanes + lane < |words|
    ensures Cell(words, slots, blocks, lanes, slot, lane)[x]
      == words[(slot * (blocks * WORDS_PER_BLOCK) + x) * lanes + lane]
  {
    CellInside(slots, blocks * WORDS_PER_BLOCK, lanes, slot, x, lane);
  }

  lemma CellWord(a: Algorithm, start: nat, bytes: nat, lanes: nat, slots: nat, words: seq<Word>, slot: nat,
                 lane: nat, x: nat)
    requires Built(a, start, bytes, lanes, slots, words) && slot < slots && lane < lanes
    requires x < WordsPerMessage(a, bytes)
    ensures Shaped(words, slots, BlocksFor(a, bytes), lanes)
    ensures Cell(words, slots, BlocksFor(a, bytes), lanes, slot, lane)[x]
      == PaddedWord(a, start, bytes, slot * lanes + lane, x)
  {
    var per := WordsPerMessage(a, bytes);
    CellMessage(slot * lanes + lane, slot, lanes, lane, x, per);
    assert Shaped(words, slots, BlocksFor(a, bytes), lanes);
    hide Cell, Shaped, Built, PaddedWord, BlocksFor, Position, Owner, Offset, Algorithm.Valid, Algorithm.Laid;
    CellAt(words, slots, BlocksFor(a, bytes), lanes, slot, lane, x);
    BuiltWord(a, start, bytes, lanes, slots, words, slot * lanes + lane, x, (slot * per + x) * lanes + lane);
  }

  /** A cell of a built corpus is the padded message of its index. */
  lemma CellIsMessage(a: Algorithm, start: nat, bytes: nat, lanes: nat, slots: nat, words: seq<Word>, slot: nat,
                      lane: nat)
    requires Built(a, start, bytes, lanes, slots, words) && slot < slots && lane < lanes
    ensures Shaped(words, slots, BlocksFor(a, bytes), lanes)
    ensures Cell(words, slots, BlocksFor(a, bytes), lanes, slot, lane)
      == PadWords(a, Message((start + (slot * lanes + lane)) % INDICES, bytes))
  {
    hide Cell, Built, BlocksFor, WordAt, Pad, Message;
    SomeBlocks(a, bytes);
    CellWord(a, start, bytes, lanes, slots, words, slot, lane, 0);
    var left := Cell(words, slots, BlocksFor(a, bytes), lanes, slot, lane);
    var right := PadWords(a, Message((start + (slot * lanes + lane)) % INDICES, bytes));
    forall x | 0 <= x < WordsPerMessage(a, bytes) ensures left[x] == right[x] {
      CellWord(a, start, bytes, lanes, slots, words, slot, lane, x);
    }
  }

  /** What a cell of a built corpus adds is what the oracle adds for its index. */
  lemma CellSumIsTerm(a: Algorithm, start: nat, bytes: nat, lanes: nat, slots: nat, words: seq<Word>, n: nat,
                      slot: nat, lane: nat)
    requires Built(a, start, bytes, lanes, slots, words) && slot < slots && lane < lanes && Feeds(a, bytes, n)
    ensures Shaped(words, slots, BlocksFor(a, bytes), lanes) && a.digestWords <= BlocksFor(a, bytes) * WORDS_PER_BLOCK
    ensures CellSum(a, Cell(words, slots, BlocksFor(a, bytes), lanes, slot, lane), n)
      == Term(a, start, bytes, n, slot * lanes + lane)
  {
    hide Cell, Built, BlocksFor, PadWords, ChainDigest, HashWords, Slots, Message, Feeds;
    CellIsMessage(a, start, bytes, lanes, slots, words, slot, lane);
    if 0 < n {
      ChainIsIterated(a, Message((start + (slot * lanes + lane)) % INDICES, bytes), n);
    }
  }
}
