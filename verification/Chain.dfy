/**
 The iteration chain as kernels run it. A kernel never pads twice: it overwrites
 the head words of block 0 with the last digest and absorbs the same blocks
 again. The oracle copies the digest over the message bytes and hashes from
 scratch. The two agree word for word.
 */
module Chain {
  import opened Arithmetic
  import opened Checksums
  import opened Algorithms
  import opened Workload
  import opened Corpus
  import opened Words

  // ---- absorbing words --------------------------------------------------------

  function AbsorbWords(a: Algorithm, h: seq<Word>, m: seq<Word>): seq<Word>
    decreases |m|
  {
    if |m| < WORDS_PER_BLOCK then h
    else AbsorbWords(a, a.compress(h, m[..WORDS_PER_BLOCK]), m[WORDS_PER_BLOCK..])
  }

  /** Absorbing one more block at the end. */
  lemma {:induction false} AbsorbNext(a: Algorithm, h: seq<Word>, m: seq<Word>, blocks: nat)
    requires |m| == blocks * WORDS_PER_BLOCK + WORDS_PER_BLOCK
    ensures AbsorbWords(a, h, m)
      == a.compress(AbsorbWords(a, h, m[..blocks * WORDS_PER_BLOCK]), m[blocks * WORDS_PER_BLOCK..])
    decreases blocks
  {
    if blocks == 0 {
      assert m[..WORDS_PER_BLOCK] == m;
    } else {
      var n := WORDS_PER_BLOCK;
      AbsorbNext(a, a.compress(h, m[..n]), m[n..], blocks - 1);
      assert m[n..][..(blocks - 1) * n] == m[..blocks * n][n..];
      assert m[n..][(blocks - 1) * n..] == m[blocks * n..];
      assert m[..blocks * n][..n] == m[..n];
    }
  }

  /** The first `n` words of a byte string. */
  function WordsOf(a: Algorithm, p: seq<Byte>, n: nat): (m: seq<Word>)
    requires n * a.wordBytes <= |p|
    ensures |m| == n
  {
    seq(n, j requires 0 <= j < n => WordInside(n, j, a.wordBytes); WordAt(a, p, j))
  }

  lemma SubSlice(p: seq<Byte>, lo: nat, to: nat, x: nat, y: nat)
    requires x <= y && lo + y <= to <= |p|
    ensures p[lo..to][x..y] == p[lo + x..lo + y]
  {
    var left, right := p[lo..to][x..y], p[lo + x..lo + y];
    forall k | 0 <= k < y - x ensures left[k] == right[k] {
      assert left[k] == p[lo..to][x + k] == p[lo + (x + k)];
    }
  }

  /** Words of a part of a byte string that starts at word `from`. */
  lemma WordsFrom(a: Algorithm, p: seq<Byte>, from: nat, j: nat, to: nat)
    requires from <= j && (j + 1) * a.wordBytes <= to <= |p|
    ensures from * a.wordBytes <= to && (j - from + 1) * a.wordBytes <= to - from * a.wordBytes
    ensures WordAt(a, p[from * a.wordBytes..to], j - from) == WordAt(a, p, j)
  {
    hide Load;
    var w, i := a.wordBytes, j - from;
    assert (j + 1) * w == from * w + (i + 1) * w;
    assert (i + 1) * w == i * w + w && j * w == from * w + i * w;
    SubSlice(p, from * w, to, i * w, (i + 1) * w);
    assert WordAt(a, p, j) == Load(a, p[from * w + i * w..from * w + (i + 1) * w]);
    assert WordAt(a, p[from * w..to], i) == Load(a, p[from * w..to][i * w..(i + 1) * w]);
  }

  lemma FirstBlock(a: Algorithm, p: seq<Byte>, n: nat)
    requires WORDS_PER_BLOCK <= n && n * a.wordBytes == |p|
    ensures a.BlockBytes() <= |p|
    ensures BlockWords(a, p[..a.BlockBytes()]) == WordsOf(a, p, n)[..WORDS_PER_BLOCK]
  {
    hide WordAt;
    var b := a.BlockBytes();
    assert n * a.wordBytes == b + (n - WORDS_PER_BLOCK) * a.wordBytes;
    forall j | 0 <= j < WORDS_PER_BLOCK
      ensures BlockWords(a, p[..b])[j] == WordsOf(a, p, n)[j]
    {
      WordInside(WORDS_PER_BLOCK, j, a.wordBytes);
      WordsFrom(a, p, 0, j, b);
      assert p[0 * a.wordBytes..b] == p[..b];
    }
  }

  lemma LaterBlocks(a: Algorithm, p: seq<Byte>, n: nat)
    requires WORDS_PER_BLOCK <= n && n * a.wordBytes == |p|
    ensures a.BlockBytes() <= |p| && (n - WORDS_PER_BLOCK) * a.wordBytes == |p| - a.BlockBytes()
    ensures WordsOf(a, p[a.BlockBytes()..], n - WORDS_PER_BLOCK) == WordsOf(a, p, n)[WORDS_PER_BLOCK..]
  {
    hide WordAt;
    var b := a.BlockBytes();
    assert n * a.wordBytes == b + (n - WORDS_PER_BLOCK) * a.wordBytes;
    var left, right := WordsOf(a, p[b..], n - WORDS_PER_BLOCK), WordsOf(a, p, n)[WORDS_PER_BLOCK..];
    forall j | 0 <= j < |left| ensures left[j] == right[j] {
      WordInside(n, WORDS_PER_BLOCK + j, a.wordBytes);
      WordsFrom(a, p, WORDS_PER_BLOCK, WORDS_PER_BLOCK + j, |p|);
      assert p[WORDS_PER_BLOCK * a.wordBytes..|p|] == p[b..];
    }
  }

  /** Absorbing bytes is absorbing their words. */
  lemma {:induction false} AbsorbIsWords(a: Algorithm, h: seq<Word>, p: seq<Byte>, blocks: nat)
    requires 0 < a.wordBytes && blocks * WORDS_PER_BLOCK * a.wordBytes == |p|
    ensures Absorb(a, h, p) == AbsorbWords(a, h, WordsOf(a, p, blocks * WORDS_PER_BLOCK))
    decreases blocks
  {
    hide WordsOf, BlockWords;
    if blocks > 0 {
      var n, b := blocks * WORDS_PER_BLOCK, a.BlockBytes();
      FirstBlock(a, p, n);
      LaterBlocks(a, p, n);
      AbsorbIsWords(a, a.compress(h, BlockWords(a, p[..b])), p[b..], blocks - 1);
    }
  }

  // ---- the chain in words -----------------------------------------------------

  lemma {:induction false} AbsorbWordsDigest(a: Algorithm, h: seq<Word>, m: seq<Word>)
    requires a.Valid() && a.IsDigest(h)
    ensures a.IsDigest(AbsorbWords(a, h, m))
    decreases |m|
  {
    if WORDS_PER_BLOCK <= |m| {
      AbsorbWordsDigest(a, a.compress(h, m[..WORDS_PER_BLOCK]), m[WORDS_PER_BLOCK..]);
    }
  }

  /** The words laid over the head of block 0 for hash number `n`, counted from
      zero: the corpus's own at first, then the digest before. */
  function Head(a: Algorithm, p: seq<Word>, n: nat): (h: seq<Word>)
    requires a.Valid() && a.digestWords <= |p|
    ensures |h| == a.digestWords
    decreases n, 0
  {
    if n == 0 then p[..a.digestWords] else ChainDigest(a, p, n)
  }

  /** The digest after `n` hashes of a padded message `p`. */
  function ChainDigest(a: Algorithm, p: seq<Word>, n: nat): (h: seq<Word>)
    requires a.Valid() && a.digestWords <= |p| && 0 < n
    ensures |h| == a.digestWords
    decreases n - 1, 1
  {
    var m := Spliced(Head(a, p, n - 1), p);
    AbsorbWordsDigest(a, a.iv, m);
    AbsorbWords(a, a.iv, m)
  }

  lemma PadWordsFit(a: Algorithm, bytes: nat)
    requires a.Valid()
    ensures WordsPerMessage(a, bytes) * a.wordBytes == BlocksFor(a, bytes) * a.BlockBytes()
    ensures a.digestWords <= WORDS_PER_BLOCK <= WordsPerMessage(a, bytes)
  {
    SomeBlocks(a, bytes);
    hide BlocksFor;
  }

  function PadWords(a: Algorithm, msg: seq<Byte>): (m: seq<Word>)
    requires a.Valid()
    ensures |m| == WordsPerMessage(a, |msg|) && a.digestWords <= |m|
  {
    PadWordsFit(a, |msg|);
    WordsOf(a, Pad(a, msg), WordsPerMessage(a, |msg|))
  }

  lemma HashIsWords(a: Algorithm, msg: seq<Byte>)
    requires a.Valid()
    ensures HashWords(a, msg) == AbsorbWords(a, a.iv, PadWords(a, msg))
  {
    hide Pad, BlocksFor;
    AbsorbIsWords(a, a.iv, Pad(a, msg), BlocksFor(a, |msg|));
  }

  /** Padding a message whose head was overwritten, bytes first. */
  lemma PadOver(a: Algorithm, msg: seq<Byte>, d: seq<Byte>)
    requires a.Valid() && |d| <= |msg|
    ensures Pad(a, d + msg[|d|..]) == d + Pad(a, msg)[|d|..]
  {
    BlocksForFits(a, |msg|);
    hide BlocksFor, LengthField, Algorithm.Valid, Algorithm.Laid;
  }

  /** Word j of a digest laid over some bytes. */
  lemma WordOver(a: Algorithm, h: seq<Word>, rest: seq<Byte>, j: nat)
    requires a.IsDigest(h) && (j + 1) * a.wordBytes <= |h| * a.wordBytes + |rest|
    ensures j < |h| ==> WordAt(a, StoreWords(a, h) + rest, j) == h[j]
  {
    if j < |h| {
      var d := StoreWords(a, h);
      StoredWord(a, h, j);
      hide StoreWords, WordAt, Fits;
      assert (d + rest)[..|d|] == d;
      PrefixWord(a, d + rest, |d|, j);
    }
  }

  lemma OverRest(d: seq<Byte>, p: seq<Byte>, lo: nat, hi: nat)
    requires |d| <= lo <= hi <= |p|
    ensures (d + p[|d|..])[lo..hi] == p[lo..hi]
  {
  }

  lemma RestWord(a: Algorithm, h: seq<Word>, d: seq<Byte>, p: seq<Byte>, j: nat)
    requires |d| == |h| * a.wordBytes && |h| <= j && |d| <= |p| && (j + 1) * a.wordBytes <= |p|
    ensures WordAt(a, d + p[|d|..], j) == WordAt(a, p, j)
  {
    hide Load;
    assert j * a.wordBytes == |d| + (j - |h|) * a.wordBytes;
    assert (j + 1) * a.wordBytes == j * a.wordBytes + a.wordBytes;
    OverRest(d, p, j * a.wordBytes, (j + 1) * a.wordBytes);
  }

  lemma SplicedWord(a: Algorithm, h: seq<Word>, p: seq<Byte>, j: nat)
    requires a.IsDigest(h) && |StoreWords(a, h)| <= |p| && (j + 1) * a.wordBytes <= |p|
    ensures WordAt(a, StoreWords(a, h) + p[|StoreWords(a, h)|..], j) == if j < |h| then h[j] else WordAt(a, p, j)
  {
    hide StoreWords, WordAt, Fits;
    if j < |h| {
      WordOver(a, h, p[|StoreWords(a, h)|..], j);
    } else {
      RestWord(a, h, StoreWords(a, h), p, j);
    }
  }

  lemma WordsSpliced(a: Algorithm, h: seq<Word>, p: seq<Byte>, n: nat)
    requires a.IsDigest(h) && |h| <= n && n * a.wordBytes == |p| && |StoreWords(a, h)| <= |p|
    ensures WordsOf(a, StoreWords(a, h) + p[|StoreWords(a, h)|..], n) == Spliced(h, WordsOf(a, p, n))
  {
    hide WordAt, StoreWords, Fits;
    var d := StoreWords(a, h);
    var left, right := WordsOf(a, d + p[|d|..], n), Spliced(h, WordsOf(a, p, n));
    forall j | 0 <= j < n ensures left[j] == right[j] {
      WordInside(n, j, a.wordBytes);
      SplicedWord(a, h, p, j);
    }
  }

  /** Padding a message with a digest over its head splices the digest's words
      over the padded message's. */
  lemma PadSpliced(a: Algorithm, msg: seq<Byte>, h: seq<Word>)
    requires a.Valid() && a.IsDigest(h) && a.DigestBytes() <= |msg|
    ensures PadWords(a, StoreWords(a, h) + msg[a.DigestBytes()..]) == Spliced(h, PadWords(a, msg))
  {
    hide WordsOf, Pad, StoreWords, WordsPerMessage, BlocksFor, Fits;
    PadWordsFit(a, |msg|);
    PadOver(a, msg, StoreWords(a, h));
    WordsSpliced(a, h, Pad(a, msg), WordsPerMessage(a, |msg|));
  }

  /** The padded message at each point of the chain is the first one with a
      digest spliced in. */
  lemma {:induction false} IteratedWords(a: Algorithm, msg: seq<Byte>, n: nat)
    requires a.Valid() && (n == 0 || a.DigestBytes() <= |msg|)
    ensures PadWords(a, Iterated(a, msg, n)) == Spliced(Head(a, PadWords(a, msg), n), PadWords(a, msg))
  {
    hide PadWords, AbsorbWords, Algorithm.Valid, Algorithm.Laid, Algorithm.IsDigest;
    if n > 0 {
      var before := Iterated(a, msg, n - 1);
      IteratedWords(a, msg, n - 1);
      HashIsWords(a, before);
      HashIsDigest(a, before);
      PadSpliced(a, before, HashWords(a, before));
    }
  }

  /** What a kernel computes without ever padding again is what hashing the fed
      back message from scratch gives, if the message has room for a digest. */
  lemma ChainIsIterated(a: Algorithm, msg: seq<Byte>, n: nat)
    requires a.Valid() && 0 < n && Feeds(a, |msg|, n)
    ensures ChainDigest(a, PadWords(a, msg), n) == HashWords(a, Iterated(a, msg, n - 1))
  {
    hide PadWords, AbsorbWords, Spliced, HashWords, WordsPerMessage, Algorithm.Valid, Algorithm.Laid;
    hide Algorithm.DigestBytes;
    IteratedWords(a, msg, n - 1);
    HashIsWords(a, Iterated(a, msg, n - 1));
  }
}
