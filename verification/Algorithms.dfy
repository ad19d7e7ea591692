/**
 What the harness needs to know about a hash function, and the plain meaning of
 hashing: pad, absorb block by block, emit the state as bytes. Everything around
 the three algorithms is written against this descriptor.
 */
module Algorithms {
  import opened Arithmetic
  import opened Checksums

  type Byte = bv8

  const WORDS_PER_BLOCK: nat := 16

  /** The state and block of a compression function are sequences of words; a
      32-bit word keeps to the low half of its `Word`. */
  datatype Algorithm = Algorithm(
    digestWords: nat, wordBytes: nat, lengthBytes: nat, bigEndian: bool,
    iv: seq<Word>, compress: (seq<Word>, seq<Word>) -> seq<Word>)
  {
    function BlockBytes(): nat {
      WORDS_PER_BLOCK * wordBytes
    }

    function DigestBytes(): nat {
      digestWords * wordBytes
    }

    /** A digest: one word per state word, each of the algorithm's width. */
    ghost predicate IsDigest(h: seq<Word>) {
      |h| == digestWords && forall j :: 0 <= j < |h| ==> Fits(h[j], wordBytes)
    }

    /** The layout of blocks and digests. */
    ghost predicate Laid() {
      && 0 < digestWords <= SLOTS && 0 < wordBytes
      && 8 <= lengthBytes && lengthBytes < BlockBytes()
      && IsDigest(iv)
      && forall h, m :: |h| == digestWords && |m| == WORDS_PER_BLOCK ==> IsDigest(compress(h, m))
    }

    /** The shape shared by MD5, SHA-1 and SHA-512, the three there are. */
    ghost predicate Valid()
      ensures Valid() ==> Laid()
    {
      Laid() && (bigEndian || lengthBytes == 8)
    }
  }

  // ---- bytes and words --------------------------------------------------------

  /** `w` is zero past its low `n` bytes. */
  predicate Fits(w: Word, n: nat) {
    if n == 0 then w == 0 else Fits(w >> 8, n - 1)
  }

  function LowByte(w: Word): Byte {
    (w & 0xff) as Byte
  }

  function Widen(b: Byte): Word {
    b as Word
  }

  function OrWord(x: Word, y: Word): Word {
    x | y
  }

  /** One byte up. */
  function Up(w: Word): Word {
    w << 8
  }

  function Join(high: Word, low: Byte): Word {
    OrWord(Up(high), Widen(low))
  }

  lemma JoinLow(w: Word)
    ensures Join(w >> 8, LowByte(w)) == w
  {
  }

  function LoadBig(p: seq<Byte>): Word {
    if p == [] then 0 else Join(LoadBig(p[..|p| - 1]), p[|p| - 1])
  }

  function StoreBig(w: Word, n: nat): (p: seq<Byte>)
    ensures |p| == n
  {
    if n == 0 then [] else StoreBig(w >> 8, n - 1) + [LowByte(w)]
  }

  function LoadLittle(p: seq<Byte>): Word {
    if p == [] then 0 else Join(LoadLittle(p[1..]), p[0])
  }

  function StoreLittle(w: Word, n: nat): (p: seq<Byte>)
    ensures |p| == n
  {
    if n == 0 then [] else [LowByte(w)] + StoreLittle(w >> 8, n - 1)
  }

  lemma {:induction false} BigRoundTrip(w: Word, n: nat)
    requires Fits(w, n)
    ensures LoadBig(StoreBig(w, n)) == w
  {
    if n > 0 {
      BigRoundTrip(w >> 8, n - 1);
      assert StoreBig(w, n)[..n - 1] == StoreBig(w >> 8, n - 1);
      JoinLow(w);
    }
  }

  lemma {:induction false} LittleRoundTrip(w: Word, n: nat)
    requires Fits(w, n)
    ensures LoadLittle(StoreLittle(w, n)) == w
  {
    if n > 0 {
      LittleRoundTrip(w >> 8, n - 1);
      assert StoreLittle(w, n)[1..] == StoreLittle(w >> 8, n - 1);
      JoinLow(w);
    }
  }

  /** load_word: the algorithm's byte order, as many bytes as given. */
  function Load(a: Algorithm, p: seq<Byte>): Word {
    if a.bigEndian then LoadBig(p) else LoadLittle(p)
  }

  function Store(a: Algorithm, w: Word, n: nat): (p: seq<Byte>)
    ensures |p| == n
  {
    if a.bigEndian then StoreBig(w, n) else StoreLittle(w, n)
  }

  /** A word the algorithm can hold survives being stored and loaded. */
  lemma RoundTrip(a: Algorithm, w: Word)
    requires Fits(w, a.wordBytes)
    ensures Load(a, Store(a, w, a.wordBytes)) == w
  {
    if a.bigEndian { BigRoundTrip(w, a.wordBytes); } else { LittleRoundTrip(w, a.wordBytes); }
  }

  /** Words j of a byte string. */
  function WordAt(a: Algorithm, p: seq<Byte>, j: nat): Word
    requires (j + 1) * a.wordBytes <= |p|
  {
    assert (j + 1) * a.wordBytes == j * a.wordBytes + a.wordBytes;
    Load(a, p[j * a.wordBytes..(j + 1) * a.wordBytes])
  }

  function BlockWords(a: Algorithm, p: seq<Byte>): (m: seq<Word>)
    requires |p| == a.BlockBytes()
    ensures |m| == WORDS_PER_BLOCK
  {
    seq(WORDS_PER_BLOCK, j requires 0 <= j < WORDS_PER_BLOCK =>
      assert (j + 1) * a.wordBytes <= WORDS_PER_BLOCK * a.wordBytes;
      WordAt(a, p, j))
  }

  /** The digest words as bytes. */
  function StoreWords(a: Algorithm, h: seq<Word>): (p: seq<Byte>)
    ensures |p| == |h| * a.wordBytes
  {
    if h == [] then [] else
      var front := StoreWords(a, h[..|h| - 1]);
      assert |h| * a.wordBytes == (|h| - 1) * a.wordBytes + a.wordBytes;
      front + Store(a, h[|h| - 1], a.wordBytes)
  }

  // ---- absorbing --------------------------------------------------------------

  /** Fold the compression function over the whole blocks of `p`. */
  function Absorb(a: Algorithm, h: seq<Word>, p: seq<Byte>): seq<Word>
    requires 0 < a.wordBytes
    decreases |p|
  {
    var n := a.BlockBytes();
    if |p| < n then h else Absorb(a, a.compress(h, BlockWords(a, p[..n])), p[n..])
  }

  lemma {:induction false} AbsorbAppend(a: Algorithm, h: seq<Word>, blocks: nat, p: seq<Byte>, q: seq<Byte>)
    requires 0 < a.wordBytes && |p| == blocks * a.BlockBytes()
    ensures Absorb(a, h, p + q) == Absorb(a, Absorb(a, h, p), q)
    decreases blocks
  {
    var n := a.BlockBytes();
    if blocks == 0 {
      assert p + q == q;
    } else {
      assert blocks * n == (blocks - 1) * n + n;
      assert (p + q)[..n] == p[..n];
      assert (p + q)[n..] == p[n..] + q;
      AbsorbAppend(a, a.compress(h, BlockWords(a, p[..n])), blocks - 1, p[n..], q);
    }
  }

  lemma AbsorbOne(a: Algorithm, h: seq<Word>, p: seq<Byte>)
    requires 0 < a.wordBytes && |p| == a.BlockBytes()
    ensures Absorb(a, h, p) == a.compress(h, BlockWords(a, p))
  {
    assert p[..|p|] == p && p[|p|..] == [];
  }

  // ---- padding ----------------------------------------------------------------

  function Zeros(n: nat): (z: seq<Byte>)
    ensures |z| == n
  {
    seq(n, _ => 0)
  }

  /** vb_alg_blocks_for: blocks a message of `n` bytes occupies once padded. */
  function BlocksFor(a: Algorithm, n: nat): nat
    requires 0 < a.BlockBytes()
  {
    (n + 1 + a.lengthBytes + a.BlockBytes() - 1) / a.BlockBytes()
  }

  /** The block count is the least that holds message, terminator and length. */
  lemma BlocksForFits(a: Algorithm, n: nat)
    requires 0 < a.BlockBytes()
    ensures n + 1 + a.lengthBytes <= BlocksFor(a, n) * a.BlockBytes()
    ensures BlocksFor(a, n) * a.BlockBytes() < n + 1 + a.lengthBytes + a.BlockBytes()
  {
    Rebuild(n + 1 + a.lengthBytes + a.BlockBytes() - 1, a.BlockBytes());
  }

  /** 64-bit counters wrap. */
  function Wrapped(n: nat): nat {
    n % 0x1_0000_0000_0000_0000
  }

  function BitLength(n: nat): nat {
    Wrapped(8 * n)
  }

  /** The counter is the length the standards mean below 2^61 bytes, and only
      there: past it FIPS 180-4 wants the bits above the sixty-fourth as well. */
  lemma LengthExact(n: nat)
    ensures BitLength(n) == 8 * n <==> n < 0x2000_0000_0000_0000
  {
    var wrap := 0x1_0000_0000_0000_0000;
    if n < 0x2000_0000_0000_0000 {
      assert 8 * n < wrap;
    } else {
      assert Wrapped(8 * n) < wrap <= 8 * n;
    }
  }

  /** The low `k` bytes of a number, as a word. */
  function WordOf(n: nat, k: nat): Word {
    if k == 0 then 0 else Join(WordOf(n / 256, k - 1), (n % 256) as Byte)
  }

  function AsWord(n: nat): Word {
    WordOf(n, 8)
  }

  /** The length in the algorithm's byte order, over the whole field. */
  function LengthField(a: Algorithm, n: nat): (p: seq<Byte>)
    requires 8 <= a.lengthBytes
    ensures |p| == a.lengthBytes
    ensures a.lengthBytes == 8 ==> p == Store(a, AsWord(BitLength(n)), 8)
  {
    var bits, rest := Store(a, AsWord(BitLength(n)), 8), Zeros(a.lengthBytes - 8);
    assert a.lengthBytes == 8 ==> rest == [];
    if a.bigEndian then rest + bits else bits + rest
  }

  /** What pad_message leaves in the field: the length over its last eight bytes,
      copied to its first eight as well if it is wide and little-endian. */
  function BuiltField(a: Algorithm, n: nat): (p: seq<Byte>)
    requires 8 <= a.lengthBytes
    ensures |p| == a.lengthBytes
  {
    var bits := Store(a, AsWord(BitLength(n)), 8);
    var end := Zeros(a.lengthBytes - 8) + bits;
    if !a.bigEndian && 8 < a.lengthBytes then bits + end[8..] else end
  }

  lemma ByteAndRest(w: Word)
    ensures w == 0 <==> LowByte(w) == 0 && w >> 8 == 0
  {
  }

  lemma WordFits(y: Word)
    ensures Fits(y, 8)
  {
    assert y >> 8 >> 8 >> 8 >> 8 >> 8 >> 8 >> 8 >> 8 == 0;
    assert Fits(y >> 8 >> 8 >> 8 >> 8 >> 8 >> 8 >> 8 >> 8, 0);
    assert Fits(y >> 8 >> 8 >> 8 >> 8 >> 8 >> 8 >> 8, 1);
    assert Fits(y >> 8 >> 8 >> 8 >> 8 >> 8 >> 8, 2);
    assert Fits(y >> 8 >> 8 >> 8 >> 8 >> 8, 3);
    assert Fits(y >> 8 >> 8 >> 8 >> 8, 4);
    assert Fits(y >> 8 >> 8 >> 8, 5);
    assert Fits(y >> 8 >> 8, 6);
    assert Fits(y >> 8, 7);
  }

  /** The stored bytes past the k-th are zero exactly if k bytes are enough. */
  lemma {:induction false} TailIsZero(w: Word, n: nat, k: nat)
    requires Fits(w, n) && k <= n
    ensures StoreLittle(w, n)[k..] == Zeros(n - k) <==> Fits(w, k)
  {
    hide LowByte;
    if 0 < k {
      TailIsZero(w >> 8, n - 1, k - 1);
      assert StoreLittle(w, n)[k..] == StoreLittle(w >> 8, n - 1)[k - 1..];
    } else if 0 < n {
      TailIsZero(w >> 8, n - 1, 0);
      ByteAndRest(w);
      var rest := StoreLittle(w >> 8, n - 1);
      assert StoreLittle(w, n)[0..] == [LowByte(w)] + rest && rest[0..] == rest;
      assert Zeros(n) == [0] + Zeros(n - 1);
      assert ([LowByte(w)] + rest)[0] == LowByte(w) && ([LowByte(w)] + rest)[1..] == rest;
      assert ([0] + Zeros(n - 1))[0] == 0 && ([0] + Zeros(n - 1))[1..] == Zeros(n - 1);
    }
  }

  /** Bytes of the length that a wide field's second copy does not show in. */
  function Hidden(a: Algorithm): nat {
    if a.lengthBytes < 16 then 16 - a.lengthBytes else 0
  }

  /** The field is right exactly if it is big-endian or eight bytes, or the
      length fits in as many bytes as its two copies share. */
  lemma FieldRight(a: Algorithm, n: nat)
    requires 8 <= a.lengthBytes
    ensures BuiltField(a, n) == LengthField(a, n)
      <==> a.bigEndian || a.lengthBytes == 8 || Fits(AsWord(BitLength(n)), Hidden(a))
  {
    hide BitLength, AsWord;
    var w, k, wide := AsWord(BitLength(n)), Hidden(a), a.lengthBytes - 8;
    if !a.bigEndian && 0 < wide {
      var bits := StoreLittle(w, 8);
      WordFits(w);
      TailIsZero(w, 8, k);
      var tail := (Zeros(wide) + bits)[8..];
      assert (bits + tail)[8..] == tail && (bits + Zeros(wide))[8..] == Zeros(wide);
      var front := Zeros(wide - (8 - k));
      assert tail == front + bits[k..];
      assert Zeros(wide) == front + Zeros(8 - k);
      assert (front + bits[k..])[|front|..] == bits[k..] && (front + Zeros(8 - k))[|front|..] == Zeros(8 - k);
    }
  }

  /** RFC 1321 sections 3.1 and 3.2, FIPS 180-4 sections 5.1.1 and 5.1.2. */
  function Pad(a: Algorithm, msg: seq<Byte>): (p: seq<Byte>)
    requires a.Laid()
    ensures |p| == BlocksFor(a, |msg|) * a.BlockBytes()
  {
    BlocksForFits(a, |msg|);
    var total := BlocksFor(a, |msg|) * a.BlockBytes();
    msg + [0x80] + Zeros(total - |msg| - 1 - a.lengthBytes) + LengthField(a, |msg|)
  }

  function HashWords(a: Algorithm, msg: seq<Byte>): seq<Word>
    requires a.Valid()
  {
    Absorb(a, a.iv, Pad(a, msg))
  }

  function Hash(a: Algorithm, msg: seq<Byte>): seq<Byte>
    requires a.Valid()
  {
    StoreWords(a, HashWords(a, msg))
  }
}
