/**
 What the three descriptors mean byte by byte, in numbers: in which order words
 are read from a block, the length is written into the padding and the digest is
 given out, and what a message is padded with.
 */
module ByteOrder {
  import opened Arithmetic
  import opened Checksums
  import opened Algorithms
  import opened Workload
  import Md5
  import Sha1
  import Sha512

  /** The number a word stands for: its low byte, and 256 times the rest. */
  function Digits(w: Word, n: nat): nat {
    if n == 0 then 0 else ((w & 0xff) as nat) + 256 * Digits(w >> 8, n - 1)
  }

  function Value(w: Word): nat {
    Digits(w, 8)
  }

  /** The number a byte string spells, high byte first. */
  function HighFirst(p: seq<Byte>): nat {
    if p == [] then 0 else 256 * HighFirst(p[..|p| - 1]) + Int(p[|p| - 1])
  }

  // ---- words ------------------------------------------------------------------

  lemma JoinDigits(high: Word, low: Byte)
    requires high >> 56 == 0
    ensures Join(high, low) >> 8 == high && (Join(high, low) & 0xff) as nat == Int(low)
  {
    assert Join(high, low) & 0xff == low as Word;
  }

  lemma LowByteDigit(w: Word)
    ensures Int(LowByte(w)) == (w & 0xff) as nat
  {
  }

  lemma {:induction false} FitsMore(w: Word, n: nat)
    requires Fits(w, n)
    ensures Fits(w, n + 1)
  {
    if n > 0 {
      FitsMore(w >> 8, n - 1);
    } else {
      assert (0 as Word) >> 8 == 0;
    }
  }

  lemma {:induction false} FitsSeven(w: Word, n: nat)
    requires Fits(w, n) && n <= 7
    ensures Fits(w, 7)
    decreases 7 - n
  {
    if n < 7 {
      FitsMore(w, n);
      FitsSeven(w, n + 1);
    }
  }

  lemma SevenFit(w: Word)
    requires Fits(w, 7)
    ensures w >> 56 == 0
  {
    assert Fits(w >> 8, 6) && Fits(w >> 8 >> 8, 5) && Fits(w >> 8 >> 8 >> 8, 4) && Fits(w >> 8 >> 8 >> 8 >> 8, 3);
    assert Fits(w >> 8 >> 8 >> 8 >> 8 >> 8, 2) && Fits(w >> 8 >> 8 >> 8 >> 8 >> 8 >> 8, 1);
    assert Fits(w >> 8 >> 8 >> 8 >> 8 >> 8 >> 8 >> 8, 0);
  }

  /** One more byte below a word that has room for it. */
  lemma JoinNext(high: Word, low: Byte, n: nat, k: nat)
    requires Fits(high, n) && n <= 7
    ensures Fits(Join(high, low), n + 1)
    ensures Digits(Join(high, low), k + 1) == Int(low) + 256 * Digits(high, k)
  {
    FitsSeven(high, n);
    SevenFit(high);
    JoinDigits(high, low);
    hide Join, Int;
  }

  lemma {:induction false} ZeroDigits(n: nat)
    ensures Digits(0, n) == 0
  {
    if n > 0 {
      assert (0 as Word) >> 8 == 0;
      ZeroDigits(n - 1);
    }
  }

  lemma {:induction false} LittleLoads(p: seq<Byte>, n: nat)
    requires |p| <= n <= 8
    ensures Fits(LoadLittle(p), |p|) && Digits(LoadLittle(p), n) == Number(p)
  {
    hide Join, Digits, Int;
    if p == [] {
      ZeroDigits(n);
    } else {
      LittleLoads(p[1..], n - 1);
      JoinNext(LoadLittle(p[1..]), p[0], |p| - 1, n - 1);
    }
  }

  lemma {:induction false} BigLoads(p: seq<Byte>, n: nat)
    requires |p| <= n <= 8
    ensures Fits(LoadBig(p), |p|) && Digits(LoadBig(p), n) == HighFirst(p)
  {
    hide Join, Digits, Int;
    if p == [] {
      ZeroDigits(n);
    } else {
      BigLoads(p[..|p| - 1], n - 1);
      JoinNext(LoadBig(p[..|p| - 1]), p[|p| - 1], |p| - 1, n - 1);
    }
  }

  lemma NumberNext(b: Byte, p: seq<Byte>)
    ensures Number([b] + p) == Int(b) + 256 * Number(p)
  {
    hide Int;
    assert ([b] + p)[1..] == p;
  }

  lemma {:induction false} LittleStores(w: Word, n: nat)
    ensures Number(StoreLittle(w, n)) == Digits(w, n)
  {
    hide LowByte, Int, Number;
    if n == 0 {
      EmptyNumber();
    } else {
      LowByteDigit(w);
      LittleStores(w >> 8, n - 1);
      NumberNext(LowByte(w), StoreLittle(w >> 8, n - 1));
    }
  }

  lemma EmptyNumber()
    ensures Number([]) == 0
  {
  }

  lemma {:induction false} BigStores(w: Word, n: nat)
    ensures HighFirst(StoreBig(w, n)) == Digits(w, n)
  {
    hide LowByte, Int;
    if n > 0 {
      LowByteDigit(w);
      BigStores(w >> 8, n - 1);
      assert StoreBig(w, n)[..n - 1] == StoreBig(w >> 8, n - 1);
    }
  }

  lemma {:induction false} WordOfDigits(n: nat, k: nat)
    requires k <= 8
    ensures Fits(WordOf(n, k), k) && Digits(WordOf(n, k), k) == n % Power256(k)
  {
    if k > 0 {
      WordOfDigits(n / 256, k - 1);
      JoinNext(WordOf(n / 256, k - 1), (n % 256) as Byte, k - 1, k - 1);
      ByteInt(n % 256);
      DigitAndRest(n, Power256(k - 1));
      hide Join, Digits, Int;
    }
  }

  lemma EightDigits()
    ensures Power256(8) == 0x1_0000_0000_0000_0000
  {
    AllDistinct();
    assert Power256(5) == 0x100_0000_0000 && Power256(6) == 0x1_0000_0000_0000 && Power256(7) == 0x100_0000_0000_0000;
  }

  /** The length counter stands for the bit length. */
  lemma LengthValue(n: nat)
    ensures Value(AsWord(BitLength(n))) == BitLength(n)
  {
    hide Digits, WordOf, Power256;
    WordOfDigits(BitLength(n), 8);
    EightDigits();
  }

  lemma NumberOfFour(p: seq<Byte>)
    requires |p| == 4
    ensures Number(p) == Int(p[0]) + 256 * Int(p[1]) + 65536 * Int(p[2]) + 16777216 * Int(p[3])
  {
    hide Int;
    assert p[1..][1..] == p[2..] && p[2..][1..] == p[3..] && p[3..][1..] == [];
    assert Number(p[3..]) == Int(p[3]) && Number(p[2..]) == Int(p[2]) + 256 * Int(p[3]);
    assert Number(p[1..]) == Int(p[1]) + 256 * Number(p[2..]);
  }

  // ---- the three descriptors --------------------------------------------------

  /** Word `j` of a block, and of a digest: MD5 reads and gives out its words low
      byte first. */
  lemma Md5Words(t: seq<Word>, iv: seq<Word>, p: seq<Byte>, j: nat)
    requires |t| == Md5.STEPS && 4 * j + 4 <= |p|
    ensures Value(WordAt(Md5.Descriptor(t, iv), p, j))
      == Int(p[4 * j]) + 256 * Int(p[4 * j + 1]) + 65536 * Int(p[4 * j + 2]) + 16777216 * Int(p[4 * j + 3])
  {
    var q := p[4 * j..4 * j + 4];
    LittleLoads(q, 8);
    NumberOfFour(q);
    hide Digits, Int, LoadLittle, Number;
    assert j * 4 == 4 * j && (j + 1) * 4 == 4 * j + 4;
  }

  lemma HighOfFour(p: seq<Byte>)
    requires |p| == 4
    ensures HighFirst(p) == 16777216 * Int(p[0]) + 65536 * Int(p[1]) + 256 * Int(p[2]) + Int(p[3])
  {
    hide Int;
    assert p[..3][..2] == p[..2] && p[..2][..1] == p[..1] && p[..1][..0] == [];
    assert HighFirst(p[..1]) == Int(p[0]) && HighFirst(p[..2]) == 256 * Int(p[0]) + Int(p[1]);
    assert HighFirst(p[..3]) == 256 * HighFirst(p[..2]) + Int(p[2]);
  }

  /** SHA-1 high byte first. */
  lemma Sha1Words(k: seq<Word>, iv: seq<Word>, p: seq<Byte>, j: nat)
    requires |k| == 4 && 4 * j + 4 <= |p|
    ensures Value(WordAt(Sha1.Descriptor(k, iv), p, j))
      == 16777216 * Int(p[4 * j]) + 65536 * Int(p[4 * j + 1]) + 256 * Int(p[4 * j + 2]) + Int(p[4 * j + 3])
  {
    var q := p[4 * j..4 * j + 4];
    BigLoads(q, 8);
    HighOfFour(q);
    hide Digits, Int, LoadBig, HighFirst;
    assert j * 4 == 4 * j && (j + 1) * 4 == 4 * j + 4;
  }

  /** SHA-512 high byte first, eight bytes a word. */
  lemma Sha512Words(k: seq<Word>, iv: seq<Word>, p: seq<Byte>, j: nat)
    requires |k| == 80 && 8 * j + 8 <= |p|
    ensures Value(WordAt(Sha512.Descriptor(k, iv), p, j))
      == 4294967296
           * (16777216 * Int(p[8 * j]) + 65536 * Int(p[8 * j + 1]) + 256 * Int(p[8 * j + 2]) + Int(p[8 * j + 3]))
         + (16777216 * Int(p[8 * j + 4]) + 65536 * Int(p[8 * j + 5]) + 256 * Int(p[8 * j + 6]) + Int(p[8 * j + 7]))
  {
    var q := p[8 * j..8 * j + 8];
    BigLoads(q, 8);
    HighOfEight(q);
    hide Digits, Int, LoadBig, HighFirst;
    assert p[j * 8..(j + 1) * 8] == q;
  }

  lemma HighOfEight(p: seq<Byte>)
    requires |p| == 8
    ensures HighFirst(p) ==
      4294967296 * (16777216 * Int(p[0]) + 65536 * Int(p[1]) + 256 * Int(p[2]) + Int(p[3]))
      + (16777216 * Int(p[4]) + 65536 * Int(p[5]) + 256 * Int(p[6]) + Int(p[7]))
  {
    hide Int;
    HighOfFour(p[..4]);
    assert p[..7][..6] == p[..6] && p[..6][..5] == p[..5] && p[..5][..4] == p[..4];
    assert HighFirst(p[..5]) == 256 * HighFirst(p[..4]) + Int(p[4]);
    assert HighFirst(p[..6]) == 256 * HighFirst(p[..5]) + Int(p[5]);
    assert HighFirst(p[..7]) == 256 * HighFirst(p[..6]) + Int(p[6]);
  }

  lemma Outside(a: Algorithm, msg: seq<Byte>, j: nat)
    requires a.Valid() && j < a.digestWords
    ensures (j + 1) * a.wordBytes <= |Hash(a, msg)| && |HashWords(a, msg)| == a.digestWords
    ensures WordAt(a, Hash(a, msg), j) == HashWords(a, msg)[j]
  {
    HashIsDigest(a, msg);
    StoredWord(a, HashWords(a, msg), j);
  }

  /** Digests are given out in the same order as words are read. */
  lemma Md5Digest(t: seq<Word>, iv: seq<Word>, msg: seq<Byte>, j: nat)
    requires |t| == Md5.STEPS && Md5.Descriptor(t, iv).Valid() && j < 4
    ensures var a, d := Md5.Descriptor(t, iv), Hash(Md5.Descriptor(t, iv), msg);
      && |HashWords(a, msg)| == 4 && |d| == 16
      && Value(HashWords(a, msg)[j])
         == Int(d[4 * j]) + 256 * Int(d[4 * j + 1]) + 65536 * Int(d[4 * j + 2]) + 16777216 * Int(d[4 * j + 3])
  {
    hide HashWords, StoreWords, WordAt, Digits, Int, Algorithm.Valid, Algorithm.Laid;
    HashIsDigest(Md5.Descriptor(t, iv), msg);
    Outside(Md5.Descriptor(t, iv), msg, j);
    Md5Words(t, iv, Hash(Md5.Descriptor(t, iv), msg), j);
  }

  lemma Sha1Digest(k: seq<Word>, iv: seq<Word>, msg: seq<Byte>, j: nat)
    requires |k| == 4 && Sha1.Descriptor(k, iv).Valid() && j < 5
    ensures var a, d := Sha1.Descriptor(k, iv), Hash(Sha1.Descriptor(k, iv), msg);
      && |HashWords(a, msg)| == 5 && |d| == 20
      && Value(HashWords(a, msg)[j])
         == 16777216 * Int(d[4 * j]) + 65536 * Int(d[4 * j + 1]) + 256 * Int(d[4 * j + 2]) + Int(d[4 * j + 3])
  {
    hide HashWords, StoreWords, WordAt, Digits, Int, Algorithm.Valid, Algorithm.Laid;
    HashIsDigest(Sha1.Descriptor(k, iv), msg);
    Outside(Sha1.Descriptor(k, iv), msg, j);
    Sha1Words(k, iv, Hash(Sha1.Descriptor(k, iv), msg), j);
  }

  lemma Sha512Digest(k: seq<Word>, iv: seq<Word>, msg: seq<Byte>, j: nat)
    requires |k| == 80 && Sha512.Descriptor(k, iv).Valid() && j < 8
    ensures var a, d := Sha512.Descriptor(k, iv), Hash(Sha512.Descriptor(k, iv), msg);
      && |HashWords(a, msg)| == 8 && |d| == 64
      && Value(HashWords(a, msg)[j])
         == 4294967296
              * (16777216 * Int(d[8 * j]) + 65536 * Int(d[8 * j + 1]) + 256 * Int(d[8 * j + 2]) + Int(d[8 * j + 3]))
            + (16777216 * Int(d[8 * j + 4]) + 65536 * Int(d[8 * j + 5]) + 256 * Int(d[8 * j + 6]) + Int(d[8 * j + 7]))
  {
    hide HashWords, StoreWords, WordAt, Digits, Int, Algorithm.Valid, Algorithm.Laid;
    HashIsDigest(Sha512.Descriptor(k, iv), msg);
    Outside(Sha512.Descriptor(k, iv), msg, j);
    Sha512Words(k, iv, Hash(Sha512.Descriptor(k, iv), msg), j);
  }

  /** The length field of each, over its bytes. */
  lemma LengthFields(t: seq<Word>, k: seq<Word>, kk: seq<Word>, iv: seq<Word>, n: nat)
    requires |t| == Md5.STEPS && |k| == 4 && |kk| == 80
    ensures Number(LengthField(Md5.Descriptor(t, iv), n)) == BitLength(n)
    ensures HighFirst(LengthField(Sha1.Descriptor(k, iv), n)) == BitLength(n)
    ensures HighFirst(LengthField(Sha512.Descriptor(kk, iv), n)) == BitLength(n)
    ensures |LengthField(Md5.Descriptor(t, iv), n)| == |LengthField(Sha1.Descriptor(k, iv), n)| == 8
    ensures |LengthField(Sha512.Descriptor(kk, iv), n)| == 16
  {
    var w := AsWord(BitLength(n));
    LengthValue(n);
    LittleStores(w, 8);
    BigStores(w, 8);
    ZerosBefore(8, StoreBig(w, 8));
    hide Digits, AsWord, BitLength, StoreBig, StoreLittle, HighFirst, Number;
  }

  lemma {:induction false} ZerosBefore(n: nat, p: seq<Byte>)
    ensures HighFirst(Zeros(n) + p) == HighFirst(p)
    decreases |p|
  {
    hide Int;
    if p == [] {
      assert Zeros(n) + p == Zeros(n);
      OnlyZeros(n);
    } else {
      assert (Zeros(n) + p)[..n + |p| - 1] == Zeros(n) + p[..|p| - 1];
      ZerosBefore(n, p[..|p| - 1]);
    }
  }

  lemma {:induction false} OnlyZeros(n: nat)
    ensures HighFirst(Zeros(n)) == 0
  {
    if n > 0 {
      OnlyZeros(n - 1);
      assert Zeros(n)[..n - 1] == Zeros(n - 1);
    }
  }

  /** What every message is padded with: a byte of 128, zeros, and the length
      field at the end of the last block, with less than a block to spare. */
  lemma PaddingBytes(a: Algorithm, msg: seq<Byte>)
    requires a.Valid()
    ensures var p, n := Pad(a, msg), |msg|;
      && |p| % a.BlockBytes() == 0 && n + 1 + a.lengthBytes <= |p| < n + 1 + a.lengthBytes + a.BlockBytes()
      && p[..n] == msg && Int(p[n]) == 128
      && (forall i :: n < i < |p| - a.lengthBytes ==> Int(p[i]) == 0)
      && p[|p| - a.lengthBytes..] == LengthField(a, n)
  {
    BlocksForFits(a, |msg|);
    Quotient(a.BlockBytes(), BlocksFor(a, |msg|), 0);
    hide BlocksFor, LengthField, Algorithm.Valid, Algorithm.Laid;
  }
}
