/**
 Building the corpus: messages, their padding, and the lane-interleaved layout
 the kernels read. Also the word loader the corpus and the oracle share.
 */
module Corpus {
  import opened Arithmetic
  import opened Checksums
  import opened Algorithms
  import opened Workload

  // ---- words from bytes -------------------------------------------------------

  /** Byte `b` at byte position `i` of a word. */
  function Place(b: Byte, i: nat): Word {
    if i == 0 then Widen(b) else Up(Place(b, i - 1))
  }

  lemma UpOr(x: Word, y: Word)
    ensures Up(OrWord(x, y)) == OrWord(Up(x), Up(y))
  {
  }

  lemma OrComm(x: Word, y: Word)
    ensures OrWord(x, y) == OrWord(y, x)
  {
  }

  lemma OrAssoc(x: Word, y: Word, z: Word)
    ensures OrWord(OrWord(x, y), z) == OrWord(x, OrWord(y, z))
  {
  }

  lemma OrLast(x: Word, y: Word, z: Word)
    ensures OrWord(OrWord(x, y), z) == OrWord(OrWord(x, z), y)
  {
    hide OrWord;
    OrAssoc(x, y, z);
    OrAssoc(x, z, y);
    OrComm(y, z);
  }

  lemma JoinOr(x: Word, y: Word, b: Byte)
    ensures Join(OrWord(x, y), b) == OrWord(Join(x, b), Up(y))
  {
    hide OrWord, Up, Widen;
    UpOr(x, y);
    OrLast(Up(x), Up(y), Widen(b));
  }

  lemma JoinZero(b: Byte)
    ensures Join(0, b) == OrWord(0, Widen(b))
  {
  }

  /** Little-endian loading may go first byte to last, each at its position. */
  lemma {:induction false} LoadLittleNext(p: seq<Byte>, b: Byte)
    ensures LoadLittle(p + [b]) == OrWord(LoadLittle(p), Place(b, |p|))
  {
    hide Join, OrWord;
    if p == [] {
      assert (p + [b])[1..] == [];
      JoinZero(b);
    } else {
      assert (p + [b])[1..] == p[1..] + [b];
      LoadLittleNext(p[1..], b);
      JoinOr(LoadLittle(p[1..]), Place(b, |p| - 1), p[0]);
    }
  }

  method LoadWord(a: Algorithm, p: seq<Byte>) returns (v: Word)
    requires |p| == a.wordBytes
    ensures v == Load(a, p)
  {
    hide Join, OrWord;
    v := 0;
    if a.bigEndian {
      for i := 0 to |p|
        invariant v == LoadBig(p[..i])
      {
        assert p[..i + 1][..i] == p[..i];
        v := Join(v, p[i]);
      }
    } else {
      for i := 0 to |p|
        invariant v == LoadLittle(p[..i])
      {
        assert p[..i + 1] == p[..i] + [p[i]];
        LoadLittleNext(p[..i], p[i]);
        v := OrWord(v, Place(p[i], i));
      }
    }
    assert p[..|p|] == p;
  }

  // ---- messages and padding ---------------------------------------------------

  method BuildMessage(index: nat, out: array<Byte>)
    modifies out
    ensures out[..] == Message(index, out.Length)
  {
    var n := if out.Length < 4 then out.Length else 4;
    for i := 0 to n
      invariant forall k :: 0 <= k < i ==> out[k] == IndexByte(index, k)
    {
      out[i] := IndexByte(index, i);
    }
    for i := n to out.Length
      invariant forall k :: 0 <= k < i ==> out[k] == if k < 4 then IndexByte(index, k) else PatternByte(k)
    {
      out[i] := PatternByte(i);
    }
  }

  /** `w` moved right by `i` bytes. */
  function ShiftedRight(w: Word, i: nat): Word {
    if i == 0 then w else ShiftedRight(w >> 8, i - 1)
  }

  lemma {:induction false} StoredByte(w: Word, n: nat, i: nat)
    requires i < n
    ensures StoreLittle(w, n)[i] == LowByte(ShiftedRight(w, i))
    ensures StoreBig(w, n)[n - 1 - i] == LowByte(ShiftedRight(w, i))
  {
    hide LowByte;
    if i > 0 {
      StoredByte(w >> 8, n - 1, i - 1);
    }
  }

  /** The low 64 bits of the length, over the last eight bytes. */
  method PutLength(a: Algorithm, bitLength: Word, out: array<Byte>)
    requires 8 <= out.Length
    modifies out
    ensures out[..] == old(out[..out.Length - 8]) + Store(a, bitLength, 8)
  {
    hide LowByte;
    var at := out.Length - 8;
    for i := 0 to 8
      invariant out[..at] == old(out[..at])
      invariant forall k :: 0 <= k < i ==> out[at + k] == Store(a, bitLength, 8)[k]
    {
      StoredByte(bitLength, 8, if a.bigEndian then 7 - i else i);
      out[at + i] := LowByte(ShiftedRight(bitLength, if a.bigEndian then 7 - i else i));
    }
    assert out[..] == out[..at] + out[at..];
    assert out[at..] == Store(a, bitLength, 8);
  }

  /** The message, a terminator, and zeros to the end. */
  method Terminate(msg: array<Byte>, out: array<Byte>)
    requires msg != out && msg.Length < out.Length
    modifies out
    ensures out[..] == msg[..] + [0x80] + Zeros(out.Length - msg.Length - 1)
  {
    var n := msg.Length;
    for i := 0 to n
      invariant out[..i] == msg[..i]
    {
      out[i] := msg[i];
    }
    out[n] := 0x80;
    for i := n + 1 to out.Length
      invariant out[..n + 1] == msg[..] + [0x80]
      invariant forall k :: n < k < i ==> out[k] == 0
    {
      out[i] := 0;
    }
  }

  /** memmove of the length from the end of the field to its start. */
  method MoveLength(field: nat, out: array<Byte>)
    requires 8 < field <= out.Length
    modifies out
    ensures var at := out.Length - field;
      out[..] == old(out[..at]) + old(out[out.Length - 8..]) + old(out[at + 8..])
  {
    var at, bits := out.Length - field, out[out.Length - 8..];
    for i := 0 to 8
      invariant out[..] == old(out[..at]) + bits[..i] + old(out[at + i..])
    {
      out[at + i] := bits[i];
    }
    assert bits[..8] == bits;
  }

  /** The last bytes of a padded message, before and after the move. */
  lemma FieldAtEnd(a: Algorithm, head: seq<Byte>, n: nat)
    requires 8 <= a.lengthBytes
    ensures var bits := Store(a, AsWord(BitLength(n)), 8);
      var p := (head + Zeros(a.lengthBytes))[..|head| + a.lengthBytes - 8] + bits;
      && (a.bigEndian || a.lengthBytes == 8 ==> p == head + BuiltField(a, n))
      && (!(a.bigEndian || a.lengthBytes == 8) ==>
          p[..|head|] + p[|p| - 8..] + p[|head| + 8..] == head + BuiltField(a, n))
  {
    hide BitLength, AsWord, Store;
    var bits := Store(a, AsWord(BitLength(n)), 8);
    var p := (head + Zeros(a.lengthBytes))[..|head| + a.lengthBytes - 8] + bits;
    var end := Zeros(a.lengthBytes - 8) + bits;
    assert p == head + end;
    assert p[..|head|] == head && p[|p| - 8..] == bits && p[|head| + 8..] == end[8..];
  }

  /** The padded message as pad_message builds it, to the length field. */
  function BeforeLength(a: Algorithm, msg: seq<Byte>): (p: seq<Byte>)
    requires a.Laid()
    ensures |p| + a.lengthBytes == BlocksFor(a, |msg|) * a.BlockBytes()
    ensures Pad(a, msg) == p + LengthField(a, |msg|)
  {
    BlocksForFits(a, |msg|);
    msg + [0x80] + Zeros(BlocksFor(a, |msg|) * a.BlockBytes() - |msg| - 1 - a.lengthBytes)
  }

  lemma ZerosToTheEnd(a: Algorithm, msg: seq<Byte>)
    requires a.Laid()
    ensures BeforeLength(a, msg) + Zeros(a.lengthBytes)
      == msg + [0x80] + Zeros(BlocksFor(a, |msg|) * a.BlockBytes() - |msg| - 1)
  {
    BlocksForFits(a, |msg|);
    hide BlocksFor;
  }

  lemma BuiltIsPad(a: Algorithm, msg: seq<Byte>)
    requires a.Laid()
    ensures BeforeLength(a, msg) + BuiltField(a, |msg|) == Pad(a, msg)
      <==> a.bigEndian || a.lengthBytes == 8 || Fits(AsWord(BitLength(|msg|)), Hidden(a))
  {
    hide BlocksFor, BitLength, AsWord, Pad, BeforeLength, BuiltField, LengthField, Hidden;
    var head := BeforeLength(a, msg);
    FieldRight(a, |msg|);
    assert (head + BuiltField(a, |msg|))[|head|..] == BuiltField(a, |msg|);
    assert (head + LengthField(a, |msg|))[|head|..] == LengthField(a, |msg|);
  }

  /** The length over the last eight bytes, moved to the front of a wide
      little-endian field. */
  method PutField(a: Algorithm, n: nat, out: array<Byte>, ghost head: seq<Byte>)
    requires 8 <= a.lengthBytes && out[..] == head + Zeros(a.lengthBytes)
    modifies out
    ensures out[..] == head + BuiltField(a, n)
  {
    FieldAtEnd(a, head, n);
    hide Zeros, BitLength, AsWord, Store, BuiltField;
    PutLength(a, AsWord(BitLength(n)), out);
    if !a.bigEndian && a.lengthBytes > 8 {
      MoveLength(a.lengthBytes, out);
    }
  }

  /** pad_message: the message, a terminator, zeros, then the length over the
      last eight of them, moved to the front of a wide little-endian field. That
      is the padding exactly if the move leaves nothing behind. */
  method PadMessage(a: Algorithm, msg: array<Byte>, out: array<Byte>)
    requires a.Laid() && msg != out && out.Length == BlocksFor(a, msg.Length) * a.BlockBytes()
    modifies out
    ensures out[..] == BeforeLength(a, msg[..]) + BuiltField(a, msg.Length)
    ensures out[..] == Pad(a, msg[..])
      <==> a.bigEndian || a.lengthBytes == 8 || Fits(AsWord(BitLength(msg.Length)), Hidden(a))
  {
    BlocksForFits(a, msg.Length);
    hide BlocksFor, Zeros, BitLength, AsWord, BuiltField, BeforeLength, Pad, Fits, Hidden;
    ZerosToTheEnd(a, msg[..]);
    BuiltIsPad(a, msg[..]);
    Terminate(msg, out);
    PutField(a, msg.Length, out, BeforeLength(a, msg[..]));
  }

  // ---- the interleaved layout -------------------------------------------------

  /** The message that owns corpus word `at`, for `per` words a message. */
  function Owner(at: nat, lanes: nat, per: nat): nat
    requires 0 < lanes && 0 < per
  {
    var slot: nat := at / lanes / per;
    slot * lanes + at % lanes
  }

  /** Which word of its message corpus word `at` is. */
  function Offset(at: nat, lanes: nat, per: nat): (x: nat)
    requires 0 < lanes && 0 < per
    ensures x < per
  {
    at / lanes % per
  }

  /** Where word `x` of message `m` goes. */
  function Position(m: nat, x: nat, lanes: nat, per: nat): nat
    requires 0 < lanes
  {
    (m / lanes * per + x) * lanes + m % lanes
  }

  lemma PositionDecodes(m: nat, x: nat, lanes: nat, per: nat)
    requires 0 < lanes && x < per
    ensures Owner(Position(m, x, lanes, per), lanes, per) == m
    ensures Offset(Position(m, x, lanes, per), lanes, per) == x
  {
    Quotient(lanes, m / lanes * per + x, m % lanes);
    Quotient(per, m / lanes, x);
    Rebuild(m, lanes);
  }

  lemma DecodePosition(at: nat, lanes: nat, per: nat)
    requires 0 < lanes && 0 < per
    ensures Position(Owner(at, lanes, per), Offset(at, lanes, per), lanes, per) == at
  {
    Quotient(lanes, at / lanes / per, at % lanes);
    Rebuild(at / lanes, per);
    Rebuild(at, lanes);
  }

  /** Messages and corpus words correspond one to one. */
  lemma PositionInside(m: nat, x: nat, lanes: nat, per: nat, slots: nat)
    requires 0 < lanes && x < per && m < slots * lanes
    ensures Position(m, x, lanes, per) < slots * per * lanes
  {
    QuotientBelow(m, lanes, slots);
    Within(m / lanes, slots, x, per);
    Within(m / lanes * per + x, slots * per, m % lanes, lanes);
  }

  lemma OwnerInside(at: nat, lanes: nat, per: nat, slots: nat)
    requires 0 < lanes && 0 < per && at < slots * per * lanes
    ensures Owner(at, lanes, per) < slots * lanes
  {
    QuotientBelow(at, lanes, slots * per);
    QuotientBelow(at / lanes, per, slots);
    Within(at / lanes / per, slots, at % lanes, lanes);
  }

  // ---- the contents -----------------------------------------------------------

  function WordsPerMessage(a: Algorithm, bytes: nat): nat
    requires a.Valid()
  {
    BlocksFor(a, bytes) * WORDS_PER_BLOCK
  }

  lemma SomeBlocks(a: Algorithm, bytes: nat)
    requires a.Valid()
    ensures 0 < BlocksFor(a, bytes) && 0 < WordsPerMessage(a, bytes)
  {
    BlocksForFits(a, bytes);
    PositiveFactors(BlocksFor(a, bytes), a.BlockBytes());
  }

  /** The padded message behind corpus message `m`. */
  function Padded(a: Algorithm, start: nat, bytes: nat, m: nat): (p: seq<Byte>)
    requires a.Valid()
    ensures |p| == BlocksFor(a, bytes) * a.BlockBytes()
  {
    Pad(a, Message((start + m) % INDICES, bytes))
  }

  lemma WordInside(words: nat, x: nat, w: nat)
    requires x < words
    ensures (x + 1) * w <= words * w
  {
    assert words * w == (x + 1) * w + (words - x - 1) * w;
  }

  lemma PaddedHolds(a: Algorithm, bytes: nat, x: nat)
    requires a.Valid() && x < WordsPerMessage(a, bytes)
    ensures (x + 1) * a.wordBytes <= BlocksFor(a, bytes) * a.BlockBytes()
  {
    WordInside(WordsPerMessage(a, bytes), x, a.wordBytes);
    hide BlocksFor;
  }

  function PaddedWord(a: Algorithm, start: nat, bytes: nat, m: nat, x: nat): Word
    requires a.Valid() && x < WordsPerMessage(a, bytes)
  {
    PaddedHolds(a, bytes, x);
    WordAt(a, Padded(a, start, bytes, m), x)
  }

  /** What corpus word `at` must be. */
  function CorpusWord(a: Algorithm, start: nat, bytes: nat, lanes: nat, at: nat): Word
    requires a.Valid() && 0 < lanes
  {
    SomeBlocks(a, bytes);
    var per := WordsPerMessage(a, bytes);
    PaddedWord(a, start, bytes, Owner(at, lanes, per), Offset(at, lanes, per))
  }

  /** Words before word `x` of message `m`, in the order they are written, are
      in place. */
  ghost predicate Filled(a: Algorithm, start: nat, bytes: nat, lanes: nat, words: seq<Word>, m: nat, x: nat)
    requires a.Valid() && 0 < lanes && 0 < WordsPerMessage(a, bytes)
  {
    forall at :: 0 <= at < |words| && Precedes(at, lanes, WordsPerMessage(a, bytes), m, x)
      ==> words[at] == CorpusWord(a, start, bytes, lanes, at)
  }

  predicate Precedes(at: nat, lanes: nat, per: nat, m: nat, x: nat)
    requires 0 < lanes && 0 < per
  {
    Owner(at, lanes, per) < m || (Owner(at, lanes, per) == m && Offset(at, lanes, per) < x)
  }

  lemma FillOne(a: Algorithm, start: nat, bytes: nat, lanes: nat, words: seq<Word>, m: nat, x: nat)
    requires a.Valid() && 0 < lanes && x < WordsPerMessage(a, bytes)
    requires Filled(a, start, bytes, lanes, words, m, x)
    requires Position(m, x, lanes, WordsPerMessage(a, bytes)) < |words|
    ensures Filled(a, start, bytes, lanes,
      words[Position(m, x, lanes, WordsPerMessage(a, bytes)) := PaddedWord(a, start, bytes, m, x)], m, x + 1)
  {
    hide PaddedWord, WordsPerMessage, Position;
    var per := WordsPerMessage(a, bytes);
    var p := Position(m, x, lanes, per);
    PositionDecodes(m, x, lanes, per);
    forall at | 0 <= at < |words| && Precedes(at, lanes, per, m, x + 1) && at != p
      ensures Precedes(at, lanes, per, m, x)
    {
      DecodePosition(at, lanes, per);
    }
  }

  lemma FillMessage(a: Algorithm, start: nat, bytes: nat, lanes: nat, words: seq<Word>, m: nat)
    requires a.Valid() && 0 < lanes && 0 < WordsPerMessage(a, bytes)
    requires Filled(a, start, bytes, lanes, words, m, WordsPerMessage(a, bytes))
    ensures Filled(a, start, bytes, lanes, words, m + 1, 0)
  {
    hide CorpusWord, WordsPerMessage, Owner;
    assert forall at: nat :: Offset(at, lanes, WordsPerMessage(a, bytes)) < WordsPerMessage(a, bytes);
  }

  /** Where the code finds word j of block b, and where it puts it. */
  lemma SourceIndices(w: nat, blocks: nat, lanes: nat, m: nat, b: nat, j: nat)
    requires 0 < lanes
    ensures b * (WORDS_PER_BLOCK * w) + j * w == (b * WORDS_PER_BLOCK + j) * w
    ensures b * (WORDS_PER_BLOCK * w) + j * w + w == (b * WORDS_PER_BLOCK + j + 1) * w
    ensures ((m / lanes * blocks + b) * WORDS_PER_BLOCK + j) * lanes + m % lanes
      == Position(m, b * WORDS_PER_BLOCK + j, lanes, blocks * WORDS_PER_BLOCK)
  {
    assert (m / lanes * blocks) * WORDS_PER_BLOCK == m / lanes * (blocks * WORDS_PER_BLOCK);
  }

  /** Load word j of block b and put it in its place. */
  method ScatterWord(a: Algorithm, lanes: nat, m: nat, padded: array<Byte>, blocks: nat, b: nat, j: nat,
                     words: array<Word>)
    requires 0 < lanes && (b * WORDS_PER_BLOCK + j + 1) * a.wordBytes <= padded.Length
    requires Position(m, b * WORDS_PER_BLOCK + j, lanes, blocks * WORDS_PER_BLOCK) < words.Length
    modifies words
    ensures words[..] == old(words[..])[Position(m, b * WORDS_PER_BLOCK + j, lanes, blocks * WORDS_PER_BLOCK)
                                        := WordAt(a, padded[..], b * WORDS_PER_BLOCK + j)]
  {
    SourceIndices(a.wordBytes, blocks, lanes, m, b, j);
    hide Load, Position;
    var src := b * a.BlockBytes() + j * a.wordBytes;
    var at := ((m / lanes * blocks + b) * WORDS_PER_BLOCK + j) * lanes + m % lanes;
    var v := LoadWord(a, padded[src..src + a.wordBytes]);
    assert padded[..][src..src + a.wordBytes] == padded[src..src + a.wordBytes];
    words[at] := v;
  }

  /** Everything a corpus build step relies on. */
  ghost predicate Building(a: Algorithm, start: nat, bytes: nat, lanes: nat, slots: nat, m: nat, x: nat,
                           words: seq<Word>)
  {
    && a.Valid() && 0 < lanes && m <= slots * lanes && 0 < WordsPerMessage(a, bytes)
    && |words| == slots * WordsPerMessage(a, bytes) * lanes
    && Filled(a, start, bytes, lanes, words, m, x)
  }

  lemma BuildOne(a: Algorithm, start: nat, bytes: nat, lanes: nat, slots: nat, m: nat, b: nat, j: nat, words: seq<Word>)
    requires Building(a, start, bytes, lanes, slots, m, b * WORDS_PER_BLOCK + j, words)
    requires m < slots * lanes && b < BlocksFor(a, bytes) && j < WORDS_PER_BLOCK
    ensures (b * WORDS_PER_BLOCK + j + 1) * a.wordBytes <= BlocksFor(a, bytes) * a.BlockBytes()
    ensures Position(m, b * WORDS_PER_BLOCK + j, lanes, WordsPerMessage(a, bytes)) < |words|
    ensures Building(a, start, bytes, lanes, slots, m, b * WORDS_PER_BLOCK + j + 1,
      words[Position(m, b * WORDS_PER_BLOCK + j, lanes, WordsPerMessage(a, bytes))
            := WordAt(a, Padded(a, start, bytes, m), b * WORDS_PER_BLOCK + j)])
  {
    var x := b * WORDS_PER_BLOCK + j;
    Within(b, BlocksFor(a, bytes), j, WORDS_PER_BLOCK);
    PaddedHolds(a, bytes, x);
    PositionInside(m, x, lanes, WordsPerMessage(a, bytes), slots);
    FillOne(a, start, bytes, lanes, words, m, x);
    hide Filled, Position, BlocksFor, WordAt, Padded;
  }

  /** Every word of one padded message goes to its place. */
  method ScatterMessage(a: Algorithm, ghost start: nat, bytes: nat, lanes: nat, ghost slots: nat, m: nat,
                        padded: array<Byte>, words: array<Word>)
    requires Building(a, start, bytes, lanes, slots, m, 0, words[..]) && m < slots * lanes
    requires padded[..] == Padded(a, start, bytes, m)
    modifies words
    ensures Building(a, start, bytes, lanes, slots, m + 1, 0, words[..])
  {
    var blocks := BlocksFor(a, bytes);
    hide Building, BlocksFor, Padded, Position;
    for b := 0 to blocks
      invariant Building(a, start, bytes, lanes, slots, m, b * WORDS_PER_BLOCK, words[..])
    {
      for j := 0 to WORDS_PER_BLOCK
        invariant Building(a, start, bytes, lanes, slots, m, b * WORDS_PER_BLOCK + j, words[..])
      {
        BuildOne(a, start, bytes, lanes, slots, m, b, j, words[..]);
        ScatterWord(a, lanes, m, padded, blocks, b, j, words);
      }
    }
    MessageBuilt(a, start, bytes, lanes, slots, m, words[..]);
  }

  lemma MessageBuilt(a: Algorithm, start: nat, bytes: nat, lanes: nat, slots: nat, m: nat, words: seq<Word>)
    requires a.Valid() && m < slots * lanes
    requires Building(a, start, bytes, lanes, slots, m, BlocksFor(a, bytes) * WORDS_PER_BLOCK, words)
    ensures Building(a, start, bytes, lanes, slots, m + 1, 0, words)
  {
    hide Filled, BlocksFor;
    FillMessage(a, start, bytes, lanes, words, m);
  }

  /** vb_corpus_build: refuses shapes that do not fill whole vectors, and
      otherwise puts every word of every padded message in its place. */
  method Build(a: Algorithm, lanes: nat, start: nat, n: nat, bytes: nat) returns (ok: bool, words: array<Word>)
    requires a.Valid()
    ensures ok <==> 0 < lanes && 0 < n && n % lanes == 0
    ensures ok ==> words.Length == n / lanes * WordsPerMessage(a, bytes) * lanes
    ensures ok ==> forall at :: 0 <= at < words.Length ==> words[at] == CorpusWord(a, start, bytes, lanes, at)
  {
    if lanes == 0 || n == 0 || n % lanes != 0 {
      words := new Word[0];
      return false, words;
    }
    var blocks, slots := BlocksFor(a, bytes), n / lanes;
    SomeBlocks(a, bytes);
    Rebuild(n, lanes);
    words := new Word[slots * (blocks * WORDS_PER_BLOCK) * lanes];
    var msg := new Byte[bytes];
    var padded := new Byte[blocks * a.BlockBytes()];
    BuildStarts(a, start, bytes, lanes, slots, words[..]);
    hide Building, BlocksFor, CorpusWord, Message, Pad;
    for m := 0 to n
      invariant Building(a, start, bytes, lanes, slots, m, 0, words[..])
    {
      BuildMessage((start + m) % INDICES, msg);
      PadMessage(a, msg, padded);
      ScatterMessage(a, start, bytes, lanes, slots, m, padded, words);
    }
    BuildEnds(a, start, bytes, lanes, slots, words[..]);
    ok := true;
  }

  lemma BuildStarts(a: Algorithm, start: nat, bytes: nat, lanes: nat, slots: nat, words: seq<Word>)
    requires a.Valid() && 0 < lanes && 0 < WordsPerMessage(a, bytes)
    requires |words| == slots * WordsPerMessage(a, bytes) * lanes
    ensures Building(a, start, bytes, lanes, slots, 0, 0, words)
  {
    hide CorpusWord, WordsPerMessage, Owner, Offset;
  }

  lemma BuildEnds(a: Algorithm, start: nat, bytes: nat, lanes: nat, slots: nat, words: seq<Word>)
    requires Building(a, start, bytes, lanes, slots, slots * lanes, 0, words)
    ensures forall at :: 0 <= at < |words| ==> words[at] == CorpusWord(a, start, bytes, lanes, at)
  {
    hide CorpusWord, WordsPerMessage, Owner, Offset;
    forall at | 0 <= at < |words|
      ensures Precedes(at, lanes, WordsPerMessage(a, bytes), slots * lanes, 0)
    {
      OwnerInside(at, lanes, WordsPerMessage(a, bytes), slots);
    }
  }
}
