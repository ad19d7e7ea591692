/**
 What is hashed: the messages, the iteration chain that feeds each digest back
 over the head of its message, and the checksum of a range of message indices.
 */
module Workload {
  import opened Arithmetic
  import opened Checksums
  import opened Algorithms

  /** Message indices are 32-bit and wrap. */
  const INDICES: nat := 0x1_0000_0000

  function PatternByte(offset: nat): Byte {
    ((offset * 0x9d + 0x3b) % 256) as Byte
  }

  /** Byte `i` of a message index, low byte first. */
  function IndexByte(index: nat, i: nat): Byte {
    if i == 0 then (index % 256) as Byte else IndexByte(index / 256, i - 1)
  }

  /** vb_build_message: the index in the first four bytes, then a pattern. */
  function Message(index: nat, bytes: nat): (m: seq<Byte>)
    ensures |m| == bytes
  {
    seq(bytes, i requires 0 <= i < bytes => if i < 4 then IndexByte(index, i) else PatternByte(i))
  }

  // ---- what the bytes say -----------------------------------------------------

  function Int(b: Byte): (n: nat)
    ensures n < 256
  {
    b as nat
  }

  lemma ByteInt(n: nat)
    requires n < 256
    ensures Int(n as Byte) == n
  {
  }

  /** The number a byte string spells, low byte first. */
  function Number(p: seq<Byte>): nat {
    if p == [] then 0 else Int(p[0]) + 256 * Number(p[1..])
  }

  function Power256(n: nat): (p: nat)
    ensures 0 < p
  {
    if n == 0 then 1 else 256 * Power256(n - 1)
  }

  /** vb_distinct_messages: one for every value of the index bytes there is room
      for. */
  function DistinctMessages(bytes: nat): (n: nat)
    ensures 0 < n
  {
    Power256(if bytes < 4 then bytes else 4)
  }

  lemma AllDistinct()
    ensures Power256(4) == INDICES
  {
    assert Power256(1) == 256 && Power256(2) == 65536 && Power256(3) == 16777216;
  }

  lemma DigitAndRest(x: nat, m: nat)
    requires 0 < m
    ensures x % (256 * m) == x % 256 + 256 * (x / 256 % m)
  {
    var q := x / 256;
    Rebuild(x, 256);
    Rebuild(q, m);
    assert x == q / m * (256 * m) + (256 * (q % m) + x % 256);
    Divides(x, 256 * m, q / m, 256 * (q % m) + x % 256);
  }

  /** The first `n` bytes of an index. */
  function IndexBytes(index: nat, n: nat): (p: seq<Byte>)
    ensures |p| == n
  {
    seq(n, i requires 0 <= i < n => IndexByte(index, i))
  }

  lemma {:induction false} IndexSpells(index: nat, n: nat)
    ensures Number(IndexBytes(index, n)) == index % Power256(n)
  {
    if n > 0 {
      IndexSpells(index / 256, n - 1);
      ByteInt(index % 256);
      DigitAndRest(index, Power256(n - 1));
      assert IndexBytes(index, n)[1..] == IndexBytes(index / 256, n - 1);
      hide Int;
    }
  }

  /** The head of a message spells its index, as far as there is room, and every
      byte from the fifth on is the pattern's. */
  lemma MessageSpells(index: nat, bytes: nat)
    requires index < INDICES
    ensures var n := if bytes < 4 then bytes else 4;
      Number(Message(index, bytes)[..n]) == index % DistinctMessages(bytes)
    ensures 4 <= bytes ==> Number(Message(index, bytes)[..4]) == index
    ensures forall i :: 4 <= i < bytes ==> Int(Message(index, bytes)[i]) == (157 * i + 59) % 256
  {
    HeadIsIndex(index, bytes);
    IndexSpells(index, if bytes < 4 then bytes else 4);
    AllDistinct();
    forall i | 4 <= i < bytes ensures Int(Message(index, bytes)[i]) == (157 * i + 59) % 256 {
      PatternSpells(index, bytes, i);
    }
    hide Int, Number, Message, Power256, IndexBytes;
    if 4 <= bytes {
      SmallMod(index, INDICES);
    }
  }

  lemma PatternSpells(index: nat, bytes: nat, i: nat)
    requires 4 <= i < bytes
    ensures Int(Message(index, bytes)[i]) == (157 * i + 59) % 256
  {
    ByteInt((157 * i + 59) % 256);
    hide Int;
  }

  lemma HeadIsIndex(index: nat, bytes: nat)
    ensures var n := if bytes < 4 then bytes else 4; Message(index, bytes)[..n] == IndexBytes(index, n)
  {
    hide IndexByte;
  }

  lemma OneByte(a: Byte, b: Byte)
    requires Int(a) == Int(b)
    ensures a == b
  {
    assert Int(a) as Byte == a && Int(b) as Byte == b;
  }

  lemma FirstDigit(p: seq<Byte>)
    requires p != []
    ensures Int(p[0]) == Number(p) % 256 && Number(p[1..]) == Number(p) / 256
  {
    hide Int;
    assert Number(p) == Int(p[0]) + 256 * Number(p[1..]);
    hide Number;
    Digit(Int(p[0]), Number(p[1..]));
  }

  lemma Digit(d: nat, n: nat)
    requires d < 256
    ensures (d + 256 * n) % 256 == d && (d + 256 * n) / 256 == n
  {
  }

  /** A number has one spelling. */
  lemma {:induction false} OneSpelling(p: seq<Byte>, q: seq<Byte>)
    requires |p| == |q| && Number(p) == Number(q)
    ensures p == q
  {
    hide Int, Number;
    if p != [] {
      FirstDigit(p);
      FirstDigit(q);
      OneByte(p[0], q[0]);
      OneSpelling(p[1..], q[1..]);
      assert p == [p[0]] + p[1..] && q == [q[0]] + q[1..];
    }
  }

  /** Messages are the same exactly if their indices agree as far as there is
      room for them: below vb_distinct_messages no two are. */
  lemma MessagesDiffer(i: nat, j: nat, bytes: nat)
    requires i < INDICES && j < INDICES
    ensures Message(i, bytes) == Message(j, bytes) <==> i % DistinctMessages(bytes) == j % DistinctMessages(bytes)
    ensures i < j < DistinctMessages(bytes) ==> Message(i, bytes) != Message(j, bytes)
  {
    var n := if bytes < 4 then bytes else 4;
    var p, q := Message(i, bytes), Message(j, bytes);
    MessageSpells(i, bytes);
    MessageSpells(j, bytes);
    if i % DistinctMessages(bytes) == j % DistinctMessages(bytes) {
      OneSpelling(p[..n], q[..n]);
      assert p[n..] == q[n..];
      assert p == p[..n] + p[n..] && q == q[..n] + q[n..];
    }
    hide DistinctMessages, Number, Message;
    if i < j < DistinctMessages(bytes) {
      SmallMod(i, DistinctMessages(bytes));
      SmallMod(j, DistinctMessages(bytes));
    }
  }

  lemma SmallMod(x: nat, m: nat)
    requires x < m
    ensures x % m == x
  {
  }

  // ---- hashing over and over --------------------------------------------------

  /** Write the digest over the head of the message it came from. */
  function FedBack(a: Algorithm, msg: seq<Byte>): (m: seq<Byte>)
    requires a.Valid()
    ensures |m| == |msg|
  {
    var d := Hash(a, msg);
    if |msg| < |d| then msg else d + msg[|d|..]
  }

  /** The message as it stands before hash number `n`, counted from zero. */
  function Iterated(a: Algorithm, msg: seq<Byte>, n: nat): (m: seq<Byte>)
    requires a.Valid()
    ensures |m| == |msg|
  {
    if n == 0 then msg else FedBack(a, Iterated(a, msg, n - 1))
  }

  /** Digest words in checksum slots, zero past the digest's width. */
  function Slots(h: seq<Word>): Sum {
    seq(SLOTS, j requires 0 <= j < SLOTS => if j < |h| then h[j] else 0)
  }

  /** A message is long enough to be hashed `n` times. */
  predicate Feeds(a: Algorithm, bytes: nat, n: nat) {
    n <= 1 || a.DigestBytes() <= bytes
  }

  /** What one message adds to the checksum after `n` hashes. */
  function MessageSum(a: Algorithm, index: nat, bytes: nat, n: nat): Sum
    requires a.Valid()
  {
    if n == 0 then Zero else Slots(HashWords(a, Iterated(a, Message(index, bytes), n - 1)))
  }

  function Term(a: Algorithm, start: nat, bytes: nat, n: nat, i: nat): Sum
    requires a.Valid()
  {
    MessageSum(a, (start + i) % INDICES, bytes, n)
  }

  function Terms(a: Algorithm, start: nat, bytes: nat, n: nat): nat -> Sum
    requires a.Valid()
  {
    i => Term(a, start, bytes, n, i)
  }

  /** The specification: the XOR of the final digests of `count` messages. */
  function RangeSum(a: Algorithm, start: nat, count: nat, bytes: nat, n: nat): Sum
    requires a.Valid()
  {
    Big(Terms(a, start, bytes, n), count)
  }

  lemma TermShift(a: Algorithm, start: nat, m: nat, bytes: nat, n: nat, i: nat)
    requires a.Valid()
    ensures Terms(a, start, bytes, n)(m + i) == Terms(a, (start + m) % INDICES, bytes, n)(i)
  {
    hide MessageSum;
    ModAdd(start + m, i, INDICES);
  }

  /** A range splits anywhere, wrapping indices included. */
  lemma RangeSplit(a: Algorithm, start: nat, m: nat, k: nat, bytes: nat, n: nat)
    requires a.Valid()
    ensures RangeSum(a, start, m + k, bytes, n)
      == Xor(RangeSum(a, start, m, bytes, n), RangeSum(a, (start + m) % INDICES, k, bytes, n))
  {
    hide Term, Xor;
    var f, g := Terms(a, start, bytes, n), Terms(a, (start + m) % INDICES, bytes, n);
    BigSplit(f, m, k);
    forall i: nat | i < k ensures f(m + i) == g(i) {
      TermShift(a, start, m, bytes, n, i);
    }
    BigExt((i: nat) => f(m + i), g, k);
  }

  // ---- digests as bytes -------------------------------------------------------

  lemma LastStored(a: Algorithm, h: seq<Word>)
    requires 0 < |h| && Fits(h[|h| - 1], a.wordBytes)
    ensures |StoreWords(a, h)| == (|h| - 1) * a.wordBytes + a.wordBytes
    ensures StoreWords(a, h)[..(|h| - 1) * a.wordBytes] == StoreWords(a, h[..|h| - 1])
    ensures Load(a, StoreWords(a, h)[(|h| - 1) * a.wordBytes..]) == h[|h| - 1]
  {
    var front, last := StoreWords(a, h[..|h| - 1]), Store(a, h[|h| - 1], a.wordBytes);
    assert |front| == (|h| - 1) * a.wordBytes;
    assert StoreWords(a, h) == front + last;
    assert (front + last)[..|front|] == front && (front + last)[|front|..] == last;
    RoundTrip(a, h[|h| - 1]);
  }

  /** A word of a prefix is a word of the whole. */
  lemma PrefixWord(a: Algorithm, p: seq<Byte>, n: nat, j: nat)
    requires (j + 1) * a.wordBytes <= n <= |p|
    ensures WordAt(a, p[..n], j) == WordAt(a, p, j)
  {
    hide Load;
    assert (j + 1) * a.wordBytes == j * a.wordBytes + a.wordBytes;
    assert p[..n][j * a.wordBytes..(j + 1) * a.wordBytes] == p[j * a.wordBytes..(j + 1) * a.wordBytes];
  }

  /** One message hashed once: its digest's words, and zeros after them. */
  lemma OneMessage(a: Algorithm, index: nat, bytes: nat)
    requires a.Valid() && index < INDICES
    ensures var h := HashWords(a, Message(index, bytes));
      |h| == a.digestWords <= SLOTS
      && forall j :: 0 <= j < SLOTS ==> RangeSum(a, index, 1, bytes, 1)[j] == if j < |h| then h[j] else 0
  {
    HashIsDigest(a, Message(index, bytes));
    SmallMod(index, INDICES);
    hide HashWords, Message, Xor;
    var f := Terms(a, index, bytes, 1);
    assert f(0) == Slots(HashWords(a, Message(index, bytes)));
    assert Big(f, 1) == Xor(Big(f, 0), f(0));
    XorZero(f(0));
  }

  /** Loading word j of a stored digest gives digest word j. */
  lemma {:induction false} StoredWord(a: Algorithm, h: seq<Word>, j: nat)
    requires j < |h| && forall i :: 0 <= i < |h| ==> Fits(h[i], a.wordBytes)
    ensures (j + 1) * a.wordBytes <= |h| * a.wordBytes
    ensures WordAt(a, StoreWords(a, h), j) == h[j]
  {
    hide Store, Load, Fits;
    var m, w, p := |h| - 1, a.wordBytes, StoreWords(a, h);
    LastStored(a, h);
    assert (j + 1) * w == j * w + w;
    if j == m {
      assert p[j * w..(j + 1) * w] == p[j * w..];
    } else {
      StoredWord(a, h[..m], j);
      hide StoreWords, WordAt;
      PrefixWord(a, p, m * w, j);
    }
  }

  /** Hashing gives digest words of the algorithm's width. */
  lemma {:induction false} AbsorbDigest(a: Algorithm, h: seq<Word>, p: seq<Byte>)
    requires a.Valid() && a.IsDigest(h)
    ensures a.IsDigest(Absorb(a, h, p))
    decreases |p|
  {
    var n := a.BlockBytes();
    if n <= |p| {
      AbsorbDigest(a, a.compress(h, BlockWords(a, p[..n])), p[n..]);
    }
  }

  lemma HashIsDigest(a: Algorithm, msg: seq<Byte>)
    requires a.Valid()
    ensures a.IsDigest(HashWords(a, msg)) && |Hash(a, msg)| == a.DigestBytes()
  {
    hide Absorb, Fits;
    AbsorbDigest(a, a.iv, Pad(a, msg));
  }
}
