/**
 MD5 block processing: the reference's computed word indices and moving
 registers, and the kernels' written-out steps, whose registers are renamed and
 whose first four message words are kept apart from the corpus.
 */
module Md5 {
  import opened Checksums
  import opened Algorithms
  import opened Words

  datatype Regs = Regs(a: Word, b: Word, c: Word, d: Word)

  const STEPS: nat := 64

  // ---- RFC 1321 section 3.4 ---------------------------------------------------

  function G(x: Word, y: Word, z: Word): Word {
    (x & z) | (y & !z)
  }

  function I(x: Word, y: Word, z: Word): Word {
    XorWord(y, x | !z)
  }

  function F(i: nat, x: Word, y: Word, z: Word): Word {
    match i / 16
    case 0 => Ch(x, y, z)
    case 1 => G(x, y, z)
    case 2 => Parity(x, y, z)
    case _ => I(x, y, z)
  }

  /** Which message word step `i` reads. */
  function WordIndex(i: nat): (g: nat)
    ensures g < WORDS_PER_BLOCK
  {
    match i / 16
    case 0 => i
    case 1 => (5 * i + 1) % 16
    case 2 => (3 * i + 5) % 16
    case _ => 7 * i % 16
  }

  const SHIFTS: seq<seq<bv6>> := [[7, 12, 17, 22], [5, 9, 14, 20], [4, 11, 16, 23], [6, 10, 15, 21]]

  function Shift(i: nat): (s: bv6)
    requires i < STEPS
    ensures 0 < s < 32
  {
    SHIFTS[i / 16][i % 4]
  }

  function Mixed(i: nat, s: Regs, m: Word, t: Word): Word
    requires i < STEPS
  {
    Rotl32(Add32(Add32(Add32(s.a, F(i, s.b, s.c, s.d)), m), t), Shift(i))
  }

  function Round(i: nat, s: Regs, m: Word, t: Word): Regs
    requires i < STEPS
  {
    Regs(s.d, Add32(s.b, Mixed(i, s, m, t)), s.b, s.c)
  }

  function Start(h: seq<Word>): Regs
    requires |h| == 4
  {
    Regs(h[0], h[1], h[2], h[3])
  }

  /** The registers after `i` steps. */
  function After(t: seq<Word>, m: seq<Word>, h: seq<Word>, i: nat): Regs
    requires |t| == STEPS && |m| == WORDS_PER_BLOCK && |h| == 4 && i <= STEPS
  {
    if i == 0 then Start(h) else Round(i - 1, After(t, m, h, i - 1), m[WordIndex(i - 1)], t[i - 1])
  }

  function Chained(h: seq<Word>, s: Regs): seq<Word>
    requires |h| == 4
  {
    [Add32(h[0], s.a), Add32(h[1], s.b), Add32(h[2], s.c), Add32(h[3], s.d)]
  }

  function Compress(t: seq<Word>, h: seq<Word>, m: seq<Word>): seq<Word>
    requires |t| == STEPS && |m| == WORDS_PER_BLOCK && |h| == 4
  {
    Chained(h, After(t, m, h, STEPS))
  }

  function CompressOrNot(t: seq<Word>, h: seq<Word>, m: seq<Word>): seq<Word>
    requires |t| == STEPS
  {
    if |h| == 4 && |m| == WORDS_PER_BLOCK then Compress(t, h, m) else []
  }

  /** MD5 as the harness describes it, for given constants. */
  function Descriptor(t: seq<Word>, iv: seq<Word>): Algorithm
    requires |t| == STEPS
  {
    Algorithm(4, 4, 8, false, iv, (h, m) => CompressOrNot(t, h, m))
  }

  lemma DescriptorValid(t: seq<Word>, iv: seq<Word>)
    requires |t| == STEPS && |iv| == 4 && forall j :: 0 <= j < 4 ==> Fits(iv[j], 4)
    ensures Descriptor(t, iv).Valid()
  {
    var a := Descriptor(t, iv);
    forall h, m | |h| == 4 && |m| == WORDS_PER_BLOCK ensures a.IsDigest(a.compress(h, m)) {
      CompressIsDigest(t, h, m);
    }
  }

  lemma CompressIsDigest(t: seq<Word>, h: seq<Word>, m: seq<Word>)
    requires |t| == STEPS && |m| == WORDS_PER_BLOCK && |h| == 4
    ensures |Compress(t, h, m)| == 4 && forall j :: 0 <= j < 4 ==> Fits(Compress(t, h, m)[j], 4)
  {
    hide Add32, After;
    var s := After(t, m, h, STEPS);
    AddFits(h[0], s.a);
    AddFits(h[1], s.b);
    AddFits(h[2], s.c);
    AddFits(h[3], s.d);
  }

  // ---- the reference ----------------------------------------------------------

  method ReferenceCompress(t: seq<Word>, state: array<Word>, m: seq<Word>)
    requires |t| == STEPS && |m| == WORDS_PER_BLOCK && state.Length == 4
    modifies state
    ensures state[..] == Compress(t, old(state[..]), m)
  {
    hide F, Rotl32, Add32, WordIndex, Shift;
    var a, b, c, d := state[0], state[1], state[2], state[3];
    for i := 0 to STEPS
      invariant Regs(a, b, c, d) == After(t, m, old(state[..]), i)
    {
      var f, g := F(i, b, c, d), WordIndex(i);
      var tmp := d;
      d := c;
      c := b;
      b := Add32(b, Rotl32(Add32(Add32(Add32(a, f), m[g]), t[i]), Shift(i)));
      a := tmp;
    }
    state[0] := Add32(state[0], a);
    state[1] := Add32(state[1], b);
    state[2] := Add32(state[2], c);
    state[3] := Add32(state[3], d);
  }

  // ---- the kernels ------------------------------------------------------------

  /** The message word each written-out step names, round by round. */
  const NAMED: seq<seq<nat>> := [
    [0, 1, 2, 3, 4, 5, 6, 7, 8, 9, 10, 11, 12, 13, 14, 15],
    [1, 6, 11, 0, 5, 10, 15, 4, 9, 14, 3, 8, 13, 2, 7, 12],
    [5, 8, 11, 14, 1, 4, 7, 10, 13, 0, 3, 6, 9, 12, 15, 2],
    [0, 7, 14, 5, 12, 3, 10, 1, 8, 15, 6, 13, 4, 11, 2, 9]]

  /** The words named are the words the standard's formulas give. */
  lemma NamedWords(i: nat)
    requires i < STEPS
    ensures |NAMED[i / 16]| == 16 && NAMED[i / 16][i % 16] == WordIndex(i)
  {
    NamedRows();
    assert i == 16 * (i / 16) + i % 16;
    hide NAMED;
  }

  lemma NamedRows()
    ensures NAMED[0] == seq(16, (j: nat) => j)
    ensures NAMED[1] == seq(16, (j: nat) => (5 * (16 + j) + 1) % 16)
    ensures NAMED[2] == seq(16, (j: nat) => (3 * (32 + j) + 5) % 16)
    ensures NAMED[3] == seq(16, (j: nat) => 7 * (48 + j) % 16)
  {
  }

  /** The selection function in the other argument order. */
  lemma SelectG(x: Word, y: Word, z: Word)
    ensures Ch(z, x, y) == G(x, y, z)
  {
  }

  /** The round function as the kernels spell it: F and G are one selection. */
  function Spelled(i: nat, x: Word, y: Word, z: Word): Word {
    match i / 16
    case 0 => Ch(x, y, z)
    case 1 => Ch(z, x, y)
    case 2 => Parity(x, y, z)
    case _ => I(x, y, z)
  }

  lemma SpelledIsF(i: nat, x: Word, y: Word, z: Word)
    ensures Spelled(i, x, y, z) == F(i, x, y, z)
  {
    hide Ch, G, I, Parity;
    SelectG(x, y, z);
  }

  /** One in-place step: `a` gains the new value. */
  method Step(t: seq<Word>, ghost h: seq<Word>, head: seq<Word>, rest: seq<Word>, i: nat,
              a: Word, b: Word, c: Word, d: Word) returns (a': Word)
    requires |t| == STEPS && |rest| == WORDS_PER_BLOCK && |head| == 4 && |h| == 4 && i < STEPS
    requires Regs(a, b, c, d) == After(t, Spliced(head, rest), h, i)
    ensures Regs(d, a', b, c) == After(t, Spliced(head, rest), h, i + 1)
  {
    hide F, Spelled, Rotl32, Add32, WordIndex, Shift;
    NamedWords(i);
    SpelledIsF(i, b, c, d);
    var j := NAMED[i / 16][i % 16];
    a' := Add32(a, Spelled(i, b, c, d));
    a' := Add32(a', if j < 4 then head[j] else rest[j]);
    a' := Add32(a', t[i]);
    a' := Rotl32(a', Shift(i));
    AddComm(a', b);
    a' := Add32(a', b);
  }

  /** Four steps bring every name back to its part. */
  method FourSteps(t: seq<Word>, ghost h: seq<Word>, head: seq<Word>, rest: seq<Word>, i: nat,
                   a: Word, b: Word, c: Word, d: Word) returns (A: Word, B: Word, C: Word, D: Word)
    requires |t| == STEPS && |rest| == WORDS_PER_BLOCK && |head| == 4 && |h| == 4 && i + 4 <= STEPS
    requires Regs(a, b, c, d) == After(t, Spliced(head, rest), h, i)
    ensures Regs(A, B, C, D) == After(t, Spliced(head, rest), h, i + 4)
  {
    hide After, Spliced;
    A, B, C, D := a, b, c, d;
    A := Step(t, h, head, rest, i, A, B, C, D);
    D := Step(t, h, head, rest, i + 1, D, A, B, C);
    C := Step(t, h, head, rest, i + 2, C, D, A, B);
    B := Step(t, h, head, rest, i + 3, B, C, D, A);
  }

  /** The kernel: four variables whose names rotate, sixty-four steps. */
  method KernelCompress(t: seq<Word>, h: seq<Word>, head: seq<Word>, rest: seq<Word>) returns (r: seq<Word>)
    requires |t| == STEPS && |rest| == WORDS_PER_BLOCK && |head| == 4 && |h| == 4
    ensures r == Compress(t, h, Spliced(head, rest))
  {
    hide Round, Add32, Spliced;
    ghost var m := Spliced(head, rest);
    var A, B, C, D := h[0], h[1], h[2], h[3];
    for q := 0 to 16
      invariant Regs(A, B, C, D) == After(t, m, h, 4 * q)
    {
      A, B, C, D := FourSteps(t, h, head, rest, 4 * q, A, B, C, D);
    }
    r := [Add32(h[0], A), Add32(h[1], B), Add32(h[2], C), Add32(h[3], D)];
  }
}
