/**
 The SHA-NI kernel's block step: SHA-1 on quads of words, with a schedule that
 is started one group early, tapers off at the end, and never forms E outside
 the SHA1NEXTE instruction. Instruction meanings are those of the Intel 64 and
 IA-32 Architectures Software Developer's Manual, volume 2B.
 */
module ShaNi {
  import opened Checksums
  import opened Algorithms
  import opened Words
  import opened Sha1

  /** A 128-bit register: four 32-bit words, the highest first. */
  datatype Quad = Quad(d3: Word, d2: Word, d1: Word, d0: Word)

  // ---- the instructions -------------------------------------------------------

  /** One of the rounds inside SHA1RNDS4; `we` is the message word plus E. */
  function RoundWith(imm: nat, a: Word, b: Word, c: Word, d: Word, we: Word, k: Word): Word {
    Add32(Add32(Add32(F(20 * imm, b, c, d), Rotl32(a, 5)), we), k)
  }

  /** The rounds after the first, which carry their own E. */
  function NextRound(imm: nat, s: Regs, w: Word, k: Word): Regs {
    Regs(Add32(Add32(Add32(Add32(F(20 * imm, s.b, s.c, s.d), Rotl32(s.a, 5)), w), s.e), k),
         s.a, Rotl32(s.b, 30), s.c, s.d)
  }

  function Rnds4(abcd: Quad, w: Quad, imm: nat, k: Word): Quad {
    var s1 := Regs(RoundWith(imm, abcd.d3, abcd.d2, abcd.d1, abcd.d0, w.d3, k),
                   abcd.d3, Rotl32(abcd.d2, 30), abcd.d1, abcd.d0);
    var s4 := NextRound(imm, NextRound(imm, NextRound(imm, s1, w.d2, k), w.d1, k), w.d0, k);
    Quad(s4.a, s4.b, s4.c, s4.d)
  }

  function NextE(x: Quad, y: Quad): Quad {
    y.(d3 := Add32(y.d3, Rotl32(x.d3, 30)))
  }

  function Msg1(x: Quad, y: Quad): Quad {
    Quad(XorWord(x.d1, x.d3), XorWord(x.d0, x.d2), XorWord(y.d3, x.d1), XorWord(y.d2, x.d0))
  }

  function Msg2(x: Quad, y: Quad): Quad {
    var w16 := Rotl32(XorWord(x.d3, y.d2), 1);
    Quad(w16, Rotl32(XorWord(x.d2, y.d1), 1), Rotl32(XorWord(x.d1, y.d0), 1), Rotl32(XorWord(x.d0, w16), 1))
  }

  function XorQuad(x: Quad, y: Quad): Quad {
    Quad(XorWord(x.d3, y.d3), XorWord(x.d2, y.d2), XorWord(x.d1, y.d1), XorWord(x.d0, y.d0))
  }

  function AddQuad(x: Quad, y: Quad): Quad {
    Quad(Add32(x.d3, y.d3), Add32(x.d2, y.d2), Add32(x.d1, y.d1), Add32(x.d0, y.d0))
  }

  // ---- the schedule on quads --------------------------------------------------

  /** Schedule words 4j to 4j + 3, the first in the highest place. */
  function Q(m: seq<Word>, j: nat): Quad
    requires |m| == WORDS_PER_BLOCK
  {
    Quad(W(m, 4 * j), W(m, 4 * j + 1), W(m, 4 * j + 2), W(m, 4 * j + 3))
  }

  /** Quad j after its SHA1MSG1; the first four need none. */
  function Part1(m: seq<Word>, j: nat): Quad
    requires |m| == WORDS_PER_BLOCK
  {
    if j < 4 then Q(m, j) else Msg1(Q(m, j - 4), Q(m, j - 3))
  }

  /** Quad j after its SHA1MSG1 and its XOR. */
  function Part2(m: seq<Word>, j: nat): Quad
    requires |m| == WORDS_PER_BLOCK
  {
    if j < 4 then Q(m, j) else XorQuad(Part1(m, j), Q(m, j - 2))
  }

  /** The order in which the instructions take the four terms. */
  lemma XorOrder(w3: Word, w8: Word, w14: Word, w16: Word)
    ensures Rotl32(XorWord(XorWord(XorWord(w14, w16), w8), w3), 1) == Expand(w3, w8, w14, w16)
  {
    hide XorWord, Rotl32;
    var x := XorWord(w14, w16);
    WordComm(XorWord(x, w8), w3);
    WordComm(x, w8);
    WordAssoc(w3, w8, x);
    WordAssoc(XorWord(w3, w8), w14, w16);
  }

  /** Word t as the chain of three instructions forms it. */
  lemma ChainedWord(m: seq<Word>, t: nat)
    requires |m| == WORDS_PER_BLOCK && 16 <= t
    ensures Rotl32(XorWord(XorWord(XorWord(W(m, t - 14), W(m, t - 16)), W(m, t - 8)), W(m, t - 3)), 1) == W(m, t)
  {
    hide XorWord, Rotl32, Expand;
    XorOrder(W(m, t - 3), W(m, t - 8), W(m, t - 14), W(m, t - 16));
  }

  /** SHA1MSG2 completes a quad, its first word feeding its last. */
  lemma Completes(m: seq<Word>, j: nat)
    requires |m| == WORDS_PER_BLOCK && 4 <= j
    ensures Msg2(Part2(m, j), Q(m, j - 1)) == Q(m, j)
  {
    hide W, XorWord, Rotl32;
    ChainedWord(m, 4 * j);
    ChainedWord(m, 4 * j + 1);
    ChainedWord(m, 4 * j + 2);
    ChainedWord(m, 4 * j + 3);
  }

  // ---- four rounds at a time --------------------------------------------------

  lemma SumOrder(x: Word, w: Word, e: Word, k: Word)
    ensures Add32(Add32(x, Add32(w, e)), k) == Add32(Add32(Add32(x, e), k), w)
    ensures Add32(Add32(Add32(x, w), e), k) == Add32(Add32(Add32(x, e), k), w)
  {
    hide Add32;
    AddComm(w, e);
    AddAssoc(x, w, e);
    AddAssoc(x, e, w);
    AddAssoc(Add32(x, e), w, k);
    AddAssoc(Add32(x, e), k, w);
    AddComm(w, k);
  }

  lemma SameFunction(imm: nat, t: nat, x: Word, y: Word, z: Word)
    requires t / 20 == imm
    ensures F(20 * imm, x, y, z) == F(t, x, y, z)
  {
    hide Ch, Maj, Parity;
    assert 20 * imm / 20 == imm;
  }

  /** A round of the instruction is a round of the standard. */
  lemma OneRound(imm: nat, t: nat, s: Regs, w: Word, k: Word)
    requires t / 20 == imm
    ensures RoundWith(imm, s.a, s.b, s.c, s.d, Add32(w, s.e), k) == Temp(t, s, k, w)
    ensures NextRound(imm, s, w, k) == Round(t, s, k, w)
  {
    hide Add32, F, Rotl32;
    SameFunction(imm, t, s.b, s.c, s.d);
    AddComm(F(t, s.b, s.c, s.d), Rotl32(s.a, 5));
    SumOrder(Add32(Rotl32(s.a, 5), F(t, s.b, s.c, s.d)), w, s.e, k);
  }

  function Abcd(s: Regs): Quad {
    Quad(s.a, s.b, s.c, s.d)
  }

  lemma NextAfter(k: seq<Word>, m: seq<Word>, h: seq<Word>, t: nat)
    requires |k| == 4 && |m| == WORDS_PER_BLOCK && |h| == 5 && t < 80
    ensures After(k, m, h, t + 1) == Round(t, After(k, m, h, t), k[t / 20], W(m, t))
  {
    hide W, Round;
  }

  lemma Rnds4IsFourRounds(imm: nat, t: nat, s: Regs, k: Word, w0: Word, w1: Word, w2: Word, w3: Word)
    requires t / 20 == imm && (t + 3) / 20 == imm
    ensures Rnds4(Abcd(s), Quad(Add32(w0, s.e), w1, w2, w3), imm, k)
      == Abcd(Round(t + 3, Round(t + 2, Round(t + 1, Round(t, s, k, w0), k, w1), k, w2), k, w3))
  {
    hide Add32, F, Rotl32, Temp, RoundWith, NextRound;
    var s1 := Round(t, s, k, w0);
    var s2 := Round(t + 1, s1, k, w1);
    OneRound(imm, t, s, w0, k);
    OneRound(imm, t + 1, s1, w1, k);
    OneRound(imm, t + 2, s2, w2, k);
    OneRound(imm, t + 3, Round(t + 2, s2, k, w2), w3, k);
  }

  /** Group g: rounds 4g to 4g + 3. */
  lemma GroupRounds(k: seq<Word>, m: seq<Word>, h: seq<Word>, g: nat)
    requires |k| == 4 && |m| == WORDS_PER_BLOCK && |h| == 5 && g < 20
    ensures var s := After(k, m, h, 4 * g);
      Rnds4(Abcd(s), Q(m, g).(d3 := Add32(W(m, 4 * g), s.e)), g / 5, k[g / 5]) == Abcd(After(k, m, h, 4 * g + 4))
  {
    hide W, Rnds4, Round, Add32, After;
    var s := After(k, m, h, 4 * g);
    Rnds4IsFourRounds(g / 5, 4 * g, s, k[g / 5], W(m, 4 * g), W(m, 4 * g + 1), W(m, 4 * g + 2), W(m, 4 * g + 3));
    NextAfter(k, m, h, 4 * g);
    NextAfter(k, m, h, 4 * g + 1);
    NextAfter(k, m, h, 4 * g + 2);
    NextAfter(k, m, h, 4 * g + 3);
  }

  /** E four rounds on is A rotated: why the instruction can rotate by 30. */
  lemma FourBack(k: seq<Word>, m: seq<Word>, h: seq<Word>, g: nat)
    requires |k| == 4 && |m| == WORDS_PER_BLOCK && |h| == 5 && g < 20
    ensures After(k, m, h, 4 * g + 4).e == Rotl32(After(k, m, h, 4 * g).a, 30)
  {
    hide W, Rotl32, Add32, Temp, After;
    NextAfter(k, m, h, 4 * g);
    NextAfter(k, m, h, 4 * g + 1);
    NextAfter(k, m, h, 4 * g + 2);
    NextAfter(k, m, h, 4 * g + 3);
  }

  // ---- one group --------------------------------------------------------------

  /** What the four message registers hold when group g starts: its own quad,
      the two being worked on, and the last one's. */
  ghost predicate Scheduled(m: seq<Word>, g: nat, mq: seq<Quad>) {
    && |m| == WORDS_PER_BLOCK && |mq| == 4 && 1 <= g
    && (g < 20 ==> mq[g % 4] == Q(m, g))
    && (g < 19 ==> mq[(g + 1) % 4] == Part2(m, g + 1))
    && (g < 18 ==> mq[(g + 2) % 4] == Part1(m, g + 2))
    && (g < 17 ==> mq[(g + 3) % 4] == Q(m, g - 1))
  }

  /** The schedule steps of group g, tapering at both ends. */
  function WorkOn(g: nat, mq: seq<Quad>): (r: seq<Quad>)
    requires |mq| == 4
    ensures |r| == 4
  {
    var m1 := if g <= 16 then mq[(g + 3) % 4 := Msg1(mq[(g + 3) % 4], mq[g % 4])] else mq;
    var m2 := if 2 <= g <= 17 then m1[(g + 2) % 4 := XorQuad(m1[(g + 2) % 4], m1[g % 4])] else m1;
    if 3 <= g <= 18 then m2[(g + 1) % 4 := Msg2(m2[(g + 1) % 4], m2[g % 4])] else m2
  }

  lemma FourApart(g: nat)
    ensures (g + 4) % 4 == g % 4
    ensures g % 4 != (g + 1) % 4 && g % 4 != (g + 2) % 4 && g % 4 != (g + 3) % 4
    ensures (g + 1) % 4 != (g + 2) % 4 && (g + 1) % 4 != (g + 3) % 4 && (g + 2) % 4 != (g + 3) % 4
  {
  }

  /** Each register is worked on from its own old value and the group's quad. */
  lemma WorkSplits(g: nat, mq: seq<Quad>)
    requires |mq| == 4
    ensures WorkOn(g, mq)[g % 4] == mq[g % 4]
    ensures WorkOn(g, mq)[(g + 1) % 4] == if 3 <= g <= 18 then Msg2(mq[(g + 1) % 4], mq[g % 4]) else mq[(g + 1) % 4]
    ensures WorkOn(g, mq)[(g + 2) % 4] == if 2 <= g <= 17 then XorQuad(mq[(g + 2) % 4], mq[g % 4]) else mq[(g + 2) % 4]
    ensures WorkOn(g, mq)[(g + 3) % 4] == if g <= 16 then Msg1(mq[(g + 3) % 4], mq[g % 4]) else mq[(g + 3) % 4]
  {
    FourApart(g);
    hide Msg1, Msg2, XorQuad;
  }

  lemma WorkKeepsSchedule(m: seq<Word>, g: nat, mq: seq<Quad>)
    requires Scheduled(m, g, mq) && g < 20
    ensures Scheduled(m, g + 1, WorkOn(g, mq))
  {
    if 3 <= g <= 18 {
      Completes(m, g + 1);
    }
    WorkSplits(g, mq);
    assert (g + 1 + 3) % 4 == g % 4;
    hide WorkOn, W, Q, Msg1, Msg2, XorQuad;
  }

  method Schedules(g: nat, mq: array<Quad>)
    requires mq.Length == 4
    modifies mq
    ensures mq[..] == WorkOn(g, old(mq[..]))
  {
    hide Msg1, Msg2, XorQuad;
    if g <= 16 {
      mq[(g + 3) % 4] := Msg1(mq[(g + 3) % 4], mq[g % 4]);
    }
    if 2 <= g <= 17 {
      mq[(g + 2) % 4] := XorQuad(mq[(g + 2) % 4], mq[g % 4]);
    }
    if 3 <= g <= 18 {
      mq[(g + 1) % 4] := Msg2(mq[(g + 1) % 4], mq[g % 4]);
    }
  }

  /** What the state registers hold when group g starts: the state after 4g
      rounds, and the one that entered the group before. */
  ghost predicate Stashed(k: seq<Word>, m: seq<Word>, h: seq<Word>, g: nat, es: seq<Quad>, abcd: Quad)
    ensures Stashed(k, m, h, g, es, abcd) ==> |es| == 2 && |k| == 4 && |m| == WORDS_PER_BLOCK && |h| == 5
  {
    && |k| == 4 && |m| == WORDS_PER_BLOCK && |h| == 5 && |es| == 2 && 1 <= g <= 20
    && abcd == Abcd(After(k, m, h, 4 * g))
    && es[g % 2] == Abcd(After(k, m, h, 4 * (g - 1)))
  }

  /** Four rounds: form W + E from the stash, stash the state, advance it. */
  method Rounds(k: seq<Word>, ghost m: seq<Word>, ghost h: seq<Word>, g: nat, quad: Quad, e: array<Quad>, abcd: Quad)
    returns (r: Quad)
    requires e.Length == 2 && Stashed(k, m, h, g, e[..], abcd) && g < 20 && quad == Q(m, g)
    modifies e
    ensures Stashed(k, m, h, g + 1, e[..], r)
  {
    hide After, Rnds4, Add32, Rotl32, W;
    GroupRounds(k, m, h, g);
    FourBack(k, m, h, g - 1);
    e[g % 2] := NextE(e[g % 2], quad);
    e[(g + 1) % 2] := abcd;
    r := Rnds4(abcd, e[g % 2], g / 5, k[g / 5]);
  }

  // ---- a block ----------------------------------------------------------------

  /** The chaining value the two registers stand for. */
  function Digest(abcd: Quad, e: Quad): seq<Word> {
    [abcd.d3, abcd.d2, abcd.d1, abcd.d0, e.d3]
  }

  /** Group 0 has no state behind it, so E comes from the chaining value. */
  lemma FirstGroup(k: seq<Word>, m: seq<Word>, abcd: Quad, he: Quad)
    requires |k| == 4 && |m| == WORDS_PER_BLOCK && he.d2 == he.d1 == he.d0 == 0
    ensures Stashed(k, m, Digest(abcd, he), 1, [AddQuad(he, Q(m, 0)), abcd],
                    Rnds4(abcd, AddQuad(he, Q(m, 0)), 0, k[0]))
  {
    var h := Digest(abcd, he);
    hide W, Round, Rnds4, Add32;
    GroupRounds(k, m, h, 0);
    AddComm(W(m, 0), h[4]);
    RoundsDropHigh(k[0], abcd, Add32(he.d3, W(m, 0)), W(m, 1), W(m, 2), W(m, 3));
  }

  /** Adding zero drops nothing an addition would keep. */
  lemma RoundsDropHigh(k: Word, abcd: Quad, we: Word, w1: Word, w2: Word, w3: Word)
    ensures Rnds4(abcd, Quad(we, Add32(0, w1), Add32(0, w2), Add32(0, w3)), 0, k)
      == Rnds4(abcd, Quad(we, w1, w2, w3), 0, k)
  {
    hide Add32, F, Rotl32;
    forall x: Word, y: Word, w: Word ensures Add32(Add32(x, y), Add32(0, w)) == Add32(Add32(x, y), w) {
      AddZero(x, y, w);
    }
  }

  lemma AddZero(x: Word, y: Word, w: Word)
    ensures Add32(Add32(x, y), Add32(0, w)) == Add32(Add32(x, y), w)
  {
    hide Plus, Narrow, Wide;
    NarrowWide(Plus(Narrow(0), Narrow(w)));
    ZeroPlus(Narrow(w));
  }

  lemma ZeroPlus(v: bv32)
    ensures Plus(Narrow(0), v) == v
  {
  }

  /** Groups 1 to 19, of one shape or another. */
  method Groups(k: seq<Word>, ghost m: seq<Word>, ghost hs: seq<Word>, mq: array<Quad>, e: array<Quad>, abcd: Quad)
    returns (r: Quad)
    requires mq != e && mq.Length == 4 && e.Length == 2
    requires Stashed(k, m, hs, 1, e[..], abcd) && Scheduled(m, 1, mq[..])
    modifies mq, e
    ensures Stashed(k, m, hs, 20, e[..], r)
  {
    hide W, Q, Stashed, WorkOn, Part1, Part2;
    r := abcd;
    for g := 1 to 20
      invariant Stashed(k, m, hs, g, e[..], r)
      invariant Scheduled(m, g, mq[..])
    {
      WorkKeepsSchedule(m, g, mq[..]);
      r := Rounds(k, m, hs, g, mq[g % 4], e, r);
      Schedules(g, mq);
    }
  }

  lemma LoadedQuads(m: seq<Word>, mq: seq<Quad>)
    requires |m| == WORDS_PER_BLOCK && mq == [Q(m, 0), Q(m, 1), Q(m, 2), Q(m, 3)]
    ensures Scheduled(m, 1, mq)
  {
    hide Q;
  }

  /** Twenty groups: the first by hand, then nineteen, then the chaining
      additions, E's by one more SHA1NEXTE. */
  method Block(k: seq<Word>, ghost m: seq<Word>, h: Quad, he: Quad, mq: array<Quad>) returns (r: Quad, re: Quad)
    requires |k| == 4 && |m| == WORDS_PER_BLOCK && mq.Length == 4 && he.d2 == he.d1 == he.d0 == 0
    requires mq[..] == [Q(m, 0), Q(m, 1), Q(m, 2), Q(m, 3)]
    modifies mq
    ensures Digest(r, re) == Compress(k, Digest(h, he), m)
    ensures re.d2 == re.d1 == re.d0 == 0
  {
    hide Q, Rnds4, AddQuad, Add32, Stashed, Scheduled, Compress, Digest;
    FirstGroup(k, m, h, he);
    LoadedQuads(m, mq[..]);
    var e := new Quad[2];
    e[0] := AddQuad(he, mq[0]);
    e[1] := h;
    var abcd := Rnds4(h, e[0], 0, k[0]);
    assert e[..] == [AddQuad(he, Q(m, 0)), h];
    abcd := Groups(k, m, Digest(h, he), mq, e, abcd);
    LastGroup(k, m, h, he, e[..], abcd);
    re := NextE(e[0], he);
    r := AddQuad(abcd, h);
  }

  /** The last stash gives the chained E, and plain addition the rest. */
  lemma LastGroup(k: seq<Word>, m: seq<Word>, h: Quad, he: Quad, es: seq<Quad>, abcd: Quad)
    requires Stashed(k, m, Digest(h, he), 20, es, abcd)
    ensures Digest(AddQuad(abcd, h), NextE(es[0], he)) == Compress(k, Digest(h, he), m)
  {
    hide After, W, Add32, Rotl32;
    var hs := Digest(h, he);
    var s := After(k, m, hs, 80);
    FourBack(k, m, hs, 19);
    AddComm(s.a, h.d3);
    AddComm(s.b, h.d2);
    AddComm(s.c, h.d1);
    AddComm(s.d, h.d0);
  }

  // ---- loading a block and splicing in a digest --------------------------------

  /** A 32-bit lane. */
  predicate Lane(w: Word) {
    w & 0xffff_ffff == w
  }

  /** Four words in memory order: the first in the lowest place. */
  function InMemory(p: seq<Word>, at: nat): Quad
    requires at + 4 <= |p|
  {
    Quad(p[at + 3], p[at + 2], p[at + 1], p[at])
  }

  /** The shuffle that turns the places around. */
  function Reversed(q: Quad): Quad {
    Quad(q.d0, q.d1, q.d2, q.d3)
  }

  function AndWord(x: Word, y: Word): Word {
    x & y
  }

  function AndQuad(x: Quad, y: Quad): Quad {
    Quad(AndWord(x.d3, y.d3), AndWord(x.d2, y.d2), AndWord(x.d1, y.d1), AndWord(x.d0, y.d0))
  }

  function OrQuad(x: Quad, y: Quad): Quad {
    Quad(OrWord(x.d3, y.d3), OrWord(x.d2, y.d2), OrWord(x.d1, y.d1), OrWord(x.d0, y.d0))
  }

  const LOW_THREE: Quad := Quad(0, 0xffff_ffff, 0xffff_ffff, 0xffff_ffff)

  lemma MaskedWord(x: Word, y: Word)
    ensures OrWord(AndWord(x, 0), y) == y
    ensures Lane(x) ==> OrWord(AndWord(x, 0xffff_ffff), 0) == x
  {
  }

  /** Masking out a quad's first word and OR-ing in the fed-back E replaces
      that word alone. */
  lemma SplicedQuad(q: Quad, e: Quad)
    requires Lane(q.d2) && Lane(q.d1) && Lane(q.d0) && e.d2 == e.d1 == e.d0 == 0
    ensures OrQuad(AndQuad(q, LOW_THREE), e) == q.(d3 := e.d3)
  {
    hide OrWord, AndWord, Lane;
    MaskedWord(q.d3, e.d3);
    MaskedWord(q.d2, 0);
    MaskedWord(q.d1, 0);
    MaskedWord(q.d0, 0);
  }

  /** Load a block, with the digest over its head if it is the first, and run
      it: SHA-1 of the block as spliced. */
  method BlockStep(k: seq<Word>, wp: seq<Word>, first: bool, fb: Quad, fbe: Quad, h: Quad, he: Quad)
    returns (r: Quad, re: Quad)
    requires |k| == 4 && |wp| == WORDS_PER_BLOCK && forall j :: 0 <= j < |wp| ==> Lane(wp[j])
    requires he.d2 == he.d1 == he.d0 == 0 && fbe.d2 == fbe.d1 == fbe.d0 == 0
    ensures Digest(r, re) == Compress(k, Digest(h, he), if first then Spliced(Digest(fb, fbe), wp) else wp)
    ensures re.d2 == re.d1 == re.d0 == 0
  {
    ghost var m := if first then Spliced(Digest(fb, fbe), wp) else wp;
    hide Compress, Lane, Expand;
    var mq := new Quad[4];
    mq[0] := Reversed(InMemory(wp, 0));
    mq[1] := Reversed(InMemory(wp, 4));
    mq[2] := Reversed(InMemory(wp, 8));
    mq[3] := Reversed(InMemory(wp, 12));
    if first {
      SplicedQuad(mq[1], fbe);
      mq[0] := fb;
      mq[1] := OrQuad(AndQuad(mq[1], LOW_THREE), fbe);
    }
    r, re := Block(k, m, h, he, mq);
  }
}
