/**
 Word arithmetic. A 32-bit word is a `Word` whose high half is zero; 32-bit
 addition and rotation drop what does not fit. Proofs about rounds use the
 algebra below and never look at bits.
 */
module Words {
  import opened Checksums
  import opened Algorithms

  // ---- 32-bit addition --------------------------------------------------------

  function Narrow(w: Word): bv32 {
    (w & 0xffff_ffff) as bv32
  }

  function Wide(v: bv32): Word {
    v as Word
  }

  function Plus(x: bv32, y: bv32): bv32 {
    x + y
  }

  function Add32(x: Word, y: Word): Word {
    Wide(Plus(Narrow(x), Narrow(y)))
  }

  lemma NarrowWide(v: bv32)
    ensures Narrow(Wide(v)) == v
  {
  }

  lemma PlusIs(x: bv32, y: bv32)
    ensures Plus(x, y) == x + y && Plus(x, y) == Plus(y, x)
  {
  }

  lemma PlusLeft(x: bv32, y: bv32, z: bv32)
    ensures Plus(x + y, z) == x + y + z
  {
  }

  lemma PlusRight(x: bv32, y: bv32, z: bv32)
    ensures Plus(x, y + z) == x + y + z
  {
  }

  lemma PlusAssoc(x: bv32, y: bv32, z: bv32)
    ensures Plus(Plus(x, y), z) == Plus(x, Plus(y, z))
  {
    hide Plus;
    PlusIs(x, y);
    PlusIs(y, z);
    PlusLeft(x, y, z);
    PlusRight(x, y, z);
  }

  lemma AddComm(x: Word, y: Word)
    ensures Add32(x, y) == Add32(y, x)
  {
    hide Plus, Narrow;
    PlusIs(Narrow(x), Narrow(y));
  }

  lemma AddAssoc(x: Word, y: Word, z: Word)
    ensures Add32(Add32(x, y), z) == Add32(x, Add32(y, z))
  {
    hide Plus, Narrow, Wide;
    NarrowWide(Plus(Narrow(x), Narrow(y)));
    NarrowWide(Plus(Narrow(y), Narrow(z)));
    PlusAssoc(Narrow(x), Narrow(y), Narrow(z));
  }

  /** The last term of a sum may come in first. */
  lemma AddFirst(e: Word, x: Word, k: Word, w: Word)
    ensures Add32(e, Add32(Add32(x, k), w)) == Add32(Add32(Add32(x, e), k), w)
  {
    hide Add32;
    AddAssoc(e, Add32(x, k), w);
    AddAssoc(e, x, k);
    AddComm(e, x);
  }

  lemma MaskedFits(w: Word)
    ensures Fits(w & 0xffff_ffff, 4)
  {
    var y := w & 0xffff_ffff;
    assert y >> 8 >> 8 >> 8 >> 8 == 0;
    assert Fits(y >> 8 >> 8 >> 8 >> 8, 0);
    assert Fits(y >> 8 >> 8 >> 8, 1);
    assert Fits(y >> 8 >> 8, 2);
    assert Fits(y >> 8, 3);
  }

  lemma WideMasked(v: bv32)
    ensures Wide(v) & 0xffff_ffff == Wide(v)
  {
  }

  lemma WideFits(v: bv32)
    ensures Fits(Wide(v), 4)
  {
    hide Wide, Fits;
    WideMasked(v);
    MaskedFits(Wide(v));
  }

  lemma AddFits(x: Word, y: Word)
    ensures Fits(Add32(x, y), 4)
  {
    hide Plus, Narrow, Wide;
    WideFits(Plus(Narrow(x), Narrow(y)));
  }

  // ---- 64-bit addition --------------------------------------------------------

  function Add64(x: Word, y: Word): Word {
    x + y
  }

  lemma AddComm64(x: Word, y: Word)
    ensures Add64(x, y) == Add64(y, x)
  {
  }

  // ---- bits -------------------------------------------------------------------

  function Turn(v: bv32, s: bv6): bv32
    requires 0 < s < 32
  {
    (v << s) | (v >> (32 - s))
  }

  function Rotl32(w: Word, s: bv6): Word
    requires 0 < s < 32
  {
    Wide(Turn(Narrow(w), s))
  }

  function Rotr64(w: Word, s: bv7): Word
    requires 0 < s < 64
  {
    (w >> s) | (w << (64 - s))
  }

  function Ch(x: Word, y: Word, z: Word): Word {
    (x & y) | (!x & z)
  }

  function Maj(x: Word, y: Word, z: Word): Word {
    (x & y) | (x & z) | (y & z)
  }

  function Parity(x: Word, y: Word, z: Word): Word {
    XorWord(XorWord(x, y), z)
  }

  // ---- digest feedback --------------------------------------------------------

  /** Block 0 after a digest has been fed back: its first words come from
      registers, the rest from the corpus. */
  function Spliced(head: seq<Word>, rest: seq<Word>): (m: seq<Word>)
    requires |head| <= |rest|
    ensures |m| == |rest|
  {
    head + rest[|head|..]
  }

  // ---- the rolling schedule window --------------------------------------------

  /** Sixteen entries holding the sixteen schedule words before number `t`, the
      word numbered i in entry i mod 16. Before word 16 they hold the first
      sixteen. */
  ghost predicate Window(w: seq<Word>, schedule: nat -> Word, t: nat)
    ensures Window(w, schedule, t) ==> |w| == WORDS_PER_BLOCK
  {
    && |w| == WORDS_PER_BLOCK
    && forall i: nat :: WindowStart(t) <= i < WindowStart(t) + 16 ==> w[i % 16] == schedule(i)
  }

  function WindowStart(t: nat): nat {
    if t < 16 then 0 else t - 16
  }

  /** The entry of word t still holds word t - 16, and every word back to there
      is in its entry. */
  lemma WindowHolds(w: seq<Word>, schedule: nat -> Word, t: nat, back: nat)
    requires Window(w, schedule, t) && 16 <= t && 1 <= back <= 16
    ensures w[(t - back) % 16] == schedule(t - back)
  {
  }

  lemma WindowReads(w: seq<Word>, schedule: nat -> Word, t: nat)
    requires Window(w, schedule, t + 1)
    ensures w[t % 16] == schedule(t)
  {
  }

  /** Overwriting the oldest word with the newest rolls the window on. */
  lemma WindowRolls(w: seq<Word>, schedule: nat -> Word, t: nat)
    requires Window(w, schedule, t) && 16 <= t
    ensures Window(w[t % 16 := schedule(t)], schedule, t + 1)
  {
  }

  lemma WindowOpens(w: seq<Word>, schedule: nat -> Word, t: nat)
    requires Window(w, schedule, t) && t < 16
    ensures Window(w, schedule, t + 1)
  {
  }
}
