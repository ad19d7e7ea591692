/**
 SHA-1 block processing three ways: the reference's eighty-word schedule and
 moving registers, the CPU template's rolling window, and the device kernel's
 rolling window with renamed registers. All compute FIPS 180-4 section 6.1.2.
 */
module Sha1 {
  import opened Checksums
  import opened Algorithms
  import opened Words

  datatype Regs = Regs(a: Word, b: Word, c: Word, d: Word, e: Word)

  /** W_t of FIPS 180-4 section 6.1.2, step 1. */
  function W(m: seq<Word>, t: nat): Word
    requires |m| == WORDS_PER_BLOCK
  {
    if t < 16 then m[t] else Expand(W(m, t - 3), W(m, t - 8), W(m, t - 14), W(m, t - 16))
  }

  function Expand(w3: Word, w8: Word, w14: Word, w16: Word): Word {
    Rotl32(XorWord(XorWord(XorWord(w3, w8), w14), w16), 1)
  }

  function Schedule(m: seq<Word>): nat -> Word
    requires |m| == WORDS_PER_BLOCK
  {
    (t: nat) => W(m, t)
  }

  /** f_t of FIPS 180-4 section 4.1.1. */
  function F(t: nat, x: Word, y: Word, z: Word): Word {
    if t / 20 == 0 then Ch(x, y, z) else if t / 20 == 2 then Maj(x, y, z) else Parity(x, y, z)
  }

  function Temp(t: nat, s: Regs, k: Word, w: Word): Word {
    Add32(Add32(Add32(Add32(Rotl32(s.a, 5), F(t, s.b, s.c, s.d)), s.e), k), w)
  }

  function Round(t: nat, s: Regs, k: Word, w: Word): Regs {
    Regs(Temp(t, s, k, w), s.a, Rotl32(s.b, 30), s.c, s.d)
  }

  function Start(h: seq<Word>): Regs
    requires |h| == 5
  {
    Regs(h[0], h[1], h[2], h[3], h[4])
  }

  /** The registers after `t` rounds. */
  function After(k: seq<Word>, m: seq<Word>, h: seq<Word>, t: nat): Regs
    requires |k| == 4 && |m| == WORDS_PER_BLOCK && |h| == 5 && t <= 80
  {
    if t == 0 then Start(h) else Round(t - 1, After(k, m, h, t - 1), k[(t - 1) / 20], W(m, t - 1))
  }

  function Chained(h: seq<Word>, s: Regs): seq<Word>
    requires |h| == 5
  {
    [Add32(h[0], s.a), Add32(h[1], s.b), Add32(h[2], s.c), Add32(h[3], s.d), Add32(h[4], s.e)]
  }

  function Compress(k: seq<Word>, h: seq<Word>, m: seq<Word>): seq<Word>
    requires |k| == 4 && |m| == WORDS_PER_BLOCK && |h| == 5
  {
    Chained(h, After(k, m, h, 80))
  }

  function CompressOrNot(k: seq<Word>, h: seq<Word>, m: seq<Word>): seq<Word>
    requires |k| == 4
  {
    if |h| == 5 && |m| == WORDS_PER_BLOCK then Compress(k, h, m) else []
  }

  /** SHA-1 as the harness describes it, for given constants. */
  function Descriptor(k: seq<Word>, iv: seq<Word>): Algorithm
    requires |k| == 4
  {
    Algorithm(5, 4, 8, true, iv, (h, m) => CompressOrNot(k, h, m))
  }

  lemma DescriptorValid(k: seq<Word>, iv: seq<Word>)
    requires |k| == 4 && |iv| == 5 && forall j :: 0 <= j < 5 ==> Fits(iv[j], 4)
    ensures Descriptor(k, iv).Valid()
  {
    var a := Descriptor(k, iv);
    forall h, m | |h| == 5 && |m| == WORDS_PER_BLOCK ensures a.IsDigest(a.compress(h, m)) {
      CompressIsDigest(k, h, m);
    }
  }

  lemma CompressIsDigest(k: seq<Word>, h: seq<Word>, m: seq<Word>)
    requires |k| == 4 && |m| == WORDS_PER_BLOCK && |h| == 5
    ensures |Compress(k, h, m)| == 5 && forall j :: 0 <= j < 5 ==> Fits(Compress(k, h, m)[j], 4)
  {
    hide Add32, After;
    var s := After(k, m, h, 80);
    AddFits(h[0], s.a);
    AddFits(h[1], s.b);
    AddFits(h[2], s.c);
    AddFits(h[3], s.d);
    AddFits(h[4], s.e);
  }

  // ---- the reference ----------------------------------------------------------

  /** The message schedule, expanded in full before the first round. */
  method FillSchedule(m: seq<Word>, w: array<Word>)
    requires |m| == WORDS_PER_BLOCK && w.Length == 80
    modifies w
    ensures forall t: nat :: t < 80 ==> w[t] == W(m, t)
  {
    hide Expand;
    for t := 0 to 16
      invariant forall i: nat :: i < t ==> w[i] == W(m, i)
    {
      w[t] := m[t];
    }
    for t := 16 to 80
      invariant forall i: nat :: i < t ==> w[i] == W(m, i)
    {
      w[t] := Expand(w[t - 3], w[t - 8], w[t - 14], w[t - 16]);
    }
  }

  method ReferenceCompress(k: seq<Word>, state: array<Word>, m: seq<Word>)
    requires |k| == 4 && |m| == WORDS_PER_BLOCK && state.Length == 5
    modifies state
    ensures state[..] == Compress(k, old(state[..]), m)
  {
    hide W, F, Rotl32, Add32;
    var w := new Word[80];
    FillSchedule(m, w);
    var a, b, c, d, e := state[0], state[1], state[2], state[3], state[4];
    for i := 0 to 80
      invariant Regs(a, b, c, d, e) == After(k, m, old(state[..]), i)
    {
      var f := F(i, b, c, d);
      var t := Add32(Add32(Add32(Add32(Rotl32(a, 5), f), e), k[i / 20]), w[i]);
      e := d;
      d := c;
      c := Rotl32(b, 30);
      b := a;
      a := t;
    }
    state[0] := Add32(state[0], a);
    state[1] := Add32(state[1], b);
    state[2] := Add32(state[2], c);
    state[3] := Add32(state[3], d);
    state[4] := Add32(state[4], e);
  }

  // ---- the rolling window -----------------------------------------------------

  /** Expand one schedule word in place, from word 16 on. */
  method Roll(ghost m: seq<Word>, w: array<Word>, t: nat)
    requires |m| == WORDS_PER_BLOCK && Window(w[..], Schedule(m), t)
    modifies w
    ensures Window(w[..], Schedule(m), t + 1) && w[t % 16] == W(m, t)
  {
    hide Window, Expand;
    if 16 <= t {
      WindowHolds(w[..], Schedule(m), t, 3);
      WindowHolds(w[..], Schedule(m), t, 8);
      WindowHolds(w[..], Schedule(m), t, 14);
      WindowHolds(w[..], Schedule(m), t, 16);
      WindowRolls(w[..], Schedule(m), t);
      w[t % 16] := Expand(w[(t - 3) % 16], w[(t - 8) % 16], w[(t - 14) % 16], w[(t - 16) % 16]);
    } else {
      WindowOpens(w[..], Schedule(m), t);
    }
    WindowReads(w[..], Schedule(m), t);
  }

  /** Sixteen words loaded are a window. */
  lemma Loads(m: seq<Word>)
    requires |m| == WORDS_PER_BLOCK
    ensures Window(m, Schedule(m), 0)
  {
  }

  /** The CPU template: the window, and registers that move. */
  method TemplateCompress(k: seq<Word>, h: seq<Word>, w: array<Word>) returns (r: seq<Word>)
    requires |k| == 4 && w.Length == WORDS_PER_BLOCK && |h| == 5
    modifies w
    ensures r == Compress(k, h, old(w[..]))
  {
    ghost var m := w[..];
    Loads(m);
    var a, b, c, d, e := h[0], h[1], h[2], h[3], h[4];
    hide Window, W, F, Rotl32, Add32, Schedule;
    for t := 0 to 80
      invariant Window(w[..], Schedule(m), t)
      invariant Regs(a, b, c, d, e) == After(k, m, h, t)
    {
      Roll(m, w, t);
      var tmp := Add32(Rotl32(a, 5), F(t, b, c, d));
      tmp := Add32(tmp, e);
      tmp := Add32(tmp, k[t / 20]);
      tmp := Add32(tmp, w[t % 16]);
      e := d;
      d := c;
      c := Rotl32(b, 30);
      b := a;
      a := tmp;
    }
    r := [Add32(h[0], a), Add32(h[1], b), Add32(h[2], c), Add32(h[3], d), Add32(h[4], e)];
  }

  // ---- renamed registers ------------------------------------------------------

  /** One in-place step: `e` gains the new value and `b` is rotated; which
      variable plays which part changes from step to step. */
  method Step(k: seq<Word>, ghost m: seq<Word>, ghost h: seq<Word>, w: array<Word>, t: nat,
              a: Word, b: Word, c: Word, d: Word, e: Word) returns (e': Word, b': Word)
    requires |k| == 4 && |m| == WORDS_PER_BLOCK && |h| == 5 && t < 80
    requires Window(w[..], Schedule(m), t) && Regs(a, b, c, d, e) == After(k, m, h, t)
    modifies w
    ensures Window(w[..], Schedule(m), t + 1) && Regs(e', a, b', c, d) == After(k, m, h, t + 1)
  {
    hide Window, W, F, Rotl32, Add32, Schedule;
    Roll(m, w, t);
    AddFirst(e, Add32(Rotl32(a, 5), F(t, b, c, d)), k[t / 20], w[t % 16]);
    e' := Add32(e, Add32(Add32(Add32(Rotl32(a, 5), F(t, b, c, d)), k[t / 20]), w[t % 16]));
    b' := Rotl32(b, 30);
  }

  /** Five steps bring every name back to its part. */
  method FiveSteps(k: seq<Word>, ghost m: seq<Word>, ghost h: seq<Word>, w: array<Word>, t: nat,
                   a: Word, b: Word, c: Word, d: Word, e: Word)
    returns (A: Word, B: Word, C: Word, D: Word, E: Word)
    requires |k| == 4 && |m| == WORDS_PER_BLOCK && |h| == 5 && t + 5 <= 80
    requires Window(w[..], Schedule(m), t) && Regs(a, b, c, d, e) == After(k, m, h, t)
    modifies w
    ensures Window(w[..], Schedule(m), t + 5) && Regs(A, B, C, D, E) == After(k, m, h, t + 5)
  {
    hide Window, After, Schedule;
    A, B, C, D, E := a, b, c, d, e;
    E, B := Step(k, m, h, w, t, A, B, C, D, E);
    D, A := Step(k, m, h, w, t + 1, E, A, B, C, D);
    C, E := Step(k, m, h, w, t + 2, D, E, A, B, C);
    B, D := Step(k, m, h, w, t + 3, C, D, E, A, B);
    A, C := Step(k, m, h, w, t + 4, B, C, D, E, A);
  }

  /** The device kernel: the window, and five variables whose names rotate. */
  method DeviceCompress(k: seq<Word>, h: seq<Word>, w: array<Word>) returns (r: seq<Word>)
    requires |k| == 4 && w.Length == WORDS_PER_BLOCK && |h| == 5
    modifies w
    ensures r == Compress(k, h, old(w[..]))
  {
    ghost var m := w[..];
    hide Window, W, Round, Schedule, Add32;
    Loads(m);
    var A, B, C, D, E := h[0], h[1], h[2], h[3], h[4];
    for q := 0 to 16
      invariant Window(w[..], Schedule(m), 5 * q)
      invariant Regs(A, B, C, D, E) == After(k, m, h, 5 * q)
    {
      A, B, C, D, E := FiveSteps(k, m, h, w, 5 * q, A, B, C, D, E);
    }
    r := [Add32(h[0], A), Add32(h[1], B), Add32(h[2], C), Add32(h[3], D), Add32(h[4], E)];
  }
}
