/**
 SHA-512 block processing three ways: the reference's eighty-word schedule and
 moving registers, the CPU template's rolling window, and the device kernel's
 rolling window with renamed registers. All compute FIPS 180-4 section 6.4.2.
 */
module Sha512 {
  import opened Checksums
  import opened Algorithms
  import opened Words

  datatype Regs = Regs(a: Word, b: Word, c: Word, d: Word, e: Word, f: Word, g: Word, h: Word)

  // ---- FIPS 180-4 section 4.1.3 -----------------------------------------------

  function Sum0(x: Word): Word {
    XorWord(XorWord(Rotr64(x, 28), Rotr64(x, 34)), Rotr64(x, 39))
  }

  function Sum1(x: Word): Word {
    XorWord(XorWord(Rotr64(x, 14), Rotr64(x, 18)), Rotr64(x, 41))
  }

  function Sigma0(x: Word): Word {
    XorWord(XorWord(Rotr64(x, 1), Rotr64(x, 8)), x >> 7)
  }

  function Sigma1(x: Word): Word {
    XorWord(XorWord(Rotr64(x, 19), Rotr64(x, 61)), x >> 6)
  }

  // ---- FIPS 180-4 section 6.4.2 -----------------------------------------------

  function W(m: seq<Word>, t: nat): Word
    requires |m| == WORDS_PER_BLOCK
  {
    if t < 16 then m[t] else Expand(W(m, t - 2), W(m, t - 7), W(m, t - 15), W(m, t - 16))
  }

  function Expand(w2: Word, w7: Word, w15: Word, w16: Word): Word {
    Add64(Add64(Add64(Sigma1(w2), w7), Sigma0(w15)), w16)
  }

  function Schedule(m: seq<Word>): nat -> Word
    requires |m| == WORDS_PER_BLOCK
  {
    (t: nat) => W(m, t)
  }

  function Temp1(e: Word, f: Word, g: Word, h: Word, k: Word, w: Word): Word {
    Add64(Add64(Add64(Add64(h, Sum1(e)), Ch(e, f, g)), k), w)
  }

  function Temp2(a: Word, b: Word, c: Word): Word {
    Add64(Sum0(a), Maj(a, b, c))
  }

  function Round(s: Regs, k: Word, w: Word): Regs {
    var t1 := Temp1(s.e, s.f, s.g, s.h, k, w);
    Regs(Add64(t1, Temp2(s.a, s.b, s.c)), s.a, s.b, s.c, Add64(s.d, t1), s.e, s.f, s.g)
  }

  function Start(h: seq<Word>): Regs
    requires |h| == 8
  {
    Regs(h[0], h[1], h[2], h[3], h[4], h[5], h[6], h[7])
  }

  /** The registers after `t` rounds. */
  function After(k: seq<Word>, m: seq<Word>, h: seq<Word>, t: nat): Regs
    requires |k| == 80 && |m| == WORDS_PER_BLOCK && |h| == 8 && t <= 80
  {
    if t == 0 then Start(h) else Round(After(k, m, h, t - 1), k[t - 1], W(m, t - 1))
  }

  function Chained(h: seq<Word>, s: Regs): seq<Word>
    requires |h| == 8
  {
    [Add64(h[0], s.a), Add64(h[1], s.b), Add64(h[2], s.c), Add64(h[3], s.d),
     Add64(h[4], s.e), Add64(h[5], s.f), Add64(h[6], s.g), Add64(h[7], s.h)]
  }

  function Compress(k: seq<Word>, h: seq<Word>, m: seq<Word>): seq<Word>
    requires |k| == 80 && |m| == WORDS_PER_BLOCK && |h| == 8
  {
    Chained(h, After(k, m, h, 80))
  }

  function CompressOrNot(k: seq<Word>, h: seq<Word>, m: seq<Word>): seq<Word>
    requires |k| == 80
  {
    if |h| == 8 && |m| == WORDS_PER_BLOCK then Compress(k, h, m) else []
  }

  /** SHA-512 as the harness describes it, for given constants. */
  function Descriptor(k: seq<Word>, iv: seq<Word>): Algorithm
    requires |k| == 80
  {
    Algorithm(8, 8, 16, true, iv, (h, m) => CompressOrNot(k, h, m))
  }

  lemma DescriptorValid(k: seq<Word>, iv: seq<Word>)
    requires |k| == 80 && |iv| == 8
    ensures Descriptor(k, iv).Valid()
  {
    hide Compress, Fits;
    var a := Descriptor(k, iv);
    forall w: Word ensures Fits(w, 8) {
      WordFits(w);
    }
    forall h, m | |h| == 8 && |m| == WORDS_PER_BLOCK ensures a.IsDigest(a.compress(h, m)) {
      CompressLength(k, h, m);
    }
  }

  lemma CompressLength(k: seq<Word>, h: seq<Word>, m: seq<Word>)
    requires |k| == 80 && |m| == WORDS_PER_BLOCK && |h| == 8
    ensures |Compress(k, h, m)| == 8
  {
    hide After;
  }

  // ---- the reference ----------------------------------------------------------

  /** The message schedule, expanded in full before the first round. */
  method FillSchedule(m: seq<Word>, w: array<Word>)
    requires |m| == WORDS_PER_BLOCK && w.Length == 80
    modifies w
    ensures forall t: nat :: t < 80 ==> w[t] == W(m, t)
  {
    hide Sigma0, Sigma1, Add64;
    for t := 0 to 16
      invariant forall i: nat :: i < t ==> w[i] == W(m, i)
    {
      w[t] := m[t];
    }
    for t := 16 to 80
      invariant forall i: nat :: i < t ==> w[i] == W(m, i)
    {
      w[t] := Add64(Add64(Add64(Sigma1(w[t - 2]), w[t - 7]), Sigma0(w[t - 15])), w[t - 16]);
    }
  }

  method ReferenceRounds(k: seq<Word>, m: seq<Word>, hs: seq<Word>, w: array<Word>) returns (r: Regs)
    requires |k| == 80 && |m| == WORDS_PER_BLOCK && |hs| == 8 && w.Length == 80
    requires forall t: nat :: t < 80 ==> w[t] == W(m, t)
    ensures r == After(k, m, hs, 80)
  {
    hide W, Sum0, Sum1, Ch, Maj, Add64;
    var a, b, c, d, e, f, g, h := hs[0], hs[1], hs[2], hs[3], hs[4], hs[5], hs[6], hs[7];
    for i := 0 to 80
      invariant Regs(a, b, c, d, e, f, g, h) == After(k, m, hs, i)
    {
      var t1 := Add64(Add64(Add64(Add64(h, Sum1(e)), Ch(e, f, g)), k[i]), w[i]);
      var t2 := Add64(Sum0(a), Maj(a, b, c));
      h := g;
      g := f;
      f := e;
      e := Add64(d, t1);
      d := c;
      c := b;
      b := a;
      a := Add64(t1, t2);
    }
    r := Regs(a, b, c, d, e, f, g, h);
  }

  method AddTwo(state: array<Word>, i: nat, x: Word, y: Word)
    requires i + 1 < state.Length
    modifies state
    ensures state[..] == old(state[..])[i := Add64(old(state[i]), x)][i + 1 := Add64(old(state[i + 1]), y)]
  {
    state[i] := Add64(state[i], x);
    state[i + 1] := Add64(state[i + 1], y);
  }

  /** Add the registers into the chaining state. */
  method ChainInto(state: array<Word>, s: Regs)
    requires state.Length == 8
    modifies state
    ensures state[..] == Chained(old(state[..]), s)
  {
    hide Add64;
    AddTwo(state, 0, s.a, s.b);
    AddTwo(state, 2, s.c, s.d);
    AddTwo(state, 4, s.e, s.f);
    AddTwo(state, 6, s.g, s.h);
  }

  method ReferenceCompress(k: seq<Word>, state: array<Word>, m: seq<Word>)
    requires |k| == 80 && |m| == WORDS_PER_BLOCK && state.Length == 8
    modifies state
    ensures state[..] == Compress(k, old(state[..]), m)
  {
    hide W, After, Chained;
    var w := new Word[80];
    FillSchedule(m, w);
    var s := ReferenceRounds(k, m, state[..], w);
    ChainInto(state, s);
  }

  // ---- the rolling window -----------------------------------------------------

  lemma Expands(m: seq<Word>, t: nat)
    requires |m| == WORDS_PER_BLOCK && 16 <= t
    ensures Schedule(m)(t) == Expand(W(m, t - 2), W(m, t - 7), W(m, t - 15), W(m, t - 16))
    ensures Schedule(m)(t - 2) == W(m, t - 2) && Schedule(m)(t - 7) == W(m, t - 7)
    ensures Schedule(m)(t - 15) == W(m, t - 15) && Schedule(m)(t - 16) == W(m, t - 16)
    ensures (t - 16) % 16 == t % 16
  {
    hide Expand;
  }

  lemma ExpandAdds(w2: Word, w7: Word, w15: Word, w16: Word)
    ensures Add64(w16, Add64(Add64(Sigma1(w2), w7), Sigma0(w15))) == Expand(w2, w7, w15, w16)
  {
    hide Add64, Sigma0, Sigma1;
    AddComm64(w16, Add64(Add64(Sigma1(w2), w7), Sigma0(w15)));
  }

  /** Expand one schedule word in place, adding to the word sixteen back, from
      word 16 on. */
  method Roll(ghost m: seq<Word>, w: array<Word>, t: nat)
    requires |m| == WORDS_PER_BLOCK && Window(w[..], Schedule(m), t)
    modifies w
    ensures Window(w[..], Schedule(m), t + 1) && w[t % 16] == W(m, t)
  {
    hide Window, Add64, Sigma0, Sigma1, Expand, W;
    assert Schedule(m)(t) == W(m, t);
    hide Schedule;
    if 16 <= t {
      Expands(m, t);
      WindowHolds(w[..], Schedule(m), t, 2);
      WindowHolds(w[..], Schedule(m), t, 7);
      WindowHolds(w[..], Schedule(m), t, 15);
      WindowHolds(w[..], Schedule(m), t, 16);
      WindowRolls(w[..], Schedule(m), t);
      ExpandAdds(w[(t - 2) % 16], w[(t - 7) % 16], w[(t - 15) % 16], w[t % 16]);
      w[t % 16] := Add64(w[t % 16],
        Add64(Add64(Sigma1(w[(t - 2) % 16]), w[(t - 7) % 16]), Sigma0(w[(t - 15) % 16])));
    } else {
      WindowOpens(w[..], Schedule(m), t);
    }
    WindowReads(w[..], Schedule(m), t);
  }

  /** Sixteen words loaded are a window. */
  lemma Loads(m: seq<Word>)
    requires |m| == WORDS_PER_BLOCK
    ensures Window(m, Schedule(m), 0)
  {
  }

  /** The CPU template: the window, and registers that move. */
  method TemplateCompress(k: seq<Word>, hs: seq<Word>, w: array<Word>) returns (r: seq<Word>)
    requires |k| == 80 && w.Length == WORDS_PER_BLOCK && |hs| == 8
    modifies w
    ensures r == Compress(k, hs, old(w[..]))
  {
    ghost var m := w[..];
    Loads(m);
    var a, b, c, d, e, f, g, h := hs[0], hs[1], hs[2], hs[3], hs[4], hs[5], hs[6], hs[7];
    hide Window, W, Sum0, Sum1, Ch, Maj, Add64, Schedule;
    for t := 0 to 80
      invariant Window(w[..], Schedule(m), t)
      invariant Regs(a, b, c, d, e, f, g, h) == After(k, m, hs, t)
    {
      Roll(m, w, t);
      var t1 := Add64(h, Sum1(e));
      t1 := Add64(t1, Ch(e, f, g));
      t1 := Add64(t1, k[t]);
      t1 := Add64(t1, w[t % 16]);
      var t2 := Add64(Sum0(a), Maj(a, b, c));
      h := g;
      g := f;
      f := e;
      e := Add64(d, t1);
      d := c;
      c := b;
      b := a;
      a := Add64(t1, t2);
    }
    r := [Add64(hs[0], a), Add64(hs[1], b), Add64(hs[2], c), Add64(hs[3], d),
          Add64(hs[4], e), Add64(hs[5], f), Add64(hs[6], g), Add64(hs[7], h)];
  }

  // ---- renamed registers ------------------------------------------------------

  /** One in-place step: the new E lands in the variable playing d, the new A in
      the one playing h. */
  method Step(k: seq<Word>, ghost m: seq<Word>, ghost hs: seq<Word>, w: array<Word>, t: nat,
              a: Word, b: Word, c: Word, d: Word, e: Word, f: Word, g: Word, h: Word)
    returns (d': Word, h': Word)
    requires |k| == 80 && |m| == WORDS_PER_BLOCK && |hs| == 8 && t < 80
    requires Window(w[..], Schedule(m), t) && Regs(a, b, c, d, e, f, g, h) == After(k, m, hs, t)
    modifies w
    ensures Window(w[..], Schedule(m), t + 1) && Regs(h', a, b, c, d', e, f, g) == After(k, m, hs, t + 1)
  {
    hide Window, W, Sum0, Sum1, Ch, Maj, Add64, Schedule;
    Roll(m, w, t);
    var t1 := Add64(Add64(Add64(Add64(h, Sum1(e)), Ch(e, f, g)), k[t]), w[t % 16]);
    var t2 := Add64(Sum0(a), Maj(a, b, c));
    d' := Add64(d, t1);
    h' := Add64(t1, t2);
  }

  /** Eight steps bring every name back to its part. */
  method EightSteps(k: seq<Word>, ghost m: seq<Word>, ghost hs: seq<Word>, w: array<Word>, t: nat,
                    a: Word, b: Word, c: Word, d: Word, e: Word, f: Word, g: Word, h: Word)
    returns (A: Word, B: Word, C: Word, D: Word, E: Word, F: Word, G: Word, H: Word)
    requires |k| == 80 && |m| == WORDS_PER_BLOCK && |hs| == 8 && t + 8 <= 80
    requires Window(w[..], Schedule(m), t) && Regs(a, b, c, d, e, f, g, h) == After(k, m, hs, t)
    modifies w
    ensures Window(w[..], Schedule(m), t + 8) && Regs(A, B, C, D, E, F, G, H) == After(k, m, hs, t + 8)
  {
    hide Window, After, Schedule;
    A, B, C, D, E, F, G, H := a, b, c, d, e, f, g, h;
    D, H := Step(k, m, hs, w, t, A, B, C, D, E, F, G, H);
    C, G := Step(k, m, hs, w, t + 1, H, A, B, C, D, E, F, G);
    B, F := Step(k, m, hs, w, t + 2, G, H, A, B, C, D, E, F);
    A, E := Step(k, m, hs, w, t + 3, F, G, H, A, B, C, D, E);
    H, D := Step(k, m, hs, w, t + 4, E, F, G, H, A, B, C, D);
    G, C := Step(k, m, hs, w, t + 5, D, E, F, G, H, A, B, C);
    F, B := Step(k, m, hs, w, t + 6, C, D, E, F, G, H, A, B);
    E, A := Step(k, m, hs, w, t + 7, B, C, D, E, F, G, H, A);
  }

  /** The device kernel: the window, and eight variables whose names rotate. */
  method DeviceCompress(k: seq<Word>, hs: seq<Word>, w: array<Word>) returns (r: seq<Word>)
    requires |k| == 80 && w.Length == WORDS_PER_BLOCK && |hs| == 8
    modifies w
    ensures r == Compress(k, hs, old(w[..]))
  {
    ghost var m := w[..];
    hide Window, W, Round, Schedule, Add64, Temp1, Temp2, Expand;
    Loads(m);
    assert After(k, m, hs, 0) == Start(hs);
    hide After;
    var A, B, C, D, E, F, G, H := hs[0], hs[1], hs[2], hs[3], hs[4], hs[5], hs[6], hs[7];
    for q := 0 to 10
      invariant Window(w[..], Schedule(m), 8 * q)
      invariant Regs(A, B, C, D, E, F, G, H) == After(k, m, hs, 8 * q)
    {
      A, B, C, D, E, F, G, H := EightSteps(k, m, hs, w, 8 * q, A, B, C, D, E, F, G, H);
    }
    r := [Add64(hs[0], A), Add64(hs[1], B), Add64(hs[2], C), Add64(hs[3], D),
          Add64(hs[4], E), Add64(hs[5], F), Add64(hs[6], G), Add64(hs[7], H)];
  }
}
