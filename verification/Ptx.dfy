/**
 The PTX rewriter: one pass over the input that drops parameter annotations and
 replaces launch-environment registers, into a buffer an eighth larger. The
 output can outgrow that buffer: the register number is parsed past blanks and a
 sign that the position is not moved past.
 */
module Ptx {
  /** What starts at position `p`. */
  predicate At(s: string, p: nat, pattern: string) {
    p + |pattern| <= |s| && s[p..p + |pattern|] == pattern
  }

  predicate Digit(c: char) {
    '0' <= c <= '9'
  }

  predicate Blank(c: char) {
    c == ' ' || '\t' <= c <= '\r'
  }

  /** The end of the digits that start at `p`. */
  function DigitsEnd(s: string, p: nat): (q: nat)
    requires p <= |s|
    ensures p <= q <= |s|
    ensures q > p <==> p < |s| && Digit(s[p])
    decreases |s| - p
  {
    if p < |s| && Digit(s[p]) then DigitsEnd(s, p + 1) else p
  }

  function BlanksEnd(s: string, p: nat): (q: nat)
    requires p <= |s|
    ensures p <= q <= |s|
    decreases |s| - p
  {
    if p < |s| && Blank(s[p]) then BlanksEnd(s, p + 1) else p
  }

  function Number(s: string, p: nat, q: nat): nat
    requires p <= q <= |s| && forall k :: p <= k < q ==> Digit(s[k])
  {
    if p == q then 0 else assert Digit(s[q - 1]); Number(s, p, q - 1) * 10 + (s[q - 1] as int - '0' as int)
  }

  lemma {:induction false} DigitsAre(s: string, p: nat)
    requires p <= |s|
    ensures forall k :: p <= k < DigitsEnd(s, p) ==> Digit(s[k])
    decreases |s| - p
  {
    if p < |s| && Digit(s[p]) {
      DigitsAre(s, p + 1);
    }
  }

  /** atoi: blanks, a sign, digits. */
  function Atoi(s: string, p: nat): int
    requires p <= |s|
  {
    var b := BlanksEnd(s, p);
    var signed := b < |s| && (s[b] == '-' || s[b] == '+');
    var d := if signed then b + 1 else b;
    DigitsAre(s, d);
    var n: int := Number(s, d, DigitsEnd(s, d));
    if signed && s[b] == '-' then -n else n
  }

  /** strstr, from `p` on. */
  function Find(s: string, pattern: string, p: nat): (q: nat)
    requires p <= |s|
    ensures p <= q <= |s| && (q < |s| ==> At(s, q, pattern))
    decreases |s| - p
  {
    if p == |s| || At(s, p, pattern) then p else Find(s, pattern, p + 1)
  }

  const PTR: string := " .ptr ."
  const ALIGN: string := ".align "
  const ENVREG: string := "%envreg"
  const NCTAID: string := "%nctaid.x"
  const MOV_B32: string := "mov.b32"
  const MOV_U32: string := "mov.u32"

  /** Where an annotation that starts at `p` ends, or `p` if none does. */
  function AnnotationEnd(s: string, p: nat): (q: nat)
    requires p <= |s|
    ensures p <= q <= |s|
  {
    var a := Find(s, ALIGN, p);
    if At(s, p, PTR) && a < |s| && a - p < 32 then DigitsEnd(s, a + 7) else p
  }

  // ---- how much is read and written -------------------------------------------

  /** One turn of the loop: how many characters it reads and writes, and whether
      it refuses the input. */
  datatype Turn = Turn(taken: nat, given: nat, refused: bool)

  function TurnAt(s: string, p: nat): (t: Turn)
    requires p < |s|
    ensures 0 < t.taken <= |s| - p
  {
    var q := AnnotationEnd(s, p);
    if p < q then Turn(q - p, 0, false)
    else if At(s, p, ENVREG) then
      var taken := DigitsEnd(s, p + 7) - p;
      var reg := Atoi(s, p + 7);
      if reg == 0 || reg == 3 then Turn(taken, 1, false)
      else if reg == 6 then Turn(taken, 9, false)
      else Turn(taken, 0, true)
    else Turn(1, 1, false)
  }

  /** The whole output's length, if the input is accepted. */
  function Written(s: string, p: nat): nat
    requires p <= |s|
    decreases |s| - p
  {
    if p == |s| || TurnAt(s, p).refused then 0
    else TurnAt(s, p).given + Written(s, p + TurnAt(s, p).taken)
  }

  function Capacity(s: string): nat {
    |s| + |s| / 8 + 1
  }

  /** The register that counts groups, with no digit right after its name: the
      number is read past blanks and a sign that are not skipped over. */
  predicate Loose(s: string, p: nat)
    requires p < |s|
  {
    && At(s, p, ENVREG) && Atoi(s, p + 7) == 6
    && (p + 7 == |s| || !Digit(s[p + 7]))
  }

  /** No annotation begins where a register does. */
  lemma RegisterIsPlain(s: string, p: nat)
    requires p < |s| && At(s, p, ENVREG)
    ensures AnnotationEnd(s, p) == p
  {
    assert ENVREG[0] == '%' && PTR[0] == ' ';
    assert s[p] == '%';
  }

  /** A turn stays within nine written for eight read exactly if it is not such
      a register. */
  lemma TurnGrows(s: string, p: nat)
    requires p < |s|
    ensures 8 * TurnAt(s, p).given <= 9 * TurnAt(s, p).taken <==> !Loose(s, p)
  {
    if At(s, p, ENVREG) {
      RegisterIsPlain(s, p);
    }
  }

  /** Every register number follows its register at once. */
  predicate Tight(s: string) {
    forall p :: 0 <= p < |s| && At(s, p, ENVREG) ==> p + 7 < |s| && Digit(s[p + 7])
  }

  lemma TightTurn(s: string, p: nat)
    requires Tight(s) && p < |s|
    ensures 8 * TurnAt(s, p).given <= 9 * TurnAt(s, p).taken
  {
    TurnGrows(s, p);
  }

  /** On such input the output stays within an eighth more than what was read,
      at every turn, so all of it and the terminator fit. */
  lemma {:induction false} TightFits(s: string, p: nat)
    requires Tight(s) && p <= |s|
    ensures 8 * Written(s, p) <= 9 * (|s| - p)
    ensures p == 0 ==> Written(s, p) + 1 <= Capacity(s)
    decreases |s| - p
  {
    hide TurnAt, Tight;
    if p < |s| && !TurnAt(s, p).refused {
      TightFits(s, p + TurnAt(s, p).taken);
      TightTurn(s, p);
    }
  }

  // ---- the text ---------------------------------------------------------------

  predicate Break(c: char) {
    c == '\n' || c == ';'
  }

  /** How far back the search for the mnemonic goes: to the last line break or
      semicolon, and at most 256 characters. */
  function Reach(w: string, k: nat): (a: nat)
    requires k <= |w|
    ensures a <= k
  {
    if 0 < k && |w| - k < 256 && !Break(w[k - 1]) then Reach(w, k - 1) else k
  }

  /** The first whole mnemonic at or after `a`, or the end. */
  function FirstMov(w: string, a: nat): (m: nat)
    requires a <= |w|
    ensures a <= m <= |w| && (m < |w| ==> At(w, m, MOV_B32))
    ensures forall k: nat :: a <= k < m ==> !At(w, k, MOV_B32)
    decreases |w| - a
  {
    if a == |w| || At(w, a, MOV_B32) then a else FirstMov(w, a + 1)
  }

  /** The text written so far, with its instruction's mnemonic respelled. */
  function Respelled(w: string): (r: string)
    ensures |r| == |w|
  {
    var m := FirstMov(w, Reach(w, |w|));
    if m < |w| then w[..m] + MOV_U32 + w[m + 7..] else w
  }

  /** The text after the turn at `p`. */
  function Emitted(s: string, p: nat, w: string): (r: string)
    requires p < |s|
    ensures |r| == |w| + TurnAt(s, p).given
  {
    if p < AnnotationEnd(s, p) then w
    else if At(s, p, ENVREG) then
      var reg := Atoi(s, p + 7);
      if reg == 0 || reg == 3 then w + "0" else if reg == 6 then Respelled(w) + NCTAID else w
    else w + [s[p]]
  }

  predicate Mnemonic(w: string, m: nat) {
    m + 7 <= |w| && w[m..m + 7] == "mov.b32"
  }

  /** How far back the search goes: no line break or semicolon in between, at most
      256 characters, and no less far than that allows. */
  lemma {:induction false} ReachIs(w: string, k: nat)
    requires k <= |w| && |w| - k <= 256 && forall i :: k <= i < |w| ==> w[i] != '\n' && w[i] != ';'
    ensures var a := Reach(w, k);
      && |w| - a <= 256 && (forall i :: a <= i < |w| ==> w[i] != '\n' && w[i] != ';')
      && (a == 0 || |w| - a == 256 || w[a - 1] == '\n' || w[a - 1] == ';')
  {
    if 0 < k && |w| - k < 256 && !Break(w[k - 1]) {
      ReachIs(w, k - 1);
    }
  }

  /** Respelling changes the first whole mnemonic in reach, if there is one, and
      nothing else. */
  lemma RespelledText(w: string) returns (m: nat)
    ensures Reach(w, |w|) <= m <= |w| && forall k: nat :: Reach(w, |w|) <= k < m ==> !Mnemonic(w, k)
    ensures m < |w| ==> Mnemonic(w, m) && Respelled(w) == w[..m] + "mov.u32" + w[m + 7..]
    ensures m == |w| ==> Respelled(w) == w
  {
    hide Reach;
    m := FirstMov(w, Reach(w, |w|));
    forall k: nat ensures At(w, k, MOV_B32) == Mnemonic(w, k) {
    }
  }

  /** The digits at `p` are those up to `q`, as many as there are. */
  predicate DigitRun(s: string, p: nat, q: nat) {
    && p <= q <= |s| && (forall k :: p <= k < q ==> Digit(s[k]))
    && (q < |s| ==> !Digit(s[q]))
  }

  lemma {:induction false} DigitRunIs(s: string, p: nat, q: nat)
    requires DigitRun(s, p, q)
    ensures DigitsEnd(s, p) == q
    decreases q - p
  {
    if p < q {
      assert Digit(s[p]);
      DigitRunIs(s, p + 1, q);
    }
  }

  /** The digits spell a single one, after any zeros. */
  predicate Spells(s: string, p: nat, q: nat, last: char) {
    p < q <= |s| && s[q - 1] == last && forall k :: p <= k < q - 1 ==> s[k] == '0'
  }

  lemma {:induction false} ZerosAre(s: string, p: nat, q: nat)
    requires p <= q <= |s| && forall k :: p <= k < q ==> Digit(s[k])
    ensures Number(s, p, q) == 0 <==> forall k :: p <= k < q ==> s[k] == '0'
    decreases q
  {
    if p < q {
      assert Digit(s[q - 1]);
      ZerosAre(s, p, q - 1);
    }
  }

  lemma SpelledNumber(s: string, p: nat, q: nat, n: nat)
    requires p < q <= |s| && n < 10 && forall k :: p <= k < q ==> Digit(s[k])
    ensures Number(s, p, q) == n <==> Spells(s, p, q, '0' + n as char)
  {
    assert Digit(s[q - 1]);
    ZerosAre(s, p, q - 1);
    assert Number(s, p, q) == Number(s, p, q - 1) * 10 + (s[q - 1] as int - '0' as int);
    hide Number;
  }

  /** A register whose number follows at once, with as many digits as it has: the
      group count's becomes its name, after the mnemonic before it is respelled;
      0 and 3 become zero; the input is refused for any other. */
  lemma NumberedRegister(s: string, p: nat, q: nat, w: string)
    requires p + 7 < q && At(s, p, "%envreg") && DigitRun(s, p + 7, q)
    ensures Spells(s, p + 7, q, '6') ==>
      TurnAt(s, p) == Turn(q - p, 9, false) && Emitted(s, p, w) == Respelled(w) + "%nctaid.x"
    ensures Spells(s, p + 7, q, '0') || Spells(s, p + 7, q, '3') ==>
      TurnAt(s, p) == Turn(q - p, 1, false) && Emitted(s, p, w) == w + "0"
    ensures TurnAt(s, p).refused <==>
      !Spells(s, p + 7, q, '6') && !Spells(s, p + 7, q, '0') && !Spells(s, p + 7, q, '3')
  {
    RegisterIsPlain(s, p);
    DigitRunIs(s, p + 7, q);
    assert Digit(s[p + 7]);
    assert BlanksEnd(s, p + 7) == p + 7;
    assert Atoi(s, p + 7) == Number(s, p + 7, q);
    SpelledNumber(s, p + 7, q, 0);
    SpelledNumber(s, p + 7, q, 3);
    SpelledNumber(s, p + 7, q, 6);
    hide AnnotationEnd, Respelled, Number, Spells, Atoi;
  }

  lemma {:induction false} FindFirst(s: string, pattern: string, p: nat, a: nat)
    requires p <= a <= |s| && (a < |s| ==> At(s, a, pattern))
    requires forall k :: p <= k < a ==> !At(s, k, pattern)
    ensures Find(s, pattern, p) == a
    decreases a - p
  {
    if p < a {
      FindFirst(s, pattern, p + 1, a);
    }
  }

  /** A parameter annotation goes, with the digits of its alignment, if that
      begins within 32 characters. */
  lemma AnnotationGoes(s: string, p: nat, a: nat, q: nat, w: string)
    requires At(s, p, " .ptr .") && p <= a < p + 32 && At(s, a, ".align ") && DigitRun(s, a + 7, q)
    requires forall k :: p <= k < a ==> !At(s, k, ".align ")
    ensures TurnAt(s, p) == Turn(q - p, 0, false) && Emitted(s, p, w) == w
  {
    FindFirst(s, ".align ", p, a);
    DigitRunIs(s, a + 7, q);
    hide Find, DigitsEnd;
  }

  /** Otherwise its blank is kept like any character. */
  lemma AnnotationStays(s: string, p: nat, w: string)
    requires At(s, p, " .ptr .") && forall k :: p <= k < p + 32 ==> !At(s, k, ".align ")
    ensures TurnAt(s, p) == Turn(1, 1, false) && Emitted(s, p, w) == w + " "
  {
    var a := Find(s, ".align ", p);
    assert a < |s| ==> At(s, a, ".align ");
    assert s[p] == " .ptr ."[0] == ' ' && ENVREG[0] == '%';
    assert !At(s, p, ENVREG);
    hide Find, Atoi, DigitsEnd, Respelled;
  }

  /** The whole translation of an input that is not refused. */
  function Translated(s: string, p: nat, w: string): (r: string)
    requires p <= |s|
    ensures |r| == |w| + Written(s, p)
    decreases |s| - p
  {
    if p == |s| || TurnAt(s, p).refused then w
    else Translated(s, p + TurnAt(s, p).taken, Emitted(s, p, w))
  }

  predicate Accepts(s: string, p: nat)
    requires p <= |s|
    decreases |s| - p
  {
    p == |s| || (!TurnAt(s, p).refused && Accepts(s, p + TurnAt(s, p).taken))
  }

  /** Where the first register is that the input is refused for. */
  function RefusedAt(s: string, p: nat): (q: nat)
    requires p <= |s| && !Accepts(s, p)
    ensures p <= q < |s| && TurnAt(s, q).refused && q + 7 <= |s|
    decreases |s| - p
  {
    if TurnAt(s, p).refused then p else RefusedAt(s, p + TurnAt(s, p).taken)
  }

  lemma {:induction false} FoundIs(s: string, pattern: string, p: nat)
    requires p <= |s| && pattern != ""
    ensures Find(s, pattern, p) < |s| <==> exists k :: p <= k < |s| && At(s, k, pattern)
    decreases |s| - p
  {
    if p < |s| && !At(s, p, pattern) {
      FoundIs(s, pattern, p + 1);
    }
  }

  lemma PlainTurn(s: string, p: nat, w: string)
    requires p < |s| && !At(s, p, PTR) && !At(s, p, ENVREG)
    ensures TurnAt(s, p) == Turn(1, 1, false) && Emitted(s, p, w) == w + [s[p]]
  {
    hide Find, Atoi, DigitsEnd, Respelled;
  }

  /** Text with nothing to translate comes out as it went in. */
  lemma {:induction false} Untouched(s: string, p: nat, w: string)
    requires p <= |s| && forall k :: p <= k < |s| ==> !At(s, k, PTR) && !At(s, k, ENVREG)
    ensures Accepts(s, p) && Translated(s, p, w) == w + s[p..]
    decreases |s| - p
  {
    hide TurnAt, Emitted;
    if p < |s| {
      PlainTurn(s, p, w);
      Untouched(s, p + 1, w + [s[p]]);
      assert w + s[p..] == w + [s[p]] + s[p + 1..];
    }
  }

  const BLANK_NUMBER: string := "%envreg 6"

  lemma BlankNumber()
    ensures |BLANK_NUMBER| == 9 && At(BLANK_NUMBER, 0, ENVREG)
    ensures DigitsEnd(BLANK_NUMBER, 7) == 7 && Atoi(BLANK_NUMBER, 7) == 6
  {
    var s := BLANK_NUMBER;
    assert s[..7] == ENVREG && s[7] == ' ' && s[8] == '6';
    assert BlanksEnd(s, 8) == 8 && BlanksEnd(s, 7) == 8;
    assert DigitsEnd(s, 9) == 9 && DigitsEnd(s, 8) == 9;
    assert Number(s, 8, 8) == 0 && Number(s, 8, 9) == 6;
  }

  /** Nine characters that a buffer of eleven is too small for: the register's
      number follows a blank, which the number is parsed past but the position
      is not. */
  lemma BlankOverruns()
    ensures Capacity(BLANK_NUMBER) == 11 && Accepts(BLANK_NUMBER, 0) && Written(BLANK_NUMBER, 0) == 11
  {
    var s := BLANK_NUMBER;
    BlankNumber();
    assert s[0] == '%' && s[7] == ' ' && s[8] == '6';
    assert !At(s, 0, PTR) && !At(s, 7, PTR) && !At(s, 8, PTR) && !At(s, 7, ENVREG) && !At(s, 8, ENVREG);
    PlainTurn(s, 7, "");
    PlainTurn(s, 8, "");
    assert TurnAt(s, 0) == Turn(7, 9, false);
    hide TurnAt;
    assert Written(s, 9) == 0 && Written(s, 8) == 1 && Written(s, 7) == 2;
    assert Accepts(s, 9) && Accepts(s, 8) && Accepts(s, 7);
  }

  // ---- the rewriter -----------------------------------------------------------

  /** What becomes of an input. Overrun stands for a write past the buffer. */
  datatype Outcome = Done(text: string) | Refused(reg: int) | Overrun

  /** Search back from the end of what is written for the instruction's
      mnemonic. Only characters already written are looked at. */
  method SearchBack(out: array<char>, o: nat) returns (mv: nat)
    requires o <= out.Length
    ensures mv == FirstMov(out[..o], Reach(out[..o], o))
  {
    ghost var w := out[..o];
    var k := o;
    mv := o;
    while k > 0 && o - k < 256 && !Break(out[k - 1])
      invariant k <= mv <= o && Reach(w, k) == Reach(w, o)
      invariant mv == FirstMov(w, k)
    {
      if o - (k - 1) >= 7 {
        assert w[k - 1..k + 6] == out[k - 1..k + 6] by {
          hide Reach, FirstMov;
          assert forall j :: k - 1 <= j < k + 6 ==> w[j] == out[j];
        }
        if out[k - 1..k + 6] == MOV_B32 {
          mv := k - 1;
        }
      }
      k := k - 1;
    }
  }

  method Respell(out: array<char>, o: nat)
    requires o <= out.Length
    modifies out
    ensures out[..o] == Respelled(old(out[..o]))
  {
    hide Reach, FirstMov;
    var mv := SearchBack(out, o);
    if mv < o {
      Overwrite(out, o, mv, MOV_U32);
    }
  }

  /** memcpy inside what is written. */
  method Overwrite(out: array<char>, o: nat, at: nat, with: string)
    requires at + |with| <= o <= out.Length
    modifies out
    ensures out[..o] == old(out[..at]) + with + old(out[at + |with|..o])
  {
    for i := 0 to |with|
      invariant out[..o] == old(out[..at]) + with[..i] + old(out[at + i..o])
    {
      out[at + i] := with[i];
    }
  }

  /** memcpy to the end of what is written, if the buffer holds it. */
  method Put(out: array<char>, o: nat, with: string) returns (fits: bool)
    requires o <= out.Length
    modifies out
    ensures fits == (o + |with| <= out.Length)
    ensures fits ==> out[..o + |with|] == old(out[..o]) + with
  {
    fits := o + |with| <= out.Length;
    if fits {
      for i := 0 to |with|
        invariant out[..o + i] == old(out[..o]) + with[..i]
      {
        out[o + i] := with[i];
      }
    }
  }

  /** One turn, in the buffer. */
  method TakeTurn(s: string, p: nat, out: array<char>, o: nat) returns (fits: bool)
    requires p < |s| && o <= out.Length && !TurnAt(s, p).refused
    modifies out
    ensures fits == (o + TurnAt(s, p).given <= out.Length)
    ensures fits ==> out[..o + TurnAt(s, p).given] == Emitted(s, p, old(out[..o]))
  {
    hide AnnotationEnd, Atoi, DigitsEnd, Respelled;
    if p < AnnotationEnd(s, p) {
      return true;
    }
    if At(s, p, ENVREG) {
      if Atoi(s, p + 7) == 6 {
        Respell(out, o);
        fits := Put(out, o, NCTAID);
      } else {
        fits := Put(out, o, "0");
      }
    } else {
      fits := Put(out, o, [s[p]]);
    }
  }

  lemma Refuses(s: string, p: nat)
    requires p < |s| && TurnAt(s, p).refused
    ensures p + 7 <= |s| && Written(s, p) == 0 && !Accepts(s, p) && RefusedAt(s, p) == p
  {
  }

  lemma Advances(s: string, p: nat, w: string)
    requires p < |s| && !TurnAt(s, p).refused
    ensures var q := p + TurnAt(s, p).taken;
      && Written(s, p) == TurnAt(s, p).given + Written(s, q)
      && Accepts(s, p) == Accepts(s, q) && (!Accepts(s, p) ==> RefusedAt(s, p) == RefusedAt(s, q))
      && Translated(s, p, w) == Translated(s, q, Emitted(s, p, w))
  {
    hide TurnAt, Emitted;
  }

  lemma AtEnd(s: string, w: string)
    ensures Written(s, |s|) == 0 && Accepts(s, |s|) && Translated(s, |s|, w) == w
  {
  }

  method TakesLocal(s: string) returns (yes: bool)
    ensures yes <==> exists k :: 0 <= k < |s| && At(s, k, ".ptr .shared")
  {
    FoundIs(s, ".ptr .shared", 0);
    yes := Find(s, ".ptr .shared", 0) < |s|;
  }

  /** vb_ptx_from_opencl, its buffer checked: it gives the translation, or
      refuses and names the first register it knows nothing of, and writes past
      the buffer exactly if what the turns write, and the terminator of an input
      that is not refused, is more than it holds. The kernel takes a local buffer
      as OpenCL's do exactly if some parameter is annotated as shared. */
  method Translate(s: string) returns (r: Outcome, openclAbi: bool)
    ensures r.Overrun? <==> Capacity(s) < Written(s, 0) + (if Accepts(s, 0) then 1 else 0)
    ensures r.Done? ==> Accepts(s, 0) && r.text == Translated(s, 0, "")
    ensures r.Refused? ==> !Accepts(s, 0) && r.reg == Atoi(s, RefusedAt(s, 0) + 7)
    ensures Tight(s) ==> (r.Done? <==> Accepts(s, 0))
    ensures openclAbi <==> exists k :: 0 <= k < |s| && At(s, k, ".ptr .shared")
  {
    hide TurnAt, Emitted, Tight, At, Find, Written, Accepts, RefusedAt, Translated;
    if Tight(s) {
      TightFits(s, 0);
    }
    var out := new char[Capacity(s)](_ => ' ');
    openclAbi := TakesLocal(s);
    var p: nat, o: nat := 0, 0;
    while p < |s|
      invariant p <= |s|
      invariant o <= out.Length
      invariant Written(s, 0) == o + Written(s, p) && Accepts(s, 0) == Accepts(s, p)
      invariant !Accepts(s, 0) ==> RefusedAt(s, 0) == RefusedAt(s, p)
      invariant Translated(s, 0, "") == Translated(s, p, out[..o])
      decreases |s| - p
    {
      var t := TurnAt(s, p);
      if t.refused {
        Refuses(s, p);
        return Refused(Atoi(s, p + 7)), openclAbi;
      }
      Advances(s, p, out[..o]);
      var fits := TakeTurn(s, p, out, o);
      if !fits {
        return Overrun, openclAbi;
      }
      o := o + t.given;
      p := p + t.taken;
    }
    AtEnd(s, out[..o]);
    var fits := Put(out, o, "\0");
    r := if fits then Done(out[..o]) else Overrun;
  }
}
