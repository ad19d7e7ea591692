/**
 The one specification everything meets at: a checksum is the XOR of digests.

 A checksum has eight 64-bit slots whatever the algorithm; a narrower digest
 leaves the slots past its width at zero, and a 32-bit word occupies the low
 half of its slot, as the reference and the host-side fold carry them.
 */
module Checksums {
  type Word = bv64

  const SLOTS: nat := 8

  type Sum = s: seq<Word> | |s| == SLOTS witness [0, 0, 0, 0, 0, 0, 0, 0]

  const Zero: Sum := [0, 0, 0, 0, 0, 0, 0, 0]

  function XorWord(x: Word, y: Word): Word {
    x ^ y
  }

  lemma WordComm(x: Word, y: Word)
    ensures XorWord(x, y) == XorWord(y, x) && XorWord(x, 0) == x && XorWord(x, x) == 0
  {
  }

  lemma WordIs(x: Word, y: Word)
    ensures XorWord(x, y) == x ^ y
  {
  }

  lemma WordLeft(x: Word, y: Word, z: Word)
    ensures XorWord(x ^ y, z) == XorWord(x, y ^ z)
  {
  }

  lemma WordAssoc(x: Word, y: Word, z: Word)
    ensures XorWord(XorWord(x, y), z) == XorWord(x, XorWord(y, z))
  {
    hide XorWord;
    WordIs(x, y);
    WordIs(y, z);
    WordLeft(x, y, z);
  }

  function Xor(a: Sum, b: Sum): Sum {
    seq(SLOTS, i requires 0 <= i < SLOTS => XorWord(a[i], b[i]))
  }

  lemma XorComm(a: Sum, b: Sum)
    ensures Xor(a, b) == Xor(b, a)
  {
    forall i | 0 <= i < SLOTS ensures Xor(a, b)[i] == Xor(b, a)[i] {
      WordComm(a[i], b[i]);
    }
  }

  lemma XorLeft(a: Sum, b: Sum, c: Sum, i: nat)
    requires i < SLOTS
    ensures Xor(Xor(a, b), c)[i] == XorWord(XorWord(a[i], b[i]), c[i])
  {
  }

  lemma XorAssoc(a: Sum, b: Sum, c: Sum)
    ensures Xor(Xor(a, b), c) == Xor(a, Xor(b, c))
  {
    XorComm(a, Xor(b, c));
    forall i | 0 <= i < SLOTS ensures Xor(Xor(a, b), c)[i] == Xor(Xor(b, c), a)[i] {
      XorLeft(a, b, c, i);
      XorLeft(b, c, a, i);
      WordAssoc(a[i], b[i], c[i]);
      WordComm(a[i], XorWord(b[i], c[i]));
    }
  }

  lemma XorZero(a: Sum)
    ensures Xor(a, Zero) == a && Xor(Zero, a) == a
  {
    XorComm(a, Zero);
    forall i | 0 <= i < SLOTS ensures Xor(a, Zero)[i] == a[i] {
      WordComm(a[i], 0);
    }
  }

  lemma XorSelf(a: Sum)
    ensures Xor(a, a) == Zero
  {
    forall i | 0 <= i < SLOTS ensures Xor(a, a)[i] == Zero[i] {
      WordComm(a[i], 0);
    }
  }

  /** The two middle terms of a four-term sum change places. */
  lemma XorSwap(a: Sum, b: Sum, c: Sum, d: Sum)
    ensures Xor(Xor(a, b), Xor(c, d)) == Xor(Xor(a, c), Xor(b, d))
  {
    XorAssoc(a, b, Xor(c, d));
    XorAssoc(b, c, d);
    XorComm(b, c);
    XorAssoc(c, b, d);
    XorAssoc(a, c, Xor(b, d));
  }

  /** The XOR of f(0), ..., f(n - 1). */
  function Big(f: nat -> Sum, n: nat): Sum {
    if n == 0 then Zero else Xor(Big(f, n - 1), f(n - 1))
  }

  lemma {:induction false} BigExt(f: nat -> Sum, g: nat -> Sum, n: nat)
    requires forall i: nat :: i < n ==> f(i) == g(i)
    ensures Big(f, n) == Big(g, n)
  {
    if n > 0 {
      BigExt(f, g, n - 1);
    }
  }

  lemma {:induction false} BigZero(n: nat)
    ensures Big(i => Zero, n) == Zero
  {
    if n > 0 {
      BigZero(n - 1);
      XorZero(Zero);
    }
  }

  lemma {:induction false} BigXor(f: nat -> Sum, g: nat -> Sum, n: nat)
    ensures Big(i => Xor(f(i), g(i)), n) == Xor(Big(f, n), Big(g, n))
  {
    if n == 0 {
      XorZero(Zero);
    } else {
      BigXor(f, g, n - 1);
      XorSwap(Big(f, n - 1), Big(g, n - 1), f(n - 1), g(n - 1));
    }
  }

  lemma {:induction false} BigSplit(f: nat -> Sum, m: nat, n: nat)
    ensures Big(f, m + n) == Xor(Big(f, m), Big(i => f(m + i), n))
  {
    if n == 0 {
      XorZero(Big(f, m));
    } else {
      BigSplit(f, m, n - 1);
      XorAssoc(Big(f, m), Big(i => f(m + i), n - 1), f(m + n - 1));
    }
  }

  function Row(f: (nat, nat) -> Sum, i: nat): nat -> Sum {
    j => f(i, j)
  }

  function Column(f: (nat, nat) -> Sum, j: nat): nat -> Sum {
    i => f(i, j)
  }

  function RowSums(f: (nat, nat) -> Sum, m: nat): nat -> Sum {
    i => Big(Row(f, i), m)
  }

  function ColumnSums(f: (nat, nat) -> Sum, n: nat): nat -> Sum {
    j => Big(Column(f, j), n)
  }

  /** A sum over n rows of m columns may be taken columns first. */
  lemma {:induction false} BigTranspose(f: (nat, nat) -> Sum, n: nat, m: nat)
    ensures Big(RowSums(f, m), n) == Big(ColumnSums(f, n), m)
  {
    if n == 0 {
      BigZero(m);
      BigExt(ColumnSums(f, 0), i => Zero, m);
    } else {
      BigTranspose(f, n - 1, m);
      BigXor(ColumnSums(f, n - 1), Row(f, n - 1), m);
      BigExt(ColumnSums(f, n), j => Xor(ColumnSums(f, n - 1)(j), Row(f, n - 1)(j)), m);
    }
  }

  /** A sum over n * m indices, row by row. */
  lemma {:induction false} BigRows(f: nat -> Sum, n: nat, m: nat)
    ensures Big(f, n * m) == Big((i: nat) => Big((j: nat) => f(i * m + j), m), n)
  {
    hide Xor;
    if n > 0 {
      var start: nat := (n - 1) * m;
      BigRows(f, n - 1, m);
      assert n * m == start + m;
      BigSplit(f, start, m);
    }
  }

  /** One term of a sum takes on `x`. */
  lemma {:induction false} BigUpdate(f: nat -> Sum, g: nat -> Sum, n: nat, d: nat, x: Sum)
    requires d < n && g(d) == Xor(f(d), x)
    requires forall i: nat :: i < n && i != d ==> g(i) == f(i)
    ensures Big(g, n) == Xor(Big(f, n), x)
  {
    if d == n - 1 {
      BigExt(f, g, n - 1);
      XorAssoc(Big(f, n - 1), f(n - 1), x);
    } else {
      BigUpdate(f, g, n - 1, d, x);
      XorAssoc(Big(f, n - 1), x, f(n - 1));
      XorComm(x, f(n - 1));
      XorAssoc(Big(f, n - 1), f(n - 1), x);
    }
  }
}
