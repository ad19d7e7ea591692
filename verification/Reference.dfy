/**
 The reference hash as the three reference files run it: a context fed in
 pieces of any size, then finished. The files differ in word width, byte order
 and length field, which the descriptor carries; their code is the same.
 */
module Reference {
  import opened Arithmetic
  import opened Checksums
  import opened Algorithms
  import opened Hashes

  lemma AbsorbNothing(a: Algorithm)
    requires a.Valid()
    ensures Absorb(a, a.iv, []) == a.iv
  {
  }

  class Context {
    const a: Algorithm
    const x: Code
    const buf: array<Byte>
    const state: array<Word>
    var totalLen: nat
    var bufLen: nat

    /** Everything fed so far, and how many whole blocks of it are absorbed. */
    ghost var data: seq<Byte>
    ghost var blocks: nat

    /** The whole blocks of the data are in `state`, the rest in `buf`. */
    ghost predicate Absorbed()
      reads this`bufLen, this`data, this`blocks, buf, state
      ensures Absorbed() ==>
        && x.Computes(a) && bufLen <= buf.Length == a.BlockBytes() && bufLen <= |data|
        && state.Length == a.digestWords && state as object != buf
        && |data| - bufLen == blocks * a.BlockBytes()
        && state[..] == Absorb(a, a.iv, data[..|data| - bufLen])
    {
      && x.Computes(a) && bufLen <= buf.Length == a.BlockBytes() && bufLen <= |data|
      && state.Length == a.digestWords && state as object != buf
      && |data| - bufLen == blocks * a.BlockBytes()
      && state[..] == Absorb(a, a.iv, data[..|data| - bufLen])
      && buf[..bufLen] == data[|data| - bufLen..]
    }

    ghost predicate Valid()
      reads this, buf, state
    {
      && Absorbed() && bufLen < buf.Length
      && totalLen == Wrapped(|data|)
    }

    constructor (a: Algorithm, x: Code)
      requires x.Computes(a)
      ensures Valid() && data == [] && this.a == a && fresh(buf) && fresh(state)
    {
      this.a, this.x := a, x;
      buf := new Byte[a.BlockBytes()](_ => 0);
      state := new Word[a.digestWords](j requires 0 <= j < |a.iv| => a.iv[j]);
      totalLen, bufLen := 0, 0;
      data, blocks := [], 0;
      new;
      hide Code.Computes, Absorb, Algorithm.Valid, Algorithm.Laid;
      assert state[..] == a.iv;
      assert data[..|data| - bufLen] == [];
      AbsorbNothing(a);
    }

    /** memcpy into the block buffer. */
    method Copy(at: nat, p: seq<Byte>)
      requires at + |p| <= buf.Length
      modifies buf
      ensures buf[..] == old(buf[..at]) + p + old(buf[at + |p|..])
    {
      for i := 0 to |p|
        invariant buf[..] == old(buf[..at]) + p[..i] + old(buf[at + i..])
      {
        buf[at + i] := p[i];
      }
    }

    /** Add bytes the buffer has room for. */
    method Append(p: seq<Byte>)
      requires Absorbed() && bufLen + |p| <= buf.Length
      modifies this`bufLen, this`data, buf
      ensures Absorbed() && data == old(data) + p && bufLen == old(bufLen) + |p|
    {
      hide Code.Computes, Absorb;
      ghost var head := data[..|data| - bufLen];
      Copy(bufLen, p);
      bufLen, data := bufLen + |p|, data + p;
      assert data[..|data| - bufLen] == head;
    }

    /** Absorb one block straight from the input. */
    method Compress(block: seq<Byte>)
      requires Absorbed() && bufLen == 0 && |block| == a.BlockBytes()
      modifies this`data, this`blocks, state
      ensures Absorbed() && data == old(data) + block
    {
      hide Code.Computes, Absorb, Algorithm.Valid, Algorithm.Laid;
      assert data[..|data|] == data;
      AbsorbBlock(a, blocks, data, block, state[..]);
      ReferenceStep(x, a, state, BlockWords(a, block));
      data, blocks := data + block, blocks + 1;
      assert data[..|data|] == data;
    }

    /** Absorb the full buffer. */
    method Flush()
      requires Absorbed() && bufLen == buf.Length
      modifies this`bufLen, this`blocks, state
      ensures Absorbed() && bufLen == 0
    {
      hide Code.Computes, Absorb, Algorithm.Valid, Algorithm.Laid;
      ghost var head := data[..|data| - bufLen];
      assert buf[..bufLen] == buf[..];
      AbsorbBlock(a, blocks, head, buf[..], state[..]);
      ReferenceStep(x, a, state, BlockWords(a, buf[..]));
      bufLen, blocks := 0, blocks + 1;
      assert data[..|data|] == data == head + buf[..];
    }

    /** Complete a partial block, if the bytes reach that far. */
    method TopUp(p: seq<Byte>) returns (take: nat)
      requires Absorbed() && 0 < bufLen < buf.Length
      modifies this`bufLen, this`data, this`blocks, buf, state
      ensures Absorbed() && take <= |p| && data == old(data) + p[..take]
      ensures if bufLen == 0 then true else take == |p| && bufLen < buf.Length
    {
      hide Absorbed, Code.Computes;
      var need := a.BlockBytes() - bufLen;
      take := if |p| < need then |p| else need;
      Append(p[..take]);
      if bufLen == a.BlockBytes() {
        Flush();
      }
    }

    /** Absorb whole blocks straight from the input. */
    method AbsorbWhole(p: seq<Byte>) returns (take: nat)
      requires Absorbed() && bufLen == 0
      modifies this`data, this`blocks, state
      ensures Absorbed() && take <= |p| && data == old(data) + p[..take]
      ensures |p| - take < a.BlockBytes()
    {
      hide Absorbed, Code.Computes;
      take := 0;
      while a.BlockBytes() <= |p| - take
        invariant Absorbed() && take <= |p| && data == old(data) + p[..take]
      {
        var next := take + a.BlockBytes();
        assert p[..next] == p[..take] + p[take..next];
        Compress(p[take..next]);
        take := next;
      }
    }

    /** Absorb every block the bytes complete; keep the rest. */
    method Feed(p: seq<Byte>)
      requires Absorbed() && bufLen < buf.Length
      modifies this`bufLen, this`data, this`blocks, buf, state
      ensures Absorbed() && bufLen < buf.Length && data == old(data) + p
    {
      hide Absorbed, Code.Computes;
      var done := 0;
      if 0 < bufLen {
        done := TopUp(p);
        if 0 < bufLen {
          assert p[..done] == p;
          return;
        }
      }
      Keep(p[done..]);
      assert p == p[..done] + p[done..];
    }

    /** With nothing buffered: whole blocks, then the rest into the buffer. */
    method Keep(p: seq<Byte>)
      requires Absorbed() && bufLen == 0
      modifies this`bufLen, this`data, this`blocks, buf, state
      ensures Absorbed() && bufLen < buf.Length && data == old(data) + p
    {
      hide Absorbed, Code.Computes, Algorithm.Valid, Algorithm.Laid;
      var more := AbsorbWhole(p);
      assert p == p[..more] + p[more..];
      if more < |p| {
        Append(p[more..]);
      }
    }

    /** update: any number of bytes. */
    method Update(p: seq<Byte>)
      requires Valid()
      modifies this, buf, state
      ensures Valid() && data == old(data) + p
    {
      hide Absorbed, Code.Computes;
      WrappedAdd(|data|, |p|);
      totalLen := Wrapped(totalLen + |p|);
      hide Wrapped;
      Feed(p);
    }

    /** The zeros before the length field, spilling into a second block when
        the first has no room for it. */
    method PadZeros() returns (ghost n: nat)
      requires Absorbed() && 0 < bufLen
      modifies this`bufLen, this`data, this`blocks, buf, state
      ensures Absorbed() && bufLen == a.BlockBytes() - a.lengthBytes
      ensures data == old(data) + Zeros(n) && n < a.BlockBytes()
    {
      hide Absorbed, Code.Computes;
      var room := a.BlockBytes() - a.lengthBytes;
      n := 0;
      if room < bufLen {
        n := a.BlockBytes() - bufLen;
        Append(Zeros(a.BlockBytes() - bufLen));
        Flush();
      }
      n := n + room - bufLen;
      Append(Zeros(room - bufLen));
    }

    /** Terminator, zeros and length field, to the end of a block. */
    method Close(field: seq<Byte>) returns (ghost n: nat)
      requires Absorbed() && bufLen < buf.Length && |field| == a.lengthBytes
      modifies this`bufLen, this`data, this`blocks, buf, state
      ensures Absorbed() && bufLen == 0 && n < a.BlockBytes()
      ensures data == old(data) + [0x80] + Zeros(n) + field
    {
      hide Absorbed, Zeros, Code.Computes;
      Append([0x80]);
      n := PadZeros();
      Append(field);
      Flush();
    }

    /** final: terminator, zeros and bit length. */
    method Final() returns (digest: seq<Byte>)
      requires Valid()
      modifies this, buf, state
      ensures digest == Hash(a, old(data))
    {
      BitLengthWraps(|data|);
      hide Absorbed, Code.Computes, Wrapped, BitLength, AsWord, Store, Zeros, StoreWords, Pad;
      var field := Zeros(a.lengthBytes - 8) + Store(a, AsWord(BitLength(totalLen)), 8);
      assert field == LengthField(a, |data|);
      hide LengthField;
      ghost var n := Close(field);
      assert data[..|data|] == data;
      FinalIsPad(a, old(data), blocks, n, data);
      digest := StoreWords(a, state[..]);
    }
  }

  lemma WrappedAdd(m: nat, n: nat)
    ensures Wrapped(Wrapped(m) + n) == Wrapped(m + n)
  {
    ModAdd(m, n, 0x1_0000_0000_0000_0000);
  }

  /** The 64-bit byte counter gives the 64-bit bit length. */
  lemma BitLengthWraps(n: nat)
    ensures BitLength(Wrapped(n)) == BitLength(n)
  {
    var m := 0x1_0000_0000_0000_0000;
    Rebuild(n, m);
    ModShift(8 * (n % m), 8 * (n / m), m);
  }

  /** Fewer than a block of zeros up to a block boundary is the padding. */
  lemma FinalIsPad(a: Algorithm, msg: seq<Byte>, blocks: nat, zeros: nat, padded: seq<Byte>)
    requires a.Valid() && zeros < a.BlockBytes()
    requires padded == msg + [0x80] + Zeros(zeros) + LengthField(a, |msg|)
    requires |padded| == blocks * a.BlockBytes()
    ensures padded == Pad(a, msg)
  {
    hide LengthField, Algorithm.Valid, Algorithm.Laid;
    var n := |msg| + 1 + a.lengthBytes + a.BlockBytes() - 1;
    assert n == blocks * a.BlockBytes() + (n - |padded|);
    Divides(n, a.BlockBytes(), blocks, n - |padded|);
  }

  /** One more whole block on absorbed data. */
  lemma AbsorbBlock(a: Algorithm, blocks: nat, p: seq<Byte>, block: seq<Byte>, state: seq<Word>)
    requires a.Valid() && |p| == blocks * a.BlockBytes() && |block| == a.BlockBytes()
    requires state == Absorb(a, a.iv, p)
    ensures Absorb(a, a.iv, p + block) == a.compress(state, BlockWords(a, block))
    ensures |p + block| == (blocks + 1) * a.BlockBytes()
  {
    AbsorbAppend(a, a.iv, blocks, p, block);
    AbsorbOne(a, state, block);
  }

  function Joined(pieces: seq<seq<Byte>>): seq<Byte> {
    if pieces == [] then [] else Joined(pieces[..|pieces| - 1]) + pieces[|pieces| - 1]
  }

  /** However a message is cut into pieces, feeding them in turn and finishing
      gives the hash of the padded whole. */
  method HashInPieces(a: Algorithm, x: Code, pieces: seq<seq<Byte>>) returns (digest: seq<Byte>)
    requires x.Computes(a)
    ensures digest == Hash(a, Joined(pieces))
  {
    hide Code.Computes, Context.Absorbed, Hash;
    var ctx := new Context(a, x);
    for i := 0 to |pieces|
      invariant ctx.Valid() && ctx.a == a && ctx.data == Joined(pieces[..i])
      invariant fresh(ctx) && fresh(ctx.buf) && fresh(ctx.state)
    {
      assert pieces[..i + 1][..i] == pieces[..i];
      ctx.Update(pieces[i]);
    }
    assert pieces[..|pieces|] == pieces;
    digest := ctx.Final();
  }

  /** md5, sha1, sha512: one message at once. */
  method HashWhole(a: Algorithm, x: Code, msg: seq<Byte>) returns (digest: seq<Byte>)
    requires x.Computes(a)
    ensures digest == Hash(a, msg)
  {
    hide Code.Computes, Context.Absorbed, Hash;
    var ctx := new Context(a, x);
    ctx.Update(msg);
    assert [] + msg == msg;
    digest := ctx.Final();
  }
}
