/**
 The reference oracle: one walk down each message's iteration chain, with a
 snapshot at every requested count, and the same range split over threads any
 of which may fail to start or to finish.
 */
module Oracle {
  import opened Arithmetic
  import opened Checksums
  import opened Algorithms
  import opened Workload
  import opened Slices
  import opened Corpus
  import opened Hashes
  import Reference

  predicate Ascending(iters: seq<nat>) {
    forall i, j :: 0 <= i <= j < |iters| ==> iters[i] <= iters[j]
  }

  /** A ladder whose counts all get taken. A count of zero is never reached, and
      the walk then never gets past it. */
  predicate Takes(iters: seq<nat>) {
    iters == [] || 0 < iters[0]
  }

  /** What the walk leaves for rung `k` of a ladder: the separate run's value,
      unless the ladder starts at zero. */
  function Rung(a: Algorithm, start: nat, count: nat, bytes: nat, iters: seq<nat>, k: nat): Sum
    requires a.Valid() && k < |iters|
  {
    if Takes(iters) then RangeSum(a, start, count, bytes, iters[k]) else Zero
  }

  /** XOR the digest's words into a checksum. */
  method XorDigest(a: Algorithm, s: Sum, digest: seq<Byte>, ghost h: seq<Word>) returns (r: Sum)
    requires a.Valid() && a.IsDigest(h) && digest == StoreWords(a, h)
    ensures r == Xor(s, Slots(h))
  {
    hide StoreWords, Load, XorWord;
    r := s;
    for j := 0 to a.digestWords
      invariant forall i :: 0 <= i < SLOTS ==> r[i] == if i < j then XorWord(s[i], h[i]) else s[i]
    {
      StoredWord(a, h, j);
      var v := LoadAt(a, digest, j);
      r := r[j := XorWord(r[j], v)];
    }
    forall i | 0 <= i < SLOTS ensures r[i] == Xor(s, Slots(h))[i] {
      WordComm(s[i], 0);
    }
  }

  method LoadAt(a: Algorithm, p: seq<Byte>, j: nat) returns (v: Word)
    requires (j + 1) * a.wordBytes <= |p|
    ensures v == WordAt(a, p, j)
  {
    assert (j + 1) * a.wordBytes == j * a.wordBytes + a.wordBytes;
    v := LoadWord(a, p[j * a.wordBytes..j * a.wordBytes + a.wordBytes]);
  }

  // ---- one message ------------------------------------------------------------

  /** After `it` hashes exactly the rungs up to `it` are taken, unless the
      ladder starts at zero, when none ever is. */
  predicate Reached(iters: seq<nat>, it: nat, k: nat) {
    && k <= |iters|
    && (forall r :: 0 <= r < k ==> 0 < iters[r] <= it)
    && (if Takes(iters) then k < |iters| ==> it < iters[k] else k == 0)
  }

  /** `after` is `before` with the first `k` of the rungs kept from `at` on
      grown by one message's digests. */
  ghost predicate Grown(a: Algorithm, index: nat, bytes: nat, iters: seq<nat>, before: seq<Sum>, after: seq<Sum>,
                        at: nat, k: nat)
    requires a.Valid() && k <= |iters|
  {
    && |after| == |before|
    && forall r :: 0 <= r < |before| ==>
      after[r] == (if at <= r < at + k then Xor(before[r], MessageSum(a, index, bytes, iters[r - at])) else before[r])
  }

  /** Every rung that asks for exactly this many hashes takes the digest. */
  method Snapshot(a: Algorithm, ghost index: nat, bytes: nat, it: nat, digest: seq<Byte>, ghost h: seq<Word>,
                  iters: seq<nat>, from: nat, out: array<Sum>, at: nat, ghost before: seq<Sum>) returns (k: nat)
    requires a.Valid() && a.IsDigest(h) && digest == StoreWords(a, h)
    requires Slots(h) == MessageSum(a, index, bytes, it + 1)
    requires Ascending(iters) && Reached(iters, it, from) && at + |iters| <= out.Length
    requires Grown(a, index, bytes, iters, before, out[..], at, from)
    modifies out
    ensures Reached(iters, it + 1, k)
    ensures Grown(a, index, bytes, iters, before, out[..], at, k)
  {
    hide Algorithm.Valid, Algorithm.Laid, Algorithm.IsDigest, StoreWords, MessageSum, Slots, Xor;
    k := from;
    while k < |iters| && iters[k] == it + 1
      invariant from <= k <= |iters| && forall r :: from <= r < k ==> iters[r] == it + 1
      invariant Grown(a, index, bytes, iters, before, out[..], at, k)
    {
      var sum := XorDigest(a, out[at + k], digest, h);
      out[at + k] := sum;
      k := k + 1;
    }
  }

  /** memcpy over the head of the message. */
  method CopyOver(msg: array<Byte>, digest: seq<Byte>)
    requires |digest| <= msg.Length
    modifies msg
    ensures msg[..] == digest + old(msg[|digest|..])
  {
    for i := 0 to |digest|
      invariant forall k :: 0 <= k < msg.Length ==> msg[k] == if k < i then digest[k] else old(msg[k])
    {
      msg[i] := digest[i];
    }
  }

  /** One hash of the walk: snapshot it, and feed it back if another follows. */
  method HashOnce(a: Algorithm, x: Code, ghost index: nat, it: nat, more: bool, iters: seq<nat>, from: nat,
                  msg: array<Byte>,
                  out: array<Sum>, at: nat, ghost before: seq<Sum>) returns (k: nat)
    requires x.Computes(a) && Ascending(iters) && Reached(iters, it, from)
    requires at + |iters| <= out.Length && msg as object != out
    requires more ==> a.DigestBytes() <= msg.Length
    requires msg[..] == Iterated(a, Message(index, msg.Length), it)
    requires Grown(a, index, msg.Length, iters, before, out[..], at, from)
    modifies msg, out
    ensures Reached(iters, it + 1, k)
    ensures more ==> msg[..] == Iterated(a, Message(index, msg.Length), it + 1)
    ensures Grown(a, index, msg.Length, iters, before, out[..], at, k)
  {
    hide Code.Computes, Grown, Reached, Ascending, Message, HashWords, Slots, Algorithm.Valid, Algorithm.Laid;
    hide Algorithm.IsDigest;
    HashIsDigest(a, msg[..]);
    var digest := Reference.HashWhole(a, x, msg[..]);
    k := Snapshot(a, index, msg.Length, it, digest, HashWords(a, msg[..]), iters, from, out, at, before);
    if more {
      CopyOver(msg, digest);
    }
  }

  /** One message: hash, snapshot, feed back, as often as the last rung asks. */
  method Walk(a: Algorithm, x: Code, index: nat, iters: seq<nat>, msg: array<Byte>, out: array<Sum>, at: nat)
    requires x.Computes(a) && iters != [] && Ascending(iters) && at + |iters| <= out.Length
    requires Feeds(a, msg.Length, iters[|iters| - 1]) && msg as object != out
    modifies msg, out
    ensures Grown(a, index, msg.Length, iters, old(out[..]), out[..], at, if Takes(iters) then |iters| else 0)
  {
    var maxit, k := iters[|iters| - 1], 0;
    BuildMessage(index, msg);
    assert out[..] == old(out[..]);
    hide Code.Computes, Message, MessageSum, Xor, Algorithm.Valid, Algorithm.Laid, FedBack;
    for it := 0 to maxit
      invariant Reached(iters, it, k)
      invariant it < maxit || maxit == 0 ==> msg[..] == Iterated(a, Message(index, msg.Length), it)
      invariant Grown(a, index, msg.Length, iters, old(out[..]), out[..], at, k)
    {
      k := HashOnce(a, x, index, it, it + 1 < maxit, iters, k, msg, out, at, old(out[..]));
    }
  }

  // ---- a range ----------------------------------------------------------------

  /** The rungs kept from `at` on hold the range's ladder; the rest of `after`
      is `before`. */
  ghost predicate Laddered(a: Algorithm, start: nat, count: nat, bytes: nat, iters: seq<nat>,
                           before: seq<Sum>, after: seq<Sum>, at: nat)
    requires a.Valid()
  {
    && |after| == |before|
    && forall r :: 0 <= r < |before| ==>
      after[r] == (if at <= r < at + |iters| then Rung(a, start, count, bytes, iters, r - at) else before[r])
  }

  lemma RungGrows(a: Algorithm, start: nat, n: nat, bytes: nat, iters: seq<nat>, k: nat)
    requires a.Valid() && k < |iters|
    ensures Rung(a, start, 0, bytes, iters, k) == Zero
    ensures Rung(a, start, n + 1, bytes, iters, k) ==
      if Takes(iters) then Xor(Rung(a, start, n, bytes, iters, k),
        MessageSum(a, (start + n) % INDICES, bytes, iters[k]))
      else Rung(a, start, n, bytes, iters, k)
  {
    hide MessageSum, Xor;
  }

  lemma LadderGrows(a: Algorithm, start: nat, n: nat, bytes: nat, iters: seq<nat>,
                    before: seq<Sum>, mid: seq<Sum>, after: seq<Sum>, at: nat)
    requires a.Valid() && at + |iters| <= |before|
    requires Laddered(a, start, n, bytes, iters, before, mid, at)
    requires Grown(a, (start + n) % INDICES, bytes, iters, mid, after, at, if Takes(iters) then |iters| else 0)
    ensures Laddered(a, start, n + 1, bytes, iters, before, after, at)
  {
    forall r | at <= r < at + |iters| ensures after[r] == Rung(a, start, n + 1, bytes, iters, r - at) {
      RungGrows(a, start, n, bytes, iters, r - at);
    }
    hide MessageSum, Xor, Rung;
  }

  /** memset of the rungs kept from `at` on. */
  method ClearRungs(a: Algorithm, ghost start: nat, ghost bytes: nat, iters: seq<nat>, out: array<Sum>, at: nat)
    requires a.Valid() && at + |iters| <= out.Length
    modifies out
    ensures Laddered(a, start, 0, bytes, iters, old(out[..]), out[..], at)
  {
    for k := 0 to |iters|
      invariant forall r :: 0 <= r < out.Length ==> out[r] == if at <= r < at + k then Zero else old(out[r])
    {
      out[at + k] := Zero;
    }
    forall k: nat | k < |iters| ensures Rung(a, start, 0, bytes, iters, k) == Zero {
      RungGrows(a, start, 0, bytes, iters, k);
    }
  }

  /** vb_reference_checksums: every rung gets the checksum of a separate run at
      its count, unless the ladder starts at zero: then all stay zero. */
  method ReferenceChecksums(a: Algorithm, x: Code, start: nat, count: nat, bytes: nat, iters: seq<nat>,
                            out: array<Sum>, at: nat)
    requires x.Computes(a) && Ascending(iters) && at + |iters| <= out.Length
    requires iters != [] ==> Feeds(a, bytes, iters[|iters| - 1])
    modifies out
    ensures Laddered(a, start, count, bytes, iters, old(out[..]), out[..], at)
  {
    hide Laddered, Grown, Code.Computes;
    var msg := new Byte[bytes];
    ClearRungs(a, start, bytes, iters, out, at);
    if |iters| == 0 {
      EmptyLadder(a, start, count, bytes, iters, old(out[..]), out[..], at);
      return;
    }
    for n := 0 to count
      invariant Laddered(a, start, n, bytes, iters, old(out[..]), out[..], at)
    {
      ghost var mid := out[..];
      Walk(a, x, (start + n) % INDICES, iters, msg, out, at);
      LadderGrows(a, start, n, bytes, iters, old(out[..]), mid, out[..], at);
    }
  }

  lemma EmptyLadder(a: Algorithm, start: nat, count: nat, bytes: nat, iters: seq<nat>,
                    before: seq<Sum>, after: seq<Sum>, at: nat)
    requires a.Valid() && iters == [] && Laddered(a, start, 0, bytes, iters, before, after, at)
    ensures Laddered(a, start, count, bytes, iters, before, after, at)
  {
  }

  // ---- the threaded form ------------------------------------------------------

  /** What becomes of the thread for a slice: it never starts, it runs and is
      joined, or its join fails and its results are whatever they are. */
  datatype Outcome = NotCreated | Joined | JoinFailed(left: seq<Sum>)

  datatype RefSlice = RefSlice(start: nat, count: nat)

  function SliceAt(start: nat, count: nat, threads: nat, i: nat): RefSlice
    requires 0 < threads
  {
    RefSlice((start + First(count, threads, i)) % INDICES, Count(count, threads, i))
  }

  /** Cut the range, as the loop that starts the threads does. */
  method CutRange(start: nat, count: nat, threads: nat) returns (sl: seq<RefSlice>)
    requires 0 < threads
    ensures |sl| == threads && forall i :: 0 <= i < threads ==> sl[i] == SliceAt(start, count, threads, i)
  {
    var base, extra, off := count / threads, count % threads, 0;
    sl := [];
    Adjacent(count, threads, 0);
    for i := 0 to threads
      invariant off == First(count, threads, i)
      invariant |sl| == i && forall j :: 0 <= j < i ==> sl[j] == SliceAt(start, count, threads, j)
    {
      Adjacent(count, threads, i);
      var n := base + if i < extra then 1 else 0;
      sl := sl + [RefSlice((start + off) % INDICES, n)];
      off := off + n;
    }
  }

  /** The block of `part` at `at` holds the ladder of one slice. */
  ghost predicate Settled(a: Algorithm, sl: RefSlice, bytes: nat, iters: seq<nat>, part: seq<Sum>, at: nat)
    requires a.Valid()
  {
    && at + |iters| <= |part|
    && forall k: nat :: k < |iters| ==> part[at + k] == Rung(a, sl.start, sl.count, bytes, iters, k)
  }

  method RunSlice(a: Algorithm, x: Code, sl: RefSlice, bytes: nat, iters: seq<nat>, part: array<Sum>, at: nat)
    requires x.Computes(a) && Ascending(iters) && at + |iters| <= part.Length
    requires iters != [] ==> Feeds(a, bytes, iters[|iters| - 1])
    modifies part
    ensures Settled(a, sl, bytes, iters, part[..], at)
  {
    hide Rung, Code.Computes, Algorithm.Valid, Algorithm.Laid;
    ReferenceChecksums(a, x, sl.start, sl.count, bytes, iters, part, at);
  }

  /** Whatever happened to its thread, a slice ends up computed. */
  method Settle(a: Algorithm, x: Code, sl: RefSlice, bytes: nat, iters: seq<nat>, outcome: Outcome,
                part: array<Sum>, at: nat)
    requires x.Computes(a) && Ascending(iters) && at + |iters| <= part.Length
    requires iters != [] ==> Feeds(a, bytes, iters[|iters| - 1])
    modifies part
    ensures Settled(a, sl, bytes, iters, part[..], at)
  {
    hide Code.Computes;
    match outcome
    case NotCreated =>
      RunSlice(a, x, sl, bytes, iters, part, at);
    case Joined =>
      // The thread ran this before it was joined.
      RunSlice(a, x, sl, bytes, iters, part, at);
    case JoinFailed(left) =>
      for k := 0 to |iters| {
        if k < |left| {
          part[at + k] := left[k];
        }
      }
      RunSlice(a, x, sl, bytes, iters, part, at);
  }

  /** The ladder of the range up to a slice, and the slice's, make the ladder of
      the range up to the next. */
  lemma RungJoins(a: Algorithm, start: nat, count: nat, threads: nat, i: nat, bytes: nat, iters: seq<nat>, k: nat)
    requires a.Valid() && 0 < threads && k < |iters|
    ensures Rung(a, start, First(count, threads, i + 1), bytes, iters, k)
      == Xor(Rung(a, start, First(count, threads, i), bytes, iters, k),
             Rung(a, SliceAt(start, count, threads, i).start, SliceAt(start, count, threads, i).count, bytes, iters, k))
  {
    hide RangeSum, Xor, First, Count, Algorithm.Valid, Algorithm.Laid;
    Adjacent(count, threads, i);
    RangeSplit(a, start, First(count, threads, i), Count(count, threads, i), bytes, iters[k]);
    XorZero(Zero);
  }

  /** XOR a slice's ladder into the result. */
  method AddSlice(a: Algorithm, ghost start: nat, ghost count: nat, ghost threads: nat, ghost i: nat, ghost bytes: nat,
                  iters: seq<nat>, part: array<Sum>, at: nat, out: array<Sum>)
    requires a.Valid() && 0 < threads && part != out && out.Length == |iters|
    requires Settled(a, SliceAt(start, count, threads, i), bytes, iters, part[..], at)
    requires Settled(a, RefSlice(start, First(count, threads, i)), bytes, iters, out[..], 0)
    modifies out
    ensures Settled(a, RefSlice(start, First(count, threads, i + 1)), bytes, iters, out[..], 0)
  {
    hide Rung, SliceAt, First, Xor, Algorithm.Valid, Algorithm.Laid;
    for k := 0 to |iters|
      invariant forall j: nat :: j < |iters| ==>
        out[j] == Rung(a, start, First(count, threads, if j < k then i + 1 else i), bytes, iters, j)
    {
      RungJoins(a, start, count, threads, i, bytes, iters, k);
      out[k] := Xor(out[k], part[at + k]);
    }
  }

  /** vb_reference_checksums_mt: the single-threaded ladder, for any number of
      threads and whatever happens to each of them. */
  method ReferenceChecksumsMt(a: Algorithm, x: Code, start: nat, count: nat, bytes: nat, iters: seq<nat>,
                              threads: nat, outcomes: seq<Outcome>, out: array<Sum>)
    requires x.Computes(a) && Ascending(iters) && out.Length == |iters| && |outcomes| == threads
    requires iters != [] ==> Feeds(a, bytes, iters[|iters| - 1])
    modifies out
    ensures forall k: nat :: k < |iters| ==> out[k] == Rung(a, start, count, bytes, iters, k)
  {
    hide Code.Computes;
    if |iters| == 0 {
      return;
    }
    ClearRungs(a, start, bytes, iters, out, 0);
    if threads < 2 || count < threads {
      RunSlice(a, x, RefSlice(start, count), bytes, iters, out, 0);
      return;
    }
    var sl := CutRange(start, count, threads);
    var part := new Sum[threads * |iters|](_ => Zero);
    Adjacent(count, threads, 0);
    hide Rung, Algorithm.Valid, Algorithm.Laid, SliceAt, First, Feeds, Ascending;
    Within(0, threads, |iters| - 1, |iters|);
    RunSlice(a, x, sl[0], bytes, iters, part, 0);
    for i := 0 to threads
      invariant Settled(a, RefSlice(start, First(count, threads, i)), bytes, iters, out[..], 0)
      invariant i == 0 ==> Settled(a, sl[0], bytes, iters, part[..], 0)
    {
      Within(i, threads, |iters| - 1, |iters|);
      if i > 0 {
        Settle(a, x, sl[i], bytes, iters, outcomes[i], part, i * |iters|);
      }
      AddSlice(a, start, count, threads, i, bytes, iters, part, i * |iters|, out);
    }
  }

  // ---- a ladder that starts at zero -------------------------------------------

  /** A one-word hash whose every digest is 1. */
  function ConstantHash(): Algorithm {
    Algorithm(1, 4, 8, true, [0], (h, m) => [1])
  }

  lemma ConstantValid()
    ensures ConstantHash().Valid()
  {
    assert Fits(0, 4) && Fits(1, 4);
  }

  lemma {:induction false} ConstantAbsorbs(h: seq<Word>, p: seq<Byte>)
    requires h == [1] || 64 <= |p|
    ensures Absorb(ConstantHash(), h, p) == [1]
    decreases |p|
  {
    if 64 <= |p| {
      ConstantAbsorbs([1], p[64..]);
    }
  }

  lemma ConstantDigest(msg: seq<Byte>)
    requires ConstantHash().Valid()
    ensures HashWords(ConstantHash(), msg) == [1]
  {
    var a := ConstantHash();
    BlocksForFits(a, |msg|);
    SomeBlocks(a, |msg|);
    ConstantAbsorbs(a.iv, Pad(a, msg));
  }

  lemma ConstantTerm()
    requires ConstantHash().Valid()
    ensures Term(ConstantHash(), 0, 4, 1, 0) == Slots([1])
  {
    hide Absorb, Pad, Message;
    ConstantDigest(Iterated(ConstantHash(), Message(0, 4), 0));
  }

  /** The count zero is never reached, and the walk does not step over it: on
      the ladder 0, 1 the rung for one hash stays zero although a run of one
      hash does not. The command line never passes such a ladder on. */
  lemma ZeroRungSticks()
    ensures ConstantHash().Valid() && Ascending([0, 1])
    ensures Rung(ConstantHash(), 0, 1, 4, [0, 1], 1) == Zero
    ensures RangeSum(ConstantHash(), 0, 1, 4, 1)[0] == 1
  {
    ConstantValid();
    ConstantTerm();
    hide Term, Algorithm.Valid, Algorithm.Laid;
    var f := Terms(ConstantHash(), 0, 4, 1);
    assert Big(f, 1) == Xor(Big(f, 0), f(0));
    XorZero(f(0));
  }
}
