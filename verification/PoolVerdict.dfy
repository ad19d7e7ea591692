/**
 The worker pool's verdict under its schedule: the threads of the step system
 run their slices when they are let, each kernel call giving what it likes, and
 the driver judges what it finds. In every run it finds the records of the batch
 it ordered last.
 */
module PoolVerdict {
  import opened Checksums
  import opened PoolProtocol
  import opened Slices
  import Workers = Pool

  /** What a worker holds: how many batches it has run, what its kernel gave on
      the last, call by call, and the verdict and checksum it recorded. */
  datatype Record = Record(batch: nat, outputs: seq<Sum>, ok: bool, checksum: Sum)

  /** What each worker compares with: its slice's reference, unless one for the
      whole corpus was supplied. */
  datatype Terms = Terms(supplied: bool, expected: seq<Sum>, whole: Sum)

  datatype Site = Site(pool: Pool, records: seq<Record>)

  /** A thread's move; one that finishes a slice comes with its kernel's calls. */
  datatype Act = Act(move: Move, outputs: seq<Sum>)

  /** What run_slice leaves in worker `i`. */
  function Ran(terms: Terms, i: nat, outputs: seq<Sum>, was: Record): Record
    requires i < |terms.expected|
  {
    Record(was.batch + 1, outputs, Workers.Agrees(terms.supplied, terms.expected[i], outputs),
           if terms.supplied && outputs != [] then outputs[0] else was.checksum)
  }

  predicate Fitting(terms: Terms, s: Site) {
    Shaped(s.pool) && s.pool.n == |s.records| == |terms.expected|
  }

  /** A slice makes as many calls as the count it reads says. */
  predicate Finishes(terms: Terms, s: Site, a: Act) {
    Fitting(terms, s) && a.move.Finish? && Enabled(s.pool, a.move) && |a.outputs| == s.pool.reps
  }

  function Go(terms: Terms, s: Site, a: Act): Site {
    if Finishes(terms, s, a) then
      Site(Step(s.pool, a.move), s.records[a.move.i := Ran(terms, a.move.i, a.outputs, s.records[a.move.i])])
    else if a.move.Finish? then s
    else s.(pool := Step(s.pool, a.move))
  }

  function GoAll(terms: Terms, s: Site, acts: seq<Act>): Site
    decreases |acts|
  {
    if acts == [] then s else GoAll(terms, Go(terms, s, acts[0]), acts[1..])
  }

  function Opened(n: nat): Site
    requires 0 < n
  {
    Site(Created(n), seq(n, _ => Record(0, [], false, Zero)))
  }

  // ---- the invariant ----------------------------------------------------------

  /** Worker `i` holds the record of the last batch it has run. */
  predicate Kept(terms: Terms, s: Site, i: nat)
    requires Fitting(terms, s) && i < s.pool.n
  {
    var r := s.records[i];
    && r.batch == s.pool.done.arrived[i] && r.batch <= |s.pool.orders|
    && (0 < r.batch ==>
        && |r.outputs| == s.pool.orders[r.batch - 1]
        && r.ok == Workers.Agrees(terms.supplied, terms.expected[i], r.outputs)
        && (terms.supplied && r.outputs != [] ==> r.checksum == r.outputs[0]))
  }

  predicate AllKept(terms: Terms, s: Site)
    ensures AllKept(terms, s) ==> Inv(s.pool) && Fitting(terms, s)
  {
    Inv(s.pool) && Fitting(terms, s) && forall i: nat :: i < s.pool.n ==> Kept(terms, s, i)
  }

  /** A step that finishes no slice changes no worker's count of batches; orders
      are only added to. */
  lemma OthersKeep(s: Pool, m: Move)
    requires Shaped(s) && !m.Finish?
    ensures Shaped(Step(s, m)) && Step(s, m).n == s.n && Step(s, m).done.arrived == s.done.arrived
    ensures s.orders <= Step(s, m).orders
  {
  }

  lemma FinishCounts(s: Pool, i: nat)
    requires Shaped(s) && Enabled(s, Finish(i))
    ensures var t := Step(s, Finish(i));
      && Shaped(t) && t.n == s.n && t.orders == s.orders
      && t.done.arrived == s.done.arrived[i := s.done.arrived[i] + 1]
  {
  }

  lemma FinishKept(terms: Terms, s: Site, a: Act)
    requires AllKept(terms, s) && Finishes(terms, s, a)
    ensures AllKept(terms, Go(terms, s, a))
  {
    var i, t := a.move.i, Go(terms, s, a);
    assert Kept(terms, s, i);
    HashingNow(s.pool, i);
    FinishCounts(s.pool, i);
    StepKeeps(s.pool, a.move);
    hide Inv, Step, Workers.Agrees;
    forall j: nat | j < t.pool.n ensures Kept(terms, t, j) {
      assert Kept(terms, s, j);
    }
  }

  lemma GoKeeps(terms: Terms, s: Site, a: Act)
    requires AllKept(terms, s)
    ensures AllKept(terms, Go(terms, s, a))
  {
    hide Inv, Step, Workers.Agrees;
    if Finishes(terms, s, a) {
      FinishKept(terms, s, a);
    } else if !a.move.Finish? {
      StepKeeps(s.pool, a.move);
      OthersKeep(s.pool, a.move);
      var t := Go(terms, s, a);
      forall j: nat | j < t.pool.n ensures Kept(terms, t, j) {
        assert Kept(terms, s, j);
      }
    }
  }

  lemma {:induction false} GoAllKeeps(terms: Terms, s: Site, acts: seq<Act>)
    requires AllKept(terms, s)
    ensures AllKept(terms, GoAll(terms, s, acts)) && GoAll(terms, s, acts).pool.n == s.pool.n
    decreases |acts|
  {
    hide AllKept, Go;
    if acts != [] {
      GoKeeps(terms, s, acts[0]);
      GoAllKeeps(terms, Go(terms, s, acts[0]), acts[1..]);
    }
  }

  lemma OpenedKept(terms: Terms)
    requires 0 < |terms.expected|
    ensures AllKept(terms, Opened(|terms.expected|))
  {
    CreatedInv(|terms.expected|);
    hide Inv;
  }

  // ---- the verdict ------------------------------------------------------------

  function Oks(s: Site): (r: seq<bool>)
    ensures |r| == |s.records|
  {
    seq(|s.records|, i requires 0 <= i < |s.records| => s.records[i].ok)
  }

  function Sums(s: Site): (r: seq<Sum>)
    ensures |r| == |s.records|
  {
    seq(|s.records|, i requires 0 <= i < |s.records| => s.records[i].checksum)
  }

  function Outputs(s: Site): (r: seq<seq<Sum>>)
    ensures |r| == |s.records|
  {
    seq(|s.records|, i requires 0 <= i < |s.records| => s.records[i].outputs)
  }

  /** With the driver between calls, every record is of the batch ordered last. */
  lemma LastBatch(terms: Terms, s: Site, i: nat)
    requires AllKept(terms, s) && s.pool.pcs[0] == Idle && s.pool.orders != [] && i < s.pool.n
    ensures s.pool.reps == s.pool.orders[|s.pool.orders| - 1]
    ensures var r := s.records[i];
      && r.batch == |s.pool.orders| && |r.outputs| == s.pool.reps
      && r.ok == Workers.Agrees(terms.supplied, terms.expected[i], r.outputs)
      && (terms.supplied && 0 < s.pool.reps ==> r.checksum == r.outputs[0])
  {
    assert Kept(terms, s, i);
    DriverIdle(s.pool, i);
    hide Barriers.Inv, Barriers.Shaped, Good, Workers.Agrees;
  }

  lemma RecordsAreLast(terms: Terms, s: Site)
    requires AllKept(terms, s) && s.pool.pcs[0] == Idle && s.pool.orders != []
    ensures Workers.Records(Oks(s), Sums(s), terms.supplied, terms.expected, s.pool.reps, Outputs(s))
  {
    hide AllKept, Workers.Agrees;
    assert Fitting(terms, s);
    forall i: nat | i < s.pool.n
      ensures |Outputs(s)[i]| == s.pool.reps
      ensures Oks(s)[i] == Workers.Agrees(terms.supplied, terms.expected[i], Outputs(s)[i])
      ensures terms.supplied && 0 < s.pool.reps ==> Sums(s)[i] == Outputs(s)[i][0]
    {
      LastBatch(terms, s, i);
    }
  }

  /** In every run of the pool's threads, whatever their kernels give: when a
      call is over, the records the driver judges are all of the batch it ordered
      last, with as many calls as it asked for; they pass exactly if what those
      calls gave is right; and then on every repetition of that batch all of them
      together gave the reference. */
  lemma VerdictIsRight(terms: Terms, acts: seq<Act>)
    requires 0 < |terms.expected|
    ensures var s := GoAll(terms, Opened(|terms.expected|), acts);
      Inv(s.pool) && (s.pool.pcs[0] == Idle && s.pool.orders != [] ==>
        var reps, outputs := s.pool.orders[|s.pool.orders| - 1], Outputs(s);
        var passes := Workers.Passes(Oks(s), Sums(s), terms.supplied, terms.whole, s.pool.reps);
        && s.pool.reps == reps && |outputs| == |terms.expected| && Workers.Called(outputs, reps)
        && (forall i :: 0 <= i < |s.records| ==> s.records[i].batch == |s.pool.orders|)
        && (passes <==> Workers.Right(terms.supplied, terms.expected, terms.whole, reps, outputs))
        && (passes ==> Workers.EveryRep(reps, if terms.supplied then terms.whole else Folded(terms.expected), outputs)))
  {
    OpenedKept(terms);
    GoAllKeeps(terms, Opened(|terms.expected|), acts);
    var s := GoAll(terms, Opened(|terms.expected|), acts);
    hide AllKept, GoAll, Workers.Passes, Workers.Right, Workers.EveryRep, Outputs, Oks, Sums, Folded;
    if s.pool.pcs[0] == Idle && s.pool.orders != [] {
      forall i: nat | i < s.pool.n ensures s.records[i].batch == |s.pool.orders| {
        LastBatch(terms, s, i);
      }
      LastBatch(terms, s, 0);
      RecordsAreLast(terms, s);
      Workers.PassesIsRight(Oks(s), Sums(s), terms.supplied, terms.expected, terms.whole, s.pool.reps, Outputs(s));
    }
  }
}
