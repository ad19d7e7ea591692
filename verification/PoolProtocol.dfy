/**
 The worker pool as a step system: a start gate, two barriers, and threads that
 move between them. Thread 0 is the driver, which creates the others, opens the
 gate, orders batches and finally stops the pool.
 */
module PoolProtocol {
  import opened Barriers

  /**
   Where a thread is.
   Unborn    not created yet
   AtGate    at the start gate; the driver, creating threads
   Idle      the driver between calls
   Ready     about to enter the start barrier
   InStart   inside it
   Started   out of it, about to look at the stop flag
   Hashing   running its slice
   InDone    inside the done barrier
   Gone      returned; the driver, pool freed
   */
  datatype Pc = Unborn | AtGate | Idle | Ready | InStart | Started | Hashing | InDone | Gone

  datatype Gate = Pending | Go | Abort

  /** `orders` records the repetition count of every batch ordered so far. */
  datatype Pool = Pool(n: nat, pcs: seq<Pc>, start: Barrier, done: Barrier, gate: Gate, created: nat,
                       stop: bool, reps: nat, orders: seq<nat>)

  datatype Move =
    | Create(ok: bool) | Release | JoinAborted
    | Order(reps: nat) | End
    | Pass(i: nat) | EnterStart(i: nat) | WakeStart(i: nat) | Look(i: nat) | Finish(i: nat) | WakeDone(i: nat)

  predicate Shaped(s: Pool) {
    && 0 < s.n == |s.pcs| == s.start.threshold == s.done.threshold
    && Barriers.Shaped(s.start) && Barriers.Shaped(s.done)
    && s.created < s.n
  }

  predicate AllGone(s: Pool, upTo: nat)
    requires upTo <= |s.pcs|
  {
    forall i: nat :: 1 <= i < upTo ==> s.pcs[i] == Gone
  }

  predicate Enabled(s: Pool, m: Move)
    requires Shaped(s)
  {
    match m
    case Create(ok) => s.pcs[0] == AtGate && s.gate == Pending && s.created + 1 < s.n
    case Release => s.pcs[0] == AtGate && s.gate == Pending && s.created + 1 == s.n
    case JoinAborted => s.pcs[0] == AtGate && s.gate == Abort && AllGone(s, s.created + 1)
    case Order(reps) => s.pcs[0] == Idle
    case End => s.pcs[0] == Idle
    case Pass(i) => 1 <= i < s.n && s.pcs[i] == AtGate && s.gate != Pending
    case EnterStart(i) => i < s.n && s.pcs[i] == Ready && MayArrive(s.start, i)
    case WakeStart(i) => i < s.n && s.pcs[i] == InStart && MayWake(s.start, i)
    case Look(i) => i < s.n && s.pcs[i] == Started && (i == 0 && s.stop ==> AllGone(s, s.n))
    case Finish(i) => i < s.n && s.pcs[i] == Hashing && MayArrive(s.done, i)
    case WakeDone(i) => i < s.n && s.pcs[i] == InDone && MayWake(s.done, i)
  }

  function Home(i: nat): Pc {
    if i == 0 then Idle else Ready
  }

  function Apply(s: Pool, m: Move): (t: Pool)
    requires Shaped(s) && Enabled(s, m)
  {
    match m
    case Create(ok) =>
      if ok then s.(created := s.created + 1, pcs := s.pcs[s.created + 1 := AtGate]) else s.(gate := Abort)
    case Release => s.(gate := Go, pcs := s.pcs[0 := Idle])
    case JoinAborted => s.(pcs := s.pcs[0 := Gone])
    case Order(reps) => s.(reps := reps, orders := s.orders + [reps], pcs := s.pcs[0 := Ready])
    case End => s.(stop := true, pcs := s.pcs[0 := Ready])
    case Pass(i) => s.(pcs := s.pcs[i := if s.gate == Go then Ready else Gone])
    case EnterStart(i) =>
      var b := Arrive(s.start, i);
      s.(start := b, pcs := s.pcs[i := if b.inside[i].Some? then InStart else Started])
    case WakeStart(i) =>
      s.(start := Wake(s.start, i), pcs := s.pcs[i := if Open(s.start, i) then Started else InStart])
    case Look(i) => s.(pcs := s.pcs[i := if s.stop then Gone else Hashing])
    case Finish(i) =>
      var b := Arrive(s.done, i);
      s.(done := b, pcs := s.pcs[i := if b.inside[i].Some? then InDone else Home(i)])
    case WakeDone(i) =>
      s.(done := Wake(s.done, i), pcs := s.pcs[i := if Open(s.done, i) then Home(i) else InDone])
  }

  function Step(s: Pool, m: Move): Pool {
    if Shaped(s) && Enabled(s, m) then Apply(s, m) else s
  }

  function Created(n: nat): Pool
    requires 0 < n
  {
    Pool(n, seq(n, i => if i == 0 then AtGate else Unborn), Fresh(n), Fresh(n), Pending, 0, false, 0, [])
  }

  // ---- the invariant ----------------------------------------------------------

  /** Entries into and exits from the two barriers, at each place a thread can
      be with `k` batches behind it. */
  predicate Passed(s: Pool, i: nat, startIn: nat, startOut: nat, doneIn: nat, doneOut: nat)
    requires Shaped(s) && i < s.n
  {
    s.start.arrived[i] == startIn && s.start.left[i] == startOut
    && s.done.arrived[i] == doneIn && s.done.left[i] == doneOut
  }

  predicate Counted(s: Pool, i: nat)
    requires Shaped(s) && i < s.n
  {
    var k := s.done.left[i];
    match s.pcs[i]
    case Unborn => Passed(s, i, 0, 0, 0, 0)
    case AtGate => Passed(s, i, 0, 0, 0, 0)
    case Idle => Passed(s, i, k, k, k, k)
    case Ready => Passed(s, i, k, k, k, k)
    case InStart => Passed(s, i, k + 1, k, k, k)
    case Started => Passed(s, i, k + 1, k + 1, k, k)
    case Hashing => Passed(s, i, k + 1, k + 1, k, k)
    case InDone => Passed(s, i, k + 1, k + 1, k + 1, k)
    case Gone => if s.gate == Go then Passed(s, i, k + 1, k + 1, k, k) else Passed(s, i, 0, 0, 0, 0)
  }

  /** Which places a thread can be in, by the state of the gate. */
  predicate Gated(s: Pool, i: nat)
    requires Shaped(s) && i < s.n
  {
    match s.gate
    case Pending => if i <= s.created then s.pcs[i] == AtGate else s.pcs[i] == Unborn
    case Abort => if i <= s.created then s.pcs[i] == AtGate || s.pcs[i] == Gone else s.pcs[i] == Unborn
    case Go => s.pcs[i] != Unborn && (i == 0 ==> s.pcs[i] != AtGate) && (s.pcs[i] == Idle ==> i == 0)
  }

  /** A thread that went on to hash did so for a batch that was ordered; one
      that is gone had hashed them all. */
  predicate Batched(s: Pool, i: nat)
    requires Shaped(s) && i < s.n
  {
    && (s.pcs[i] in {Hashing, InDone} ==> s.start.left[i] <= |s.orders|)
    && (s.pcs[i] == Gone && s.gate == Go ==> s.stop && s.done.left[i] == |s.orders|)
  }

  predicate Good(s: Pool, i: nat)
    requires Shaped(s) && i < s.n
  {
    Counted(s, i) && Gated(s, i) && Batched(s, i)
  }

  /** The driver's orders against its entries into the start barrier. */
  predicate Driven(s: Pool)
    requires Shaped(s)
  {
    && (s.gate == Go ==>
        |s.orders| + (if s.stop then 1 else 0) == s.start.arrived[0] + if s.pcs[0] == Ready then 1 else 0)
    && (s.gate != Go ==> s.orders == [] && !s.stop)
    && (s.stop ==> s.pcs[0] in {Ready, InStart, Started, Gone})
    && (s.orders != [] ==> s.reps == s.orders[|s.orders| - 1])
    && (s.gate == Go ==> s.created + 1 == s.n)
    && (s.pcs[0] == Gone ==> AllGone(s, s.created + 1))
  }

  predicate Inv(s: Pool)
    ensures Inv(s) ==> Shaped(s)
  {
    && Shaped(s) && Barriers.Inv(s.start) && Barriers.Inv(s.done) && Driven(s)
    && forall i: nat :: i < s.n ==> Good(s, i)
  }

  lemma CreatedInv(n: nat)
    requires 0 < n
    ensures Inv(Created(n))
  {
    FreshInv(n);
  }

  // ---- every step keeps it ----------------------------------------------------

  /** A thread nothing happened to is as good as before. */
  lemma Untouched(s: Pool, t: Pool, i: nat)
    requires Shaped(s) && Shaped(t) && i < s.n == t.n && Good(s, i)
    requires t.pcs[i] == s.pcs[i] && t.gate == s.gate && t.orders == s.orders && t.stop == s.stop
    requires t.created == s.created
    requires t.start.arrived[i] == s.start.arrived[i] && t.start.left[i] == s.start.left[i]
    requires t.done.arrived[i] == s.done.arrived[i] && t.done.left[i] == s.done.left[i]
    ensures Good(t, i)
  {
  }

  lemma PassKeeps(s: Pool, i: nat)
    requires Inv(s) && Enabled(s, Pass(i))
    ensures Inv(Apply(s, Pass(i)))
  {
    hide Barriers.Inv, Barriers.Shaped;
    var t := Apply(s, Pass(i));
    assert Good(s, i);
    forall j: nat | j < t.n ensures Good(t, j) {
      assert Good(s, j);
      if j != i { Untouched(s, t, j); }
    }
  }

  lemma GateMoves(s: Pool, m: Move)
    requires Inv(s) && Enabled(s, m) && (m.Create? || m.Release? || m.JoinAborted?)
    ensures Inv(Apply(s, m))
  {
    hide Barriers.Inv, Barriers.Shaped;
    var t := Apply(s, m);
    assert Good(s, 0);
    forall i: nat | i < t.n ensures Good(t, i) {
      assert Good(s, i);
    }
  }

  /** Between calls the driver knows where everybody is: no worker has got past
      the next start, and none has left the pool. */
  lemma DriverIdle(s: Pool, i: nat)
    requires Inv(s) && s.pcs[0] == Idle && i < s.n
    ensures s.pcs[i] !in {Started, Hashing, Gone} && s.gate == Go && !s.stop
    ensures |s.orders| == s.done.left[0] <= s.done.arrived[i]
  {
    assert Good(s, 0) && Good(s, i);
    NobodyEarly(s.start, i, 0);
    NobodyEarly(s.done, 0, i);
  }

  lemma DriverMoves(s: Pool, m: Move)
    requires Inv(s) && Enabled(s, m) && (m.Order? || m.End?)
    ensures Inv(Apply(s, m))
  {
    var t := Apply(s, m);
    assert Good(s, 0);
    forall i: nat | i < t.n ensures Good(t, i) {
      DriverIdle(s, i);
      assert Good(s, i);
    }
    hide Barriers.Inv, Barriers.Shaped;
  }

  /** Entering the start barrier. */
  lemma EnterStartKeeps(s: Pool, i: nat)
    requires Inv(s) && Enabled(s, EnterStart(i))
    ensures Inv(Apply(s, EnterStart(i)))
  {
    var t := Apply(s, EnterStart(i));
    assert Good(s, i) && Placed(s.start, i) && Good(s, 0);
    ArriveKeeps(s.start, i);
    hide Barriers.Inv, Placed;
    forall j: nat | j < t.n ensures Good(t, j) {
      assert Good(s, j);
      if j != i { Untouched(s, t, j); }
    }
  }

  /** Waking up inside it. */
  lemma WakeStartKeeps(s: Pool, i: nat)
    requires Inv(s) && Enabled(s, WakeStart(i))
    ensures Inv(Apply(s, WakeStart(i)))
  {
    var t := Apply(s, WakeStart(i));
    assert Good(s, i) && Placed(s.start, i) && Good(s, 0);
    WakeKeeps(s.start, i);
    hide Barriers.Inv, Placed;
    forall j: nat | j < t.n ensures Good(t, j) {
      assert Good(s, j);
      if j != i { Untouched(s, t, j); }
    }
  }

  /** Reaching the done barrier. */
  lemma FinishKeeps(s: Pool, i: nat)
    requires Inv(s) && Enabled(s, Finish(i))
    ensures Inv(Apply(s, Finish(i)))
  {
    var t := Apply(s, Finish(i));
    assert Good(s, i) && Placed(s.done, i) && Good(s, 0);
    ArriveKeeps(s.done, i);
    hide Barriers.Inv, Placed;
    forall j: nat | j < t.n ensures Good(t, j) {
      assert Good(s, j);
      if j != i { Untouched(s, t, j); }
    }
  }

  /** Waking up inside it. */
  lemma WakeDoneKeeps(s: Pool, i: nat)
    requires Inv(s) && Enabled(s, WakeDone(i))
    ensures Inv(Apply(s, WakeDone(i)))
  {
    var t := Apply(s, WakeDone(i));
    assert Good(s, i) && Placed(s.done, i) && Good(s, 0);
    WakeKeeps(s.done, i);
    hide Barriers.Inv, Placed;
    forall j: nat | j < t.n ensures Good(t, j) {
      assert Good(s, j);
      if j != i { Untouched(s, t, j); }
    }
  }

  /** What a released thread finds in the stop flag is right: set exactly when
      every batch ordered is behind it. */
  lemma LookIsRight(s: Pool, i: nat)
    requires Inv(s) && i < s.n && s.pcs[i] == Started
    ensures s.stop ==> s.done.left[i] == |s.orders|
    ensures !s.stop ==> s.start.left[i] <= |s.orders|
  {
    assert Good(s, i) && Good(s, 0);
    NobodyEarly(s.start, i, 0);
    NobodyEarly(s.done, 0, i);
  }

  lemma LookMoves(s: Pool, m: Move)
    requires Inv(s) && Enabled(s, m) && m.Look?
    ensures Inv(Apply(s, m))
  {
    var t, i := Apply(s, m), m.i;
    assert Good(s, i) && Good(s, 0);
    LookIsRight(s, i);
    hide Barriers.Inv, Barriers.Shaped;
    forall j: nat | j < t.n ensures Good(t, j) {
      assert Good(s, j);
      if j != i { Untouched(s, t, j); }
    }
  }

  /** Every step of every thread keeps the invariant. */
  lemma StepKeeps(s: Pool, m: Move)
    requires Inv(s)
    ensures Inv(Step(s, m))
  {
    hide Inv, Apply;
    if Shaped(s) && Enabled(s, m) {
      match m
      case Create(_) => GateMoves(s, m);
      case Release => GateMoves(s, m);
      case JoinAborted => GateMoves(s, m);
      case Pass(i) => PassKeeps(s, i);
      case Order(_) => DriverMoves(s, m);
      case End => DriverMoves(s, m);
      case EnterStart(i) => EnterStartKeeps(s, i);
      case WakeStart(i) => WakeStartKeeps(s, i);
      case Finish(i) => FinishKeeps(s, i);
      case WakeDone(i) => WakeDoneKeeps(s, i);
      case Look(_) => LookMoves(s, m);
    }
  }

  function Run(s: Pool, moves: seq<Move>): Pool
    decreases |moves|
  {
    if moves == [] then s else Run(Step(s, moves[0]), moves[1..])
  }

  /** In every interleaving of a pool's threads. */
  lemma {:induction false} RunKeeps(s: Pool, moves: seq<Move>)
    requires Inv(s)
    ensures Inv(Run(s, moves))
    decreases |moves|
  {
    hide Inv, Step;
    if moves != [] {
      StepKeeps(s, moves[0]);
      RunKeeps(Step(s, moves[0]), moves[1..]);
    }
  }

  // ---- what it means ----------------------------------------------------------

  lemma HashingNow(s: Pool, i: nat)
    requires Inv(s) && i < s.n && s.pcs[i] == Hashing
    ensures !s.stop && s.start.left[i] == |s.orders| == s.done.left[i] + 1 && s.done.arrived[i] == s.done.left[i]
    ensures s.reps == s.orders[|s.orders| - 1]
  {
    assert Good(s, i) && Good(s, 0);
    NobodyEarly(s.start, i, 0);
    NobodyEarly(s.done, 0, i);
  }

  /** A hashing thread is on the batch ordered last, its own next one, and the
      repetition count it reads is the one set for that batch. */
  lemma HashesAsOrdered(n: nat, moves: seq<Move>, i: nat)
    requires 0 < n
    ensures var s := Run(Created(n), moves);
      Inv(s) && (i < s.n && s.pcs[i] == Hashing ==>
        !s.stop && s.start.left[i] == |s.orders| == s.done.left[i] + 1 && s.reps == s.orders[|s.orders| - 1])
  {
    CreatedInv(n);
    RunKeeps(Created(n), moves);
    var s := Run(Created(n), moves);
    if i < s.n && s.pcs[i] == Hashing {
      HashingNow(s, i);
    }
  }

  /** When a call returns, every worker has hashed every batch and none is
      hashing, so the driver may read results and set the next count. */
  lemma ReturnIsQuiet(n: nat, moves: seq<Move>, i: nat)
    requires 0 < n
    ensures var s := Run(Created(n), moves);
      Inv(s) && (i < s.n && s.pcs[0] == Idle ==>
        s.pcs[i] !in {Started, Hashing} && |s.orders| <= s.done.arrived[i])
  {
    CreatedInv(n);
    RunKeeps(Created(n), moves);
    var s := Run(Created(n), moves);
    if i < s.n && s.pcs[0] == Idle {
      DriverIdle(s, i);
    }
  }

  /** A pool that could not start all its threads lets none of them reach a
      barrier; one that stops lets a thread go only after every batch; and when
      the driver has freed the pool every thread it created has returned. */
  lemma EndsCleanly(n: nat, moves: seq<Move>, i: nat)
    requires 0 < n
    ensures var s := Run(Created(n), moves);
      Inv(s) && (i < s.n ==>
        && (s.gate != Go ==> s.start.arrived[i] == 0 && s.done.arrived[i] == 0)
        && (s.gate == Go && s.pcs[i] == Gone ==> s.stop && s.done.arrived[i] == |s.orders|)
        && (s.pcs[0] == Gone && i <= s.created ==> s.pcs[i] == Gone))
  {
    CreatedInv(n);
    RunKeeps(Created(n), moves);
    var s := Run(Created(n), moves);
    if i < s.n {
      assert Good(s, i);
    }
  }

  // ---- nobody waits for ever --------------------------------------------------

  /** A step that takes its thread further: not a wake-up that finds the barrier
      shut. */
  predicate Progresses(s: Pool, m: Move)
    requires Shaped(s)
  {
    && Enabled(s, m)
    && match m
       case WakeStart(i) => Open(s.start, i)
       case WakeDone(i) => Open(s.done, i)
       case _ => true
  }

  /** A step that is sure to come: no wake-up that was not signalled. */
  predicate Certain(s: Pool, m: Move)
    requires Shaped(s)
  {
    && Progresses(s, m)
    && match m
       case WakeStart(i) => i in s.start.signalled
       case WakeDone(i) => i in s.done.signalled
       case _ => true
  }

  ghost predicate CanProgress(s: Pool)
    requires Shaped(s)
  {
    exists m: Move :: Certain(s, m)
  }

  lemma StartOpens(s: Pool, i: nat)
    requires Inv(s) && i < s.n && s.pcs[i] == InStart && s.start.arrived[i] <= s.start.rounds
    ensures CanProgress(s)
  {
    assert Good(s, i) && Placed(s.start, i);
    OpenIsDone(s.start, i);
    OpenIsSignalled(s.start, i);
    assert Certain(s, WakeStart(i));
  }

  lemma DoneOpens(s: Pool, i: nat)
    requires Inv(s) && i < s.n && s.pcs[i] == InDone && s.done.arrived[i] <= s.done.rounds
    ensures CanProgress(s)
  {
    assert Good(s, i) && Placed(s.done, i);
    OpenIsDone(s.done, i);
    OpenIsSignalled(s.done, i);
    assert Certain(s, WakeDone(i));
  }

  /** A thread outside the barriers, not waiting for others to return. */
  predicate Unblocked(s: Pool, i: nat)
    requires Shaped(s) && i < s.n
  {
    s.pcs[i] in {AtGate, Ready, Hashing} || (s.pcs[i] == Started && (0 < i || !s.stop))
  }

  lemma UnblockedMoves(s: Pool, i: nat)
    requires Inv(s) && i < s.n && s.gate == Go && Unblocked(s, i)
    ensures CanProgress(s)
  {
    assert Good(s, i) && Placed(s.start, i) && Placed(s.done, i);
    hide Barriers.Inv;
    assert Certain(s, match s.pcs[i]
      case AtGate => Pass(i) case Ready => EnterStart(i) case Hashing => Finish(i) case _ => Look(i));
  }

  /** In the last round that was ordered, or before it. */
  lemma BatchesDone(s: Pool, i: nat)
    requires Inv(s) && i < s.n && s.gate == Go
    ensures s.pcs[i] == Started && s.stop ==> s.done.left[i] == |s.orders|
    ensures s.done.left[i] <= |s.orders|
  {
    assert Good(s, i) && Good(s, 0);
    NobodyEarly(s.done, i, 0);
    if s.pcs[i] == Started {
      LookIsRight(s, i);
    }
  }

  /** With nobody outside the barriers, one who is inside the done barrier, or
      one it waits for, can come out. */
  lemma DoneAdvances(s: Pool, j: nat)
    requires Inv(s) && s.gate == Go && s.pcs[0] != Idle && j < s.n && s.pcs[j] == InDone
    requires forall i: nat :: i < s.n ==> !Unblocked(s, i)
    ensures CanProgress(s)
  {
    assert Good(s, j) && Placed(s.done, j) && Placed(s.start, j);
    if s.done.arrived[j] <= s.done.rounds {
      DoneOpens(s, j);
    } else {
      MissingThread(s.done);
      var k: nat :| k < s.n && s.done.arrived[k] == s.done.rounds;
      assert Good(s, k) && Placed(s.done, k) && Placed(s.start, k) && !Unblocked(s, k);
      BatchesDone(s, k);
      if s.pcs[k] == InStart {
        StartOpens(s, k);
      }
    }
  }

  /** With everybody inside the start barrier or past the last start, one who is
      inside can come out, or the driver finds all the others gone. */
  lemma StartAdvances(s: Pool)
    requires Inv(s) && s.gate == Go && s.pcs[0] !in {Idle, Gone}
    requires forall i: nat :: i < s.n ==> !Unblocked(s, i) && s.pcs[i] != InDone
    ensures CanProgress(s)
  {
    assert Good(s, 0);
    if k: nat :| k < s.n && s.pcs[k] == InStart {
      InsideStart(s, k);
    } else {
      forall i: nat | 1 <= i < s.n ensures s.pcs[i] == Gone {
        assert Good(s, i) && !Unblocked(s, i);
      }
      assert !Unblocked(s, 0);
      assert Certain(s, Look(0));
    }
  }

  lemma InsideStart(s: Pool, k: nat)
    requires Inv(s) && s.gate == Go && k < s.n && s.pcs[k] == InStart && s.pcs[0] !in {Idle, Gone}
    requires forall i: nat :: i < s.n ==> !Unblocked(s, i) && s.pcs[i] != InDone
    ensures CanProgress(s)
  {
    MissingThread(s.start);
    var j: nat :| j < s.n && s.start.arrived[j] == s.start.rounds;
    assert Good(s, j) && Placed(s.start, j) && !Unblocked(s, j);
    assert Good(s, k) && Placed(s.start, k);
    BatchesDone(s, j);
    BatchesDone(s, k);
    StartOpens(s, if s.pcs[j] == InStart then j else k);
  }

  /** Unless the driver is between calls or has freed the pool, some thread can
      go on without a wake-up that was never sent: the two barriers, the gate
      and the stop flag never leave everybody waiting. */
  lemma NeverStuck(n: nat, moves: seq<Move>)
    requires 0 < n
    ensures var s := Run(Created(n), moves);
      Inv(s) && (s.pcs[0] !in {Idle, Gone} ==> CanProgress(s))
  {
    CreatedInv(n);
    RunKeeps(Created(n), moves);
    var s := Run(Created(n), moves);
    if s.pcs[0] !in {Idle, Gone} {
      Stuckless(s);
    }
  }

  lemma Stuckless(s: Pool)
    requires Inv(s) && s.pcs[0] !in {Idle, Gone}
    ensures CanProgress(s)
  {
    assert Good(s, 0);
    if s.gate == Go {
      if i: nat :| i < s.n && Unblocked(s, i) {
        UnblockedMoves(s, i);
      } else if j: nat :| j < s.n && s.pcs[j] == InDone {
        DoneAdvances(s, j);
      } else {
        StartAdvances(s);
      }
    } else {
      GateAdvances(s);
    }
  }

  lemma GateAdvances(s: Pool)
    requires Inv(s) && s.gate != Go && s.pcs[0] != Gone
    ensures CanProgress(s)
  {
    assert Good(s, 0);
    if s.gate == Pending {
      assert Certain(s, if s.created + 1 < s.n then Create(true) else Release);
    } else if i: nat :| 1 <= i < s.created + 1 && s.pcs[i] != Gone {
      assert Good(s, i);
      assert Certain(s, Pass(i));
    } else {
      assert Certain(s, JoinAborted);
    }
  }

  // ---- every call returns, and a stop ends everything --------------------------

  function Pos(pc: Pc): nat {
    match pc
    case Unborn => 0 case AtGate => 1 case Idle => 2 case Ready => 3 case InStart => 4
    case Started => 5 case Hashing => 6 case InDone => 7 case Gone => 8
  }

  /** How far thread `i` is from the end of what has been ordered. */
  function Ahead(s: Pool, i: nat): int
    requires Shaped(s) && i < s.n
  {
    6 * |s.orders| + 8 - 6 * s.done.left[i] - Pos(s.pcs[i])
  }

  function AheadOf(s: Pool, k: nat): int
    requires Shaped(s) && k <= s.n
  {
    if k == 0 then 0 else AheadOf(s, k - 1) + Ahead(s, k - 1)
  }

  /** Steps that can still be taken before the driver must order again. */
  function Work(s: Pool): int
    requires Shaped(s)
  {
    AheadOf(s, s.n) + if s.gate == Pending then 1 else 0
  }

  predicate Call(m: Move) {
    m.Order? || m.End?
  }

  lemma AheadBound(s: Pool, i: nat)
    requires Inv(s) && i < s.n
    ensures 0 <= Ahead(s, i)
  {
    assert Good(s, i);
    if s.gate == Go {
      BatchesDone(s, i);
    }
  }

  lemma {:induction false} WorkBound(s: Pool, k: nat)
    requires Inv(s) && k <= s.n
    ensures 0 <= AheadOf(s, k)
  {
    hide Inv, Ahead;
    if k > 0 {
      WorkBound(s, k - 1);
      AheadBound(s, k - 1);
    }
  }

  /** One thread gets nearer, or nobody moves. */
  lemma {:induction false} AheadMoves(s: Pool, t: Pool, i: nat, k: nat)
    requires Shaped(s) && Shaped(t) && s.n == t.n && i < s.n && k <= s.n
    requires Ahead(t, i) <= Ahead(s, i) && forall j: nat :: j < s.n && j != i ==> Ahead(t, j) == Ahead(s, j)
    ensures AheadOf(t, k) == AheadOf(s, k) - if i < k then Ahead(s, i) - Ahead(t, i) else 0
  {
    hide Ahead;
    if k > 0 {
      AheadMoves(s, t, i, k - 1);
    }
  }

  /** Whose step it is. */
  function Mover(s: Pool, m: Move): nat {
    match m
    case Create(ok) => if ok then s.created + 1 else 0
    case Release => 0
    case JoinAborted => 0
    case Order(_) => 0
    case End => 0
    case _ => m.i
  }

  /** A step of a thread's own moves that thread on, if it is not a wake-up that
      finds the barrier shut, and nobody else. */
  lemma MoverMoves(s: Pool, m: Move)
    requires Inv(s) && Enabled(s, m) && !Call(m)
    ensures var t, i := Apply(s, m), Mover(s, m);
      && t.n == s.n && i < s.n && (forall j: nat :: j < s.n && j != i ==> Ahead(t, j) == Ahead(s, j))
      && Ahead(t, i) <= Ahead(s, i)
      && (Progresses(s, m) && !(m.Create? && !m.ok) ==> Ahead(t, i) < Ahead(s, i))
  {
    var i := Mover(s, m);
    assert Good(s, i) && Placed(s.start, i) && Placed(s.done, i);
    hide Barriers.Inv;
  }

  /** Every such step uses up work; nothing but a call brings more. */
  lemma WorkFalls(s: Pool, m: Move)
    requires Inv(s) && !Call(m)
    ensures Shaped(Step(s, m)) && Work(Step(s, m)) <= Work(s) - if Progresses(s, m) then 1 else 0
  {
    StepKeeps(s, m);
    if Enabled(s, m) {
      MoverMoves(s, m);
      hide Inv, Ahead, Progresses;
      AheadMoves(s, Apply(s, m), Mover(s, m), s.n);
    }
  }

  /** How many of a run's steps take their thread further. */
  ghost function Steps(s: Pool, moves: seq<Move>): nat
    decreases |moves|
  {
    if moves == [] then 0
    else (if Shaped(s) && Progresses(s, moves[0]) then 1 else 0) + Steps(Step(s, moves[0]), moves[1..])
  }

  predicate NoCalls(moves: seq<Move>) {
    forall i :: 0 <= i < |moves| ==> !Call(moves[i])
  }

  lemma NoCallKeeps(s: Pool, m: Move)
    requires Shaped(s) && !Call(m)
    ensures Step(s, m).stop == s.stop && Step(s, m).orders == s.orders && (s.gate == Go ==> Step(s, m).gate == Go)
  {
  }

  /** Between calls a run has only so many steps in it, spurious wake-ups apart. */
  lemma {:induction false} StepsBounded(s: Pool, moves: seq<Move>)
    requires Inv(s) && NoCalls(moves)
    ensures Inv(Run(s, moves)) && Steps(s, moves) + Work(Run(s, moves)) <= Work(s)
    ensures Run(s, moves).stop == s.stop && Run(s, moves).orders == s.orders
      && (s.gate == Go ==> Run(s, moves).gate == Go)
    decreases |moves|
  {
    hide Inv, Work, Progresses, Step;
    if moves != [] {
      WorkFalls(s, moves[0]);
      StepKeeps(s, moves[0]);
      NoCallKeeps(s, moves[0]);
      assert !Call(moves[0]);
      StepsBounded(Step(s, moves[0]), moves[1..]);
    }
  }

  lemma {:induction false} AheadCap(s: Pool, k: nat)
    requires Shaped(s) && k <= s.n
    ensures AheadOf(s, k) <= k * (6 * |s.orders| + 8)
  {
    if k > 0 {
      AheadCap(s, k - 1);
    }
  }

  /** No thread takes more than six steps for a batch, and eight besides. */
  function Budget(s: Pool): int {
    s.n * (6 * |s.orders| + 8) + 1
  }

  /** With `stop` and `orders` as they are, a run is over after so many steps;
      until then, or until the driver may go on, some thread is sure to move. */
  lemma RunsOut(s: Pool, moves: seq<Move>)
    requires Inv(s) && NoCalls(moves)
    ensures var t := Run(s, moves);
      && Inv(t) && Steps(s, moves) <= Budget(s)
      && (t.pcs[0] in {Idle, Gone} || CanProgress(t))
  {
    StepsBounded(s, moves);
    var t := Run(s, moves);
    WorkBound(t, t.n);
    AheadCap(s, s.n);
    if t.pcs[0] !in {Idle, Gone} {
      Stuckless(t);
    }
  }

  /** pool_create returns: with every thread at work, or with those it had
      created joined. */
  lemma StartEnds(n: nat, moves: seq<Move>)
    requires 0 < n && NoCalls(moves)
    ensures var t := Run(Created(n), moves);
      && Inv(t) && Steps(Created(n), moves) <= 8 * n + 1
      && (CanProgress(t) || (t.pcs[0] == Idle && t.gate == Go && t.created + 1 == t.n)
          || (t.pcs[0] == Gone && t.gate == Abort && AllGone(t, t.created + 1)))
  {
    CreatedInv(n);
    StepsBounded(Created(n), moves);
    RunsOut(Created(n), moves);
    var t := Run(Created(n), moves);
    assert Good(t, 0);
  }

  /** Every call returns: from the order of a batch, however the threads are
      scheduled, only so many steps can be taken, and until the driver is back
      with everybody's part hashed some thread is sure to move. */
  lemma CallsReturn(n: nat, before: seq<Move>, reps: nat, after: seq<Move>)
    requires 0 < n && NoCalls(after)
    ensures var s := Run(Created(n), before);
      Inv(s) && (s.pcs[0] == Idle ==>
        var u := Step(s, Order(reps));
        var t := Run(u, after);
        && Inv(u) && Inv(t) && t.orders == s.orders + [reps] && t.reps == reps
        && Steps(u, after) <= Budget(u)
        && (CanProgress(t) || (t.pcs[0] == Idle && forall i: nat :: i < t.n ==> |t.orders| <= t.done.arrived[i])))
  {
    hide Inv, Step, Steps, CanProgress, Budget;
    CreatedInv(n);
    RunKeeps(Created(n), before);
    var s := Run(Created(n), before);
    if s.pcs[0] == Idle {
      OrderReturns(s, reps, after);
    }
  }

  /** A call leaves the driver's state as it should. */
  lemma CallStarts(s: Pool, m: Move)
    requires Inv(s) && s.pcs[0] == Idle && Call(m)
    ensures var u := Step(s, m);
      && Inv(u) && u.gate == Go && u.n == s.n && u.stop == m.End?
      && u.orders == if m.Order? then s.orders + [m.reps] else s.orders
  {
    DriverIdle(s, 0);
    StepKeeps(s, m);
  }

  lemma OrderReturns(s: Pool, reps: nat, after: seq<Move>)
    requires Inv(s) && s.pcs[0] == Idle && NoCalls(after)
    ensures var u := Step(s, Order(reps));
      var t := Run(u, after);
      && Inv(u) && Inv(t) && t.orders == s.orders + [reps] && t.reps == reps
      && Steps(u, after) <= Budget(u)
      && (CanProgress(t) || (t.pcs[0] == Idle && forall i: nat :: i < t.n ==> |t.orders| <= t.done.arrived[i]))
  {
    hide Inv, Step, CanProgress, Steps, Budget, Run;
    var u := Step(s, Order(reps));
    CallStarts(s, Order(reps));
    StepsBounded(u, after);
    RunsOut(u, after);
    var t := Run(u, after);
    NotGone(t);
    forall i: nat | i < t.n && t.pcs[0] == Idle ensures |t.orders| <= t.done.arrived[i] {
      DriverIdle(t, i);
    }
  }

  lemma NotGone(t: Pool)
    requires Inv(t) && t.gate == Go && !t.stop
    ensures t.pcs[0] != Gone && (t.orders != [] ==> t.reps == t.orders[|t.orders| - 1])
  {
    assert Good(t, 0);
  }

  /** A stop ends everything: from the end, however the threads are scheduled,
      only so many steps can be taken, and until the driver has freed the pool
      some thread is sure to move; by then every thread has returned, with every
      batch ordered behind it. */
  lemma StopEndsAll(n: nat, before: seq<Move>, after: seq<Move>)
    requires 0 < n && NoCalls(after)
    ensures var s := Run(Created(n), before);
      Inv(s) && (s.pcs[0] == Idle ==>
        var u := Step(s, End);
        var t := Run(u, after);
        && Inv(u) && Inv(t) && t.orders == s.orders
        && Steps(u, after) <= Budget(u)
        && (CanProgress(t) || forall i: nat :: i < t.n ==> t.pcs[i] == Gone && t.done.left[i] == |s.orders|))
  {
    hide Inv, Step, Steps, CanProgress, Budget;
    CreatedInv(n);
    RunKeeps(Created(n), before);
    var s := Run(Created(n), before);
    if s.pcs[0] == Idle {
      EndEnds(s, after);
    }
  }

  lemma EndEnds(s: Pool, after: seq<Move>)
    requires Inv(s) && s.pcs[0] == Idle && NoCalls(after)
    ensures var u := Step(s, End);
      var t := Run(u, after);
      && Inv(u) && Inv(t) && t.orders == s.orders
      && Steps(u, after) <= Budget(u)
      && (CanProgress(t) || forall i: nat :: i < t.n ==> t.pcs[i] == Gone && t.done.left[i] == |s.orders|)
  {
    hide Inv, Step, CanProgress, Steps, Budget, Run;
    var u := Step(s, End);
    CallStarts(s, End);
    StepsBounded(u, after);
    RunsOut(u, after);
    var t := Run(u, after);
    if !CanProgress(t) {
      EverybodyGone(t);
    }
  }

  lemma EverybodyGone(t: Pool)
    requires Inv(t) && t.gate == Go && t.stop && t.pcs[0] in {Idle, Gone}
    ensures forall i: nat :: i < t.n ==> t.pcs[i] == Gone && t.done.left[i] == |t.orders|
  {
    assert t.pcs[0] == Gone && AllGone(t, t.n);
    forall i: nat | i < t.n ensures t.pcs[i] == Gone && t.done.left[i] == |t.orders| {
      assert Good(t, i);
    }
  }
}
