/**
 The reusable barrier for platforms without one: a count, a generation number
 that wraps, and a condition variable that wakes whom it was told to, and may
 wake anybody else at any time.

 `vb_barrier_wait` holds the mutex except inside the condition wait, so it is
 two kinds of atomic step: arriving, and waking up to look at the generation.
 */
module Barriers {
  import opened Arithmetic
  import opened Protocol

  /** The generation is an unsigned 32-bit counter. */
  const GENERATIONS: nat := 0x1_0000_0000

  /**
   inside    the generation each blocked thread saw when it arrived
   signalled the blocked threads a broadcast has reached since they last waited
   arrived   how often each thread has entered the barrier
   left      how often it has come out again
   rounds    how often the barrier has opened
   The last three only record history.
   */
  datatype Barrier = Barrier(threshold: nat, waiting: nat, generation: nat, inside: seq<Option<nat>>,
                             signalled: set<nat>, arrived: seq<nat>, left: seq<nat>, rounds: nat)

  function Fresh(n: nat): Barrier {
    Barrier(n, 0, 0, seq(n, _ => None), {}, seq(n, _ => 0), seq(n, _ => 0), 0)
  }

  predicate Shaped(b: Barrier) {
    0 < b.threshold == |b.inside| == |b.arrived| == |b.left|
  }

  /** Everybody in the condition wait: whom a broadcast reaches. */
  function Blocked(b: Barrier): (r: set<nat>)
    ensures forall i: nat :: i in r <==> i < |b.inside| && b.inside[i].Some?
  {
    set i: nat | i < |b.inside| && b.inside[i].Some?
  }

  /** A thread may enter when it is not inside. */
  predicate MayArrive(b: Barrier, i: nat) {
    Shaped(b) && i < b.threshold && b.inside[i].None?
  }

  function Arrive(b: Barrier, i: nat): Barrier
    requires MayArrive(b, i)
  {
    var entered := b.(arrived := b.arrived[i := b.arrived[i] + 1]);
    if b.waiting + 1 == b.threshold then
      entered.(waiting := 0, generation := (b.generation + 1) % GENERATIONS, signalled := Blocked(b),
               left := b.left[i := b.left[i] + 1], rounds := b.rounds + 1)
    else
      entered.(waiting := b.waiting + 1, inside := b.inside[i := Some(b.generation)])
  }

  /** A blocked thread wakes, signalled or not, and looks. */
  predicate MayWake(b: Barrier, i: nat) {
    Shaped(b) && i < b.threshold && b.inside[i].Some?
  }

  predicate Open(b: Barrier, i: nat)
    requires MayWake(b, i)
  {
    b.inside[i].value != b.generation
  }

  function Wake(b: Barrier, i: nat): Barrier
    requires MayWake(b, i)
  {
    var woken := b.(signalled := b.signalled - {i});
    if Open(b, i) then woken.(inside := b.inside[i := None], left := b.left[i := b.left[i] + 1]) else woken
  }

  // ---- counting ---------------------------------------------------------------

  function Tally(s: seq<nat>, v: nat): (n: nat)
    ensures n <= |s|
  {
    if s == [] then 0 else Tally(s[..|s| - 1], v) + if s[|s| - 1] == v then 1 else 0
  }

  lemma {:induction false} TallyUpdate(s: seq<nat>, i: nat, x: nat, v: nat)
    requires i < |s|
    ensures Tally(s[i := x], v) == Tally(s, v) - (if s[i] == v then 1 else 0) + (if x == v then 1 else 0)
  {
    var n := |s| - 1;
    if i < n {
      TallyUpdate(s[..n], i, x, v);
      assert s[i := x][..n] == s[..n][i := x];
    } else {
      assert s[i := x][..n] == s[..n];
    }
  }

  lemma {:induction false} TallyAll(s: seq<nat>, v: nat)
    ensures Tally(s, v) == |s| <==> forall i :: 0 <= i < |s| ==> s[i] == v
    ensures (forall i :: 0 <= i < |s| ==> s[i] != v) ==> Tally(s, v) == 0
  {
    if s != [] {
      TallyAll(s[..|s| - 1], v);
      assert forall i :: 0 <= i < |s| - 1 ==> s[..|s| - 1][i] == s[i];
    }
  }

  // ---- the invariant ----------------------------------------------------------

  /** Thread i of a barrier that has opened b.rounds times: it is in this round
      or the one that just ended, inside exactly if it has not come out, and
      signalled if its round has ended. */
  predicate Placed(b: Barrier, i: nat)
    requires Shaped(b) && i < b.threshold
  {
    && b.rounds <= b.arrived[i] <= b.rounds + 1
    && b.left[i] <= b.rounds
    && match b.inside[i]
       case None => b.left[i] == b.arrived[i]
       case Some(g) =>
         && b.left[i] + 1 == b.arrived[i] && g == b.left[i] % GENERATIONS
         && (b.arrived[i] <= b.rounds ==> i in b.signalled)
  }

  predicate Inv(b: Barrier) {
    && Shaped(b)
    && b.generation == b.rounds % GENERATIONS
    && b.waiting == Tally(b.arrived, b.rounds + 1) < b.threshold
    && forall i: nat :: i < b.threshold ==> Placed(b, i)
  }

  lemma FreshInv(n: nat)
    requires 0 < n
    ensures Inv(Fresh(n))
  {
    TallyAll(Fresh(n).arrived, 1);
  }

  lemma NextGeneration(rounds: nat)
    ensures (rounds % GENERATIONS + 1) % GENERATIONS == (rounds + 1) % GENERATIONS
    ensures rounds % GENERATIONS != (rounds + 1) % GENERATIONS
  {
  }

  /** The last one in opens the barrier: everybody else had arrived. */
  lemma LastArrives(b: Barrier, i: nat)
    requires Inv(b) && MayArrive(b, i) && b.waiting + 1 == b.threshold
    ensures forall j: nat :: j < b.threshold && j != i ==> b.arrived[j] == b.rounds + 1
    ensures Tally(Arrive(b, i).arrived, b.rounds + 2) == 0
  {
    assert Placed(b, i);
    var s := b.arrived[i := b.rounds + 1];
    TallyUpdate(b.arrived, i, b.rounds + 1, b.rounds + 1);
    TallyAll(s, b.rounds + 1);
    forall j: nat | j < b.threshold && j != i ensures b.arrived[j] == b.rounds + 1 {
      assert s[j] == b.rounds + 1;
    }
    TallyAll(s, b.rounds + 2);
  }

  lemma LastKeeps(b: Barrier, i: nat)
    requires Inv(b) && MayArrive(b, i) && b.waiting + 1 == b.threshold
    ensures Inv(Arrive(b, i))
  {
    var n := Arrive(b, i);
    assert Placed(b, i);
    NextGeneration(b.rounds);
    LastArrives(b, i);
    hide Tally;
    forall j: nat | j < n.threshold ensures Placed(n, j) {
      assert Placed(b, j);
    }
  }

  lemma ArriveKeeps(b: Barrier, i: nat)
    requires Inv(b) && MayArrive(b, i)
    ensures Inv(Arrive(b, i))
  {
    if b.waiting + 1 == b.threshold {
      LastKeeps(b, i);
    } else {
      var n := Arrive(b, i);
      assert Placed(b, i);
      TallyUpdate(b.arrived, i, b.rounds + 1, b.rounds + 1);
      hide Tally;
      forall j: nat | j < n.threshold ensures Placed(n, j) {
        assert Placed(b, j);
      }
    }
  }

  /** Whoever is inside from the last round sees a new generation, however many
      times the counter has wrapped; whoever is inside from this one does not. */
  lemma OpenIsDone(b: Barrier, i: nat)
    requires Inv(b) && MayWake(b, i)
    ensures Open(b, i) <==> b.arrived[i] <= b.rounds
    ensures Open(b, i) <==> forall j: nat :: j < b.threshold ==> b.arrived[i] <= b.arrived[j]
  {
    hide Tally;
    assert Placed(b, i);
    if b.arrived[i] <= b.rounds {
      NextGeneration(b.rounds - 1);
      forall j: nat | j < b.threshold ensures b.arrived[i] <= b.arrived[j] {
        assert Placed(b, j);
      }
    } else {
      MissingThread(b);
    }
  }

  /** An unfinished round lacks somebody. */
  lemma MissingThread(b: Barrier)
    requires Inv(b)
    ensures exists j: nat :: j < b.threshold && b.arrived[j] == b.rounds
  {
    TallyAll(b.arrived, b.rounds + 1);
    var j :| 0 <= j < b.threshold && b.arrived[j] != b.rounds + 1;
    assert Placed(b, j);
  }

  lemma WakeKeeps(b: Barrier, i: nat)
    requires Inv(b) && MayWake(b, i)
    ensures Inv(Wake(b, i))
  {
    OpenIsDone(b, i);
    hide Tally;
    var n := Wake(b, i);
    forall j: nat | j < n.threshold ensures Placed(n, j) {
      assert Placed(b, j);
    }
  }

  /** Nobody comes out of a round that somebody has not entered. */
  lemma NobodyEarly(b: Barrier, i: nat, j: nat)
    requires Inv(b) && i < b.threshold && j < b.threshold
    ensures b.left[i] <= b.arrived[j]
  {
    assert Placed(b, i) && Placed(b, j);
  }

  // ---- runs -------------------------------------------------------------------

  datatype Move = Arriving(i: nat) | Waking(i: nat)

  function Step(b: Barrier, m: Move): Barrier {
    match m
    case Arriving(i) => if MayArrive(b, i) then Arrive(b, i) else b
    case Waking(i) => if MayWake(b, i) then Wake(b, i) else b
  }

  function Run(b: Barrier, moves: seq<Move>): Barrier
    decreases |moves|
  {
    if moves == [] then b else Run(Step(b, moves[0]), moves[1..])
  }

  lemma StepKeeps(b: Barrier, m: Move)
    requires Inv(b)
    ensures Inv(Step(b, m)) && Step(b, m).threshold == b.threshold
  {
    match m
    case Arriving(i) => if MayArrive(b, i) { ArriveKeeps(b, i); }
    case Waking(i) => if MayWake(b, i) { WakeKeeps(b, i); }
  }

  lemma {:induction false} RunKeeps(b: Barrier, moves: seq<Move>)
    requires Inv(b)
    ensures Inv(Run(b, moves)) && Run(b, moves).threshold == b.threshold
    decreases |moves|
  {
    hide Inv;
    if moves != [] {
      StepKeeps(b, moves[0]);
      RunKeeps(Step(b, moves[0]), moves[1..]);
    }
  }

  /** Any interleaving of arrivals and wake-ups, any number of rounds: nobody
      leaves a round before all have arrived in it, and a thread inside finds
      it open exactly when they have. */
  lemma RunIsABarrier(n: nat, moves: seq<Move>, i: nat, j: nat)
    requires 0 < n && i < n && j < n
    ensures var b := Run(Fresh(n), moves);
      Inv(b) && b.threshold == n && b.left[i] <= b.arrived[j]
      && (MayWake(b, i) ==> (Open(b, i) <==> forall k: nat :: k < n ==> b.arrived[i] <= b.arrived[k]))
  {
    FreshInv(n);
    RunKeeps(Fresh(n), moves);
    var b := Run(Fresh(n), moves);
    NobodyEarly(b, i, j);
    if MayWake(b, i) {
      OpenIsDone(b, i);
    }
  }

  /** Whoever finds the barrier open has been told to look. */
  lemma OpenIsSignalled(b: Barrier, i: nat)
    requires Inv(b) && MayWake(b, i) && Open(b, i)
    ensures i in b.signalled
  {
    assert Placed(b, i);
    OpenIsDone(b, i);
  }

  /** A thread that a broadcast has reached and that will come out on waking. */
  predicate MayLeave(b: Barrier, i: nat) {
    MayWake(b, i) && Open(b, i) && i in b.signalled
  }

  /** While a round is unfinished, some thread outside it has still to arrive,
      or one that the broadcast has reached has still to come out of the round
      before: nobody needs a wake-up that was never sent. */
  lemma NeverStuck(b: Barrier)
    requires Inv(b)
    ensures exists j: nat :: MayArrive(b, j) || MayLeave(b, j)
  {
    MissingThread(b);
    var j: nat :| j < b.threshold && b.arrived[j] == b.rounds;
    assert Placed(b, j);
    if MayWake(b, j) {
      OpenIsDone(b, j);
      assert MayLeave(b, j);
    } else {
      assert MayArrive(b, j);
    }
  }
}
