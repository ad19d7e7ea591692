/**
 The capacity probe: the first work-item of every work-group counts itself in,
 reads the two shared counters one after the other for a while, and counts
 itself out. Between any two of its actions any other group may act.
 */
module Capacity {
  import opened Arithmetic
  import Geometry

  const WIDTH: nat := 0x1_0000_0000

  /**
   Waiting    not on the device yet
   Resident   on the device, not counted in
   Looking    counted in, about to read `started`, with `left` read pairs to go
   HalfRead   has read `started`; `held` records how many were resident then
   Leaving    out of the loop, with its maximum still to publish
   Published  published, not counted out
   Gone       counted out
   */
  datatype Pc =
    | Waiting | Resident | Looking(left: nat, most: nat)
    | HalfRead(left: nat, started: nat, held: nat, most: nat)
    | Leaving(most: nat) | Published | Gone

  /** `spin` is the most read pairs of a group. The counters are 32-bit. `peak`
      records the most groups ever resident, and `wrapped` whether some read of `finished`
      was past the `started` before it. */
  datatype Probe = Probe(pcs: seq<Pc>, spin: nat, started: nat, finished: nat, most: nat, peak: nat, wrapped: bool)

  datatype Move = Arrive(i: nat) | CountIn(i: nat) | ReadStarted(i: nat) | ReadFinished(i: nat)
                | Publish(i: nat) | CountOut(i: nat)

  function On(pc: Pc): nat {
    if pc.Waiting? || pc.Gone? then 0 else 1
  }

  function In(pc: Pc): nat {
    if pc.Waiting? || pc.Resident? then 0 else 1
  }

  function Out(pc: Pc): nat {
    if pc.Gone? then 1 else 0
  }

  function Total(f: Pc -> nat, pcs: seq<Pc>): nat {
    if pcs == [] then 0 else Total(f, pcs[..|pcs| - 1]) + f(pcs[|pcs| - 1])
  }

  lemma {:induction false} TotalUpdate(f: Pc -> nat, pcs: seq<Pc>, i: nat, pc: Pc)
    requires i < |pcs|
    ensures Total(f, pcs[i := pc]) + f(pcs[i]) == Total(f, pcs) + f(pc)
  {
    var n := |pcs| - 1;
    if i < n {
      TotalUpdate(f, pcs[..n], i, pc);
      assert pcs[i := pc][..n] == pcs[..n][i := pc];
    } else {
      assert pcs[i := pc][..n] == pcs[..n];
    }
  }

  /** Whoever is counted in and not out is on the device. */
  lemma {:induction false} InsideIsOn(pcs: seq<Pc>)
    ensures Total(In, pcs) <= Total(On, pcs) + Total(Out, pcs)
    ensures Total(In, pcs) <= |pcs| && Total(On, pcs) <= |pcs| && Total(Out, pcs) <= |pcs|
  {
    if pcs != [] {
      InsideIsOn(pcs[..|pcs| - 1]);
    }
  }

  /** Unsigned 32-bit subtraction. */
  function Minus(x: nat, y: nat): nat {
    (x + WIDTH - y % WIDTH) % WIDTH
  }

  function Max(x: nat, y: nat): nat {
    if x < y then y else x
  }

  predicate Enabled(s: Probe, m: Move) {
    m.i < |s.pcs| &&
    match m
    case Arrive(i) => s.pcs[i].Waiting?
    case CountIn(i) => s.pcs[i].Resident?
    case ReadStarted(i) => s.pcs[i].Looking?
    case ReadFinished(i) => s.pcs[i].HalfRead?
    case Publish(i) => s.pcs[i].Leaving?
    case CountOut(i) => s.pcs[i].Published?
  }

  /** The loop ends when the whole launch is in, when somebody is out, or after
      `spin` read pairs. */
  function AfterRead(s: Probe, pc: Pc): Pc
    requires pc.HalfRead?
  {
    var most := Max(pc.most, Minus(pc.started, s.finished));
    if pc.started == |s.pcs| || s.finished != 0 || pc.left <= 1 then Leaving(most) else Looking(pc.left - 1, most)
  }

  function Apply(s: Probe, m: Move): Probe
    requires Enabled(s, m)
  {
    match m
    case Arrive(i) =>
      var pcs := s.pcs[i := Resident];
      s.(pcs := pcs, peak := Max(s.peak, Total(On, pcs)))
    case CountIn(i) =>
      var pc := if s.spin == 0 then Leaving(0) else Looking(s.spin, 0);
      s.(pcs := s.pcs[i := pc], started := (s.started + 1) % WIDTH)
    case ReadStarted(i) =>
      s.(pcs := s.pcs[i := HalfRead(s.pcs[i].left, s.started, Total(On, s.pcs), s.pcs[i].most)])
    case ReadFinished(i) =>
      s.(pcs := s.pcs[i := AfterRead(s, s.pcs[i])], wrapped := s.wrapped || s.pcs[i].started < s.finished)
    case Publish(i) => s.(pcs := s.pcs[i := Published], most := Max(s.most, s.pcs[i].most))
    case CountOut(i) => s.(pcs := s.pcs[i := Gone], finished := (s.finished + 1) % WIDTH)
  }

  function Run(s: Probe, moves: seq<Move>): Probe
    decreases |moves|
  {
    if moves == [] then s else Run(if Enabled(s, moves[0]) then Apply(s, moves[0]) else s, moves[1..])
  }

  /** The probe as the host launches it, its counters zeroed. */
  function Launched(groups: nat, spin: nat): Probe {
    Probe(seq(groups, _ => Waiting), spin, 0, 0, 0, 0, false)
  }

  // ---- the invariant ----------------------------------------------------------

  /** A value `x` recorded so far is honest: at most the most groups ever on the
      device, unless a read wrapped; if one did, some record is beyond them all. */
  predicate Sane(s: Probe, pc: Pc) {
    match pc
    case Looking(_, most) => (s.wrapped || most <= s.peak) && 0 < s.spin
    case HalfRead(_, started, held, most) =>
      && (s.wrapped || most <= s.peak) && 0 < s.spin
      && held <= s.peak && 0 < started <= held + s.finished && started <= |s.pcs|
    case Leaving(most) => s.wrapped || most <= s.peak
    case _ => true
  }

  predicate Beyond(s: Probe, pc: Pc) {
    match pc
    case Looking(_, most) => |s.pcs| < most
    case HalfRead(_, _, _, most) => |s.pcs| < most
    case Leaving(most) => |s.pcs| < most
    case _ => false
  }

  ghost predicate Inv(s: Probe) {
    && 2 * |s.pcs| < WIDTH
    && s.started == Total(In, s.pcs) && s.finished == Total(Out, s.pcs)
    && Total(On, s.pcs) <= s.peak <= |s.pcs|
    && (s.wrapped || s.most <= s.peak)
    && (forall i :: 0 <= i < |s.pcs| ==> Sane(s, s.pcs[i]))
    && (s.wrapped ==> 3 <= |s.pcs| && 0 < s.spin)
    && (s.wrapped ==> |s.pcs| < s.most || exists i :: 0 <= i < |s.pcs| && Beyond(s, s.pcs[i]))
  }

  lemma MinusExact(x: nat, y: nat)
    requires x < WIDTH && y < WIDTH
    ensures y <= x ==> Minus(x, y) == x - y
    ensures x < y ==> Minus(x, y) == WIDTH - (y - x)
  {
  }

  lemma {:induction false} NobodyYet(groups: nat)
    ensures var pcs := seq(groups, _ => Waiting); Total(In, pcs) == Total(On, pcs) == Total(Out, pcs) == 0
  {
    if groups > 0 {
      NobodyYet(groups - 1);
      assert seq(groups, _ => Waiting)[..groups - 1] == seq(groups - 1, _ => Waiting);
    }
  }

  lemma Counts(s: Probe, i: nat, pc: Pc)
    requires i < |s.pcs|
    ensures Total(In, s.pcs[i := pc]) + In(s.pcs[i]) == Total(In, s.pcs) + In(pc)
    ensures Total(On, s.pcs[i := pc]) + On(s.pcs[i]) == Total(On, s.pcs) + On(pc)
    ensures Total(Out, s.pcs[i := pc]) + Out(s.pcs[i]) == Total(Out, s.pcs) + Out(pc)
    ensures Total(In, s.pcs[i := pc]) <= |s.pcs| && Total(On, s.pcs[i := pc]) <= |s.pcs|
      && Total(Out, s.pcs[i := pc]) <= |s.pcs|
  {
    TotalUpdate(In, s.pcs, i, pc);
    TotalUpdate(On, s.pcs, i, pc);
    TotalUpdate(Out, s.pcs, i, pc);
    InsideIsOn(s.pcs[i := pc]);
  }

  lemma CountMoves(s: Probe, m: Move)
    requires Inv(s) && Enabled(s, m) && (m.Arrive? || m.CountIn? || m.CountOut? || m.Publish?)
    ensures Inv(Apply(s, m))
  {
    hide Total;
    var t := Apply(s, m);
    Counts(s, m.i, t.pcs[m.i]);
    forall i | 0 <= i < |t.pcs| ensures Sane(t, t.pcs[i]) {
      assert Sane(s, s.pcs[i]);
    }
    if s.wrapped && s.most <= |s.pcs| {
      var j :| 0 <= j < |s.pcs| && Beyond(s, s.pcs[j]);
      if j != m.i {
        assert Beyond(t, t.pcs[j]);
      }
    }
  }

  lemma ReadMoves(s: Probe, m: Move)
    requires Inv(s) && Enabled(s, m) && (m.ReadStarted? || m.ReadFinished?)
    ensures Inv(Apply(s, m))
  {
    hide Total;
    var t := Apply(s, m);
    Counts(s, m.i, t.pcs[m.i]);
    InsideIsOn(s.pcs);
    Counts(s, m.i, Waiting);
    Counts(s, m.i, Gone);
    assert Sane(s, s.pcs[m.i]);
    if m.ReadFinished? {
      MinusExact(s.pcs[m.i].started, s.finished);
    }
    hide Minus;
    forall i | 0 <= i < |t.pcs| ensures Sane(t, t.pcs[i]) {
      assert Sane(s, s.pcs[i]);
    }
    if t.wrapped && t.most <= |t.pcs| {
      if s.wrapped {
        var j :| 0 <= j < |s.pcs| && Beyond(s, s.pcs[j]);
        assert Beyond(t, t.pcs[j]);
      } else {
        assert Beyond(t, t.pcs[m.i]);
      }
    }
  }

  lemma {:induction false} RunKeeps(s: Probe, moves: seq<Move>)
    requires Inv(s)
    ensures Inv(Run(s, moves)) && |Run(s, moves).pcs| == |s.pcs| && Run(s, moves).spin == s.spin
    decreases |moves|
  {
    hide Inv;
    if moves != [] && Enabled(s, moves[0]) {
      if moves[0].ReadStarted? || moves[0].ReadFinished? { ReadMoves(s, moves[0]); } else { CountMoves(s, moves[0]); }
      RunKeeps(Apply(s, moves[0]), moves[1..]);
    } else if moves != [] {
      RunKeeps(s, moves[1..]);
    }
  }

  predicate AllGone(s: Probe) {
    forall i :: 0 <= i < |s.pcs| ==> s.pcs[i].Gone?
  }

  /** In every run: once every group is out, the answer is at most the most
      groups that were ever on the device together exactly if it is at most the
      launch, which the host can see, and exactly if no read of `finished` was
      past the read of `started` before it. */
  lemma AnswerIsHonest(groups: nat, spin: nat, moves: seq<Move>)
    requires 2 * groups < WIDTH
    ensures var s := Run(Launched(groups, spin), moves);
      |s.pcs| == groups && s.peak <= groups
      && (AllGone(s) ==> (s.most <= groups <==> s.most <= s.peak) && (s.most <= s.peak <==> !s.wrapped))
  {
    NobodyYet(groups);
    RunKeeps(Launched(groups, spin), moves);
  }

  /** In every run a read pair that did not cross gives at most the groups that
      were on the device when `started` was read: reading it first can only
      undercount. A pair that crossed gives more than the whole launch. */
  lemma PairUndercounts(groups: nat, spin: nat, moves: seq<Move>, i: nat)
    requires 2 * groups < WIDTH && i < groups
    ensures var s := Run(Launched(groups, spin), moves);
      |s.pcs| == groups && (s.pcs[i].HalfRead? ==>
        var pc := s.pcs[i];
        var seen := Minus(pc.started, s.finished);
        && pc.held <= s.peak <= groups
        && (s.finished <= pc.started ==> seen == pc.started - s.finished <= pc.held)
        && (pc.started < s.finished ==> groups < seen))
  {
    NobodyYet(groups);
    RunKeeps(Launched(groups, spin), moves);
    var s := Run(Launched(groups, spin), moves);
    if s.pcs[i].HalfRead? {
      assert Sane(s, s.pcs[i]);
      InsideIsOn(s.pcs);
      MinusExact(s.pcs[i].started, s.finished);
      hide Minus;
    }
  }

  // ---- nothing seen is lost ---------------------------------------------------

  /** The answer so far, or what group `i` has still to publish, is at least `v`. */
  predicate Bears(s: Probe, i: nat, v: nat)
    requires i < |s.pcs|
  {
    v <= s.most || match s.pcs[i]
      case Looking(_, most) => v <= most
      case HalfRead(_, _, _, most) => v <= most
      case Leaving(most) => v <= most
      case _ => false
  }

  lemma {:induction false} BearsOn(s: Probe, i: nat, v: nat, moves: seq<Move>)
    requires i < |s.pcs| && Bears(s, i, v)
    ensures |Run(s, moves).pcs| == |s.pcs| && Bears(Run(s, moves), i, v)
    decreases |moves|
  {
    hide Total, Minus;
    if moves != [] {
      BearsOn(if Enabled(s, moves[0]) then Apply(s, moves[0]) else s, i, v, moves[1..]);
    }
  }

  /** In every run, whatever a read pair of any group gives, the answer at the end
      is at least that. */
  lemma NothingForgotten(groups: nat, spin: nat, before: seq<Move>, i: nat, after: seq<Move>)
    requires i < groups && 2 * groups < WIDTH
    ensures var s := Run(Launched(groups, spin), before);
      |s.pcs| == groups && (s.pcs[i].HalfRead? ==>
        var t := Run(s, [ReadFinished(i)] + after);
        |t.pcs| == groups && (AllGone(t) ==> Minus(s.pcs[i].started, s.finished) <= t.most))
  {
    NobodyYet(groups);
    RunKeeps(Launched(groups, spin), before);
    var s := Run(Launched(groups, spin), before);
    if s.pcs[i].HalfRead? {
      var u := Apply(s, ReadFinished(i));
      assert ([ReadFinished(i)] + after)[1..] == after;
      hide Run, Minus, Inv;
      assert Bears(u, i, Minus(s.pcs[i].started, s.finished));
      BearsOn(u, i, Minus(s.pcs[i].started, s.finished), after);
      RunFirst(s, ReadFinished(i), after);
    }
  }

  lemma RunFirst(s: Probe, m: Move, moves: seq<Move>)
    requires Enabled(s, m)
    ensures Run(s, [m] + moves) == Run(Apply(s, m), moves)
  {
    assert ([m] + moves)[1..] == moves;
  }

  /** Read pairs group `i` makes in a run. */
  function Pairs(s: Probe, moves: seq<Move>, i: nat): nat
    decreases |moves|
  {
    if moves == [] then 0
    else if Enabled(s, moves[0]) then
      (if moves[0] == ReadFinished(i) then 1 else 0) + Pairs(Apply(s, moves[0]), moves[1..], i)
    else Pairs(s, moves[1..], i)
  }

  /** Read pairs a group may still make; none once it is out of its loop. */
  function Due(s: Probe, i: nat): nat
    requires i < |s.pcs|
  {
    match s.pcs[i]
    case Waiting => s.spin
    case Resident => s.spin
    case Looking(left, _) => left
    case HalfRead(left, _, _, _) => left
    case _ => 0
  }

  predicate OutOfLoop(pc: Pc) {
    pc.Leaving? || pc.Published? || pc.Gone?
  }

  /** A group in its loop has reads left; one about to enter it has them all. */
  predicate Spinning(s: Probe, i: nat)
    requires i < |s.pcs|
  {
    (s.pcs[i].Looking? || s.pcs[i].HalfRead? ==> 0 < Due(s, i))
    && (s.pcs[i].HalfRead? ==> s.pcs[i].started <= s.started)
  }

  lemma StepInv(s: Probe, m: Move)
    requires Inv(s) && Enabled(s, m)
    ensures Inv(Apply(s, m)) && s.started <= |s.pcs| && s.finished <= |s.pcs| && 2 * |s.pcs| < WIDTH
    ensures Apply(s, m).started <= |s.pcs|
  {
    if m.ReadStarted? || m.ReadFinished? { ReadMoves(s, m); } else { CountMoves(s, m); }
    InsideIsOn(s.pcs);
    InsideIsOn(Apply(s, m).pcs);
    hide Total, Minus, Sane, Beyond;
  }

  /** The counters only grow. */
  lemma StepGrows(s: Probe, m: Move)
    requires Inv(s) && Enabled(s, m)
    ensures var t := Apply(s, m);
      && Inv(t) && |t.pcs| == |s.pcs| && t.spin == s.spin && 2 * |s.pcs| < WIDTH
      && s.started <= t.started <= |t.pcs| && s.finished <= t.finished
  {
    StepInv(s, m);
    hide Inv, Total, Minus;
  }

  /** A step uses up at most what it should of group `i`'s read pairs. */
  lemma StepUses(s: Probe, m: Move, i: nat)
    requires Inv(s) && Enabled(s, m) && i < |s.pcs| && Spinning(s, i)
    ensures var t, n := Apply(s, m), if m == ReadFinished(i) then 1 else 0;
      && Inv(t) && |t.pcs| == |s.pcs| && t.spin == s.spin && Spinning(t, i)
      && s.started <= t.started <= |t.pcs| && s.finished <= t.finished
      && (OutOfLoop(s.pcs[i]) ==> OutOfLoop(t.pcs[i]) && n == 0)
      && (!OutOfLoop(t.pcs[i]) ==> n + Due(t, i) == Due(s, i))
      && (OutOfLoop(t.pcs[i]) && !OutOfLoop(s.pcs[i]) ==>
          n == Due(s, i) || t.started == |t.pcs| || t.finished != 0)
  {
    StepGrows(s, m);
    hide Inv, Total, Minus, Max;
  }

  lemma {:induction false} RunUses(s: Probe, moves: seq<Move>, i: nat)
    requires Inv(s) && i < |s.pcs| && Spinning(s, i) && !OutOfLoop(s.pcs[i])
    ensures var t := Run(s, moves);
      && |t.pcs| == |s.pcs|
      && (OutOfLoop(t.pcs[i]) ==> Pairs(s, moves, i) == Due(s, i) || t.started == |t.pcs| || t.finished != 0)
      && (!OutOfLoop(t.pcs[i]) ==> Pairs(s, moves, i) + Due(t, i) == Due(s, i) && Spinning(t, i))
    decreases |moves|
  {
    hide Inv, Spinning, Apply, Enabled;
    if moves != [] {
      if Enabled(s, moves[0]) {
        var u := Apply(s, moves[0]);
        StepUses(s, moves[0], i);
        if OutOfLoop(u.pcs[i]) {
          StaysOut(u, moves[1..], i);
        } else {
          RunUses(u, moves[1..], i);
        }
      } else {
        RunUses(s, moves[1..], i);
      }
    }
  }

  lemma {:induction false} StaysOut(s: Probe, moves: seq<Move>, i: nat)
    requires Inv(s) && i < |s.pcs| && Spinning(s, i) && OutOfLoop(s.pcs[i])
    ensures var t := Run(s, moves);
      && |t.pcs| == |s.pcs| && OutOfLoop(t.pcs[i]) && Pairs(s, moves, i) == 0
      && s.started <= t.started && (s.started == |s.pcs| ==> t.started == |s.pcs|) && s.finished <= t.finished
    decreases |moves|
  {
    hide Inv, Spinning, Apply, Enabled;
    if moves != [] {
      if Enabled(s, moves[0]) {
        StepUses(s, moves[0], i);
        StaysOut(Apply(s, moves[0]), moves[1..], i);
      } else {
        StaysOut(s, moves[1..], i);
      }
    }
  }

  /** In every run a group makes at most `spin` read pairs; while somebody is
      still to come and nobody has gone, it leaves its loop only after as many.
      The pair that sees all in, or somebody gone, is its last. */
  lemma SpinsOut(groups: nat, spin: nat, moves: seq<Move>, i: nat)
    requires i < groups && 2 * groups < WIDTH
    ensures var s := Run(Launched(groups, spin), moves);
      |s.pcs| == groups && (OutOfLoop(s.pcs[i]) && s.started != groups && s.finished == 0
                            ==> Pairs(Launched(groups, spin), moves, i) == spin)
        && (s.pcs[i].HalfRead? || s.pcs[i].Looking? ==> Pairs(Launched(groups, spin), moves, i) < spin)
        && (s.pcs[i].HalfRead? && (s.pcs[i].started == groups || s.finished != 0)
            ==> OutOfLoop(Apply(s, ReadFinished(i)).pcs[i]))
  {
    NobodyYet(groups);
    hide Total;
    RunUses(Launched(groups, spin), moves, i);
  }

  // ---- when reads can cross ---------------------------------------------------

  lemma {:induction false} RunAppend(s: Probe, a: seq<Move>, b: seq<Move>)
    ensures Run(s, a + b) == Run(Run(s, a), b)
    decreases |a|
  {
    hide Enabled, Apply;
    if a == [] {
      assert a + b == b;
    } else {
      assert (a + b)[1..] == a[1..] + b;
      RunAppend(if Enabled(s, a[0]) then Apply(s, a[0]) else s, a[1..], b);
    }
  }

  lemma RunTwo(s: Probe, m: Move, n: Move)
    requires Enabled(s, m) && Enabled(Apply(s, m), n)
    ensures Run(s, [m, n]) == Apply(Apply(s, m), n)
  {
    hide Enabled, Apply;
    assert [m, n][1..] == [n];
    assert Run(Apply(s, m), [n]) == Run(Apply(Apply(s, m), n), [n][1..]);
  }

  /** `t` is `s` with group `j` out of its loop. */
  predicate Looped(s: Probe, t: Probe, j: nat) {
    && j < |s.pcs| && |t.pcs| == |s.pcs| && t.pcs[j].Leaving?
    && t.pcs == s.pcs[j := t.pcs[j]]
    && t.spin == s.spin && t.started == s.started && t.finished == s.finished
  }

  /** Group `j` reads on by itself until its loop ends. */
  lemma {:induction false} Reads(s: Probe, j: nat) returns (moves: seq<Move>)
    requires j < |s.pcs| && s.pcs[j].Looking?
    ensures Looped(s, Run(s, moves), j)
    decreases s.pcs[j].left
  {
    hide Total, Minus;
    var t := Apply(Apply(s, ReadStarted(j)), ReadFinished(j));
    RunTwo(s, ReadStarted(j), ReadFinished(j));
    assert t.pcs == s.pcs[j := t.pcs[j]];
    if t.pcs[j].Leaving? {
      moves := [ReadStarted(j), ReadFinished(j)];
    } else {
      var rest := Reads(t, j);
      moves := [ReadStarted(j), ReadFinished(j)] + rest;
      RunAppend(s, [ReadStarted(j), ReadFinished(j)], rest);
      assert s.pcs[j := t.pcs[j]][j := Run(t, rest).pcs[j]] == s.pcs[j := Run(t, rest).pcs[j]];
    }
  }

  /** Group 0 has read `started` when it was alone; groups 1 to j - 1 have come
      and gone since; the others are still to come. */
  predicate Holding(s: Probe, j: nat) {
    && 1 <= j <= |s.pcs| && 2 * |s.pcs| < WIDTH && 0 < s.spin
    && s.started == j && s.finished == j - 1
    && s.pcs[0].HalfRead? && s.pcs[0].started == 1
    && (forall i :: 1 <= i < j ==> s.pcs[i].Gone?)
    && (forall i :: j <= i < |s.pcs| ==> s.pcs[i].Waiting?)
  }

  /** Group `j` comes, reads until its loop ends, and goes. */
  lemma Visits(s: Probe, j: nat) returns (moves: seq<Move>)
    requires Holding(s, j) && j < |s.pcs|
    ensures Holding(Run(s, moves), j + 1) && |Run(s, moves).pcs| == |s.pcs|
  {
    hide Total, Minus, Max;
    var u := Apply(Apply(s, Arrive(j)), CountIn(j));
    RunTwo(s, Arrive(j), CountIn(j));
    assert u.started == j + 1 && u.finished == j - 1;
    var loop := Reads(u, j);
    var v := Run(u, loop);
    RunTwo(v, Publish(j), CountOut(j));
    assert Holding(Apply(Apply(v, Publish(j)), CountOut(j)), j + 1);
    moves := [Arrive(j), CountIn(j)] + loop + [Publish(j), CountOut(j)];
    RunAppend(s, [Arrive(j), CountIn(j)], loop);
    RunAppend(s, [Arrive(j), CountIn(j)] + loop, [Publish(j), CountOut(j)]);
  }

  /** Everybody else comes and goes. */
  lemma {:induction false} AllVisit(s: Probe, j: nat) returns (moves: seq<Move>)
    requires Holding(s, j)
    ensures |Run(s, moves).pcs| == |s.pcs| && Holding(Run(s, moves), |s.pcs|)
    decreases |s.pcs| - j
  {
    hide Holding, Run;
    if j == |s.pcs| {
      moves := [];
      RunNothing(s);
    } else {
      HoldingBelow(s, j);
      var first := Visits(s, j);
      var rest := AllVisit(Run(s, first), j + 1);
      moves := first + rest;
      RunAppend(s, first, rest);
    }
  }

  lemma RunNothing(s: Probe)
    ensures Run(s, []) == s
  {
  }

  lemma HoldingBelow(s: Probe, j: nat)
    requires Holding(s, j)
    ensures j <= |s.pcs|
  {
  }

  lemma Opening(groups: nat, spin: nat) returns (moves: seq<Move>)
    requires 0 < groups && 2 * groups < WIDTH && 0 < spin
    ensures |Run(Launched(groups, spin), moves).pcs| == groups && Holding(Run(Launched(groups, spin), moves), 1)
  {
    hide Total, Max;
    var s := Launched(groups, spin);
    RunTwo(s, Arrive(0), CountIn(0));
    var u := Apply(Apply(s, Arrive(0)), CountIn(0));
    assert Enabled(u, ReadStarted(0)) && Holding(Apply(u, ReadStarted(0)), 1);
    moves := [Arrive(0), CountIn(0)] + [ReadStarted(0)];
    RunAppend(s, [Arrive(0), CountIn(0)], [ReadStarted(0)]);
    assert [ReadStarted(0)][1..] == [];
    RunNothing(Apply(u, ReadStarted(0)));
  }

  /** Group 0 reads `finished` at last, and goes. */
  lemma Closing(s: Probe) returns (moves: seq<Move>)
    requires Holding(s, |s.pcs|) && 3 <= |s.pcs|
    ensures var t := Run(s, moves); |t.pcs| == |s.pcs| && AllGone(t) && t.wrapped
  {
    hide Total, Minus, Max;
    var u := Apply(s, ReadFinished(0));
    assert u.pcs[0].Leaving? && u.wrapped;
    RunTwo(s, ReadFinished(0), Publish(0));
    var v := Apply(u, Publish(0));
    moves := [ReadFinished(0), Publish(0)] + [CountOut(0)];
    RunAppend(s, [ReadFinished(0), Publish(0)], [CountOut(0)]);
    assert [CountOut(0)][1..] == [];
    RunNothing(Apply(v, CountOut(0)));
  }

  /** Every group counted in and out, as the host checks, and an answer beyond
      the whole launch. */
  ghost predicate Overshoots(groups: nat, spin: nat, moves: seq<Move>) {
    var s := Run(Launched(groups, spin), moves);
    AllGone(s) && s.started == s.finished == groups < s.most
  }

  lemma {:induction false} GoneCounts(pcs: seq<Pc>)
    requires forall i :: 0 <= i < |pcs| ==> pcs[i].Gone?
    ensures Total(In, pcs) == Total(Out, pcs) == |pcs|
  {
    if pcs != [] {
      GoneCounts(pcs[..|pcs| - 1]);
    }
  }

  lemma WrappedOvershoots(groups: nat, spin: nat, moves: seq<Move>)
    requires 2 * groups < WIDTH
    ensures var s := Run(Launched(groups, spin), moves); AllGone(s) ==> (Overshoots(groups, spin, moves) <==> s.wrapped)
    ensures Run(Launched(groups, spin), moves).wrapped ==> 3 <= groups && 0 < spin
  {
    NobodyYet(groups);
    RunKeeps(Launched(groups, spin), moves);
    AnswerIsHonest(groups, spin, moves);
    var s := Run(Launched(groups, spin), moves);
    hide Run, Minus;
    if AllGone(s) {
      GoneCounts(s.pcs);
    }
  }

  /** Reads can cross, with the answer beyond the launch, exactly if there are
      three groups or more and they read at all: the first reads `started`
      alone and `finished` when all the others, each after as many reads as its
      loop takes, have come and gone. */
  lemma ReadsCross(groups: nat, spin: nat)
    requires 2 * groups < WIDTH
    ensures (exists moves: seq<Move> :: Overshoots(groups, spin, moves)) <==> 3 <= groups && 0 < spin
  {
    hide Overshoots, AllGone, Holding, Run;
    if 3 <= groups && 0 < spin {
      var first := Opening(groups, spin);
      var second := AllVisit(Run(Launched(groups, spin), first), 1);
      var third := Closing(Run(Run(Launched(groups, spin), first), second));
      RunAppend(Launched(groups, spin), first, second);
      RunAppend(Launched(groups, spin), first + second, third);
      WrappedOvershoots(groups, spin, first + second + third);
    }
    forall moves: seq<Move> | Overshoots(groups, spin, moves) ensures 3 <= groups && 0 < spin {
      OvershootWrapped(groups, spin, moves);
    }
  }

  lemma OvershootWrapped(groups: nat, spin: nat, moves: seq<Move>)
    requires 2 * groups < WIDTH && Overshoots(groups, spin, moves)
    ensures 3 <= groups && 0 < spin
  {
    hide Run;
    WrappedOvershoots(groups, spin, moves);
  }

  /** Groups of the probe as the host launches it. */
  function ProbeGroups(units: nat, lanes: nat, local: nat): nat
    requires 0 < local
  {
    Geometry.RoundUp((if units != 0 then units else 1) * Geometry.PER_CU, Geometry.Max(local, lanes)) / local
  }

  /** Every group size up to a third of 8192 gives launches whose reads can
      cross; those the tuner tries give sixteen groups or more. */
  lemma ProbesCanCross(units: nat, lanes: nat, local: nat, spin: nat)
    requires 0 < local && 0 < spin && 2 * ProbeGroups(units, lanes, local) < WIDTH
    ensures local <= Geometry.MAX_LOCAL ==> 16 <= ProbeGroups(units, lanes, local)
    ensures 3 * local <= Geometry.PER_CU ==>
      exists moves: seq<Move> :: Overshoots(ProbeGroups(units, lanes, local), spin, moves)
  {
    var work := (if units != 0 then units else 1) * Geometry.PER_CU;
    Geometry.RoundsUp(work, Geometry.Max(local, lanes));
    ManyGroups(Geometry.RoundUp(work, Geometry.Max(local, lanes)), local);
    hide Geometry.RoundUp, Overshoots;
    ReadsCross(ProbeGroups(units, lanes, local), spin);
  }

  lemma ManyGroups(work: nat, local: nat)
    requires 8192 <= work && 0 < local
    ensures local <= 512 ==> 16 <= work / local
    ensures 3 * local <= 8192 ==> 3 <= work / local
  {
    Rebuild(work, local);
    var q := work / local;
    assert local <= 512 && q <= 15 ==> q * local <= 15 * 512;
    assert q <= 2 ==> q * local <= 2 * local;
  }
}
