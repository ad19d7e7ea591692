/**
 Launch geometry: which work-group sizes and grids the tuner may try, what it
 can end up with whatever the device measures, and the smaller choices of a
 repeat count and a chunk count.
 */
module Geometry {
  import opened Arithmetic
  import opened Slices
  import opened Sweeps

  const MIN_LOCAL: nat := 64
  const MAX_LOCAL: nat := 512
  const FLOOR_LOCAL: nat := 8
  const PER_CU: nat := 8192

  /** What the tuner knows of the corpus slice, the device and the kernel. A
      limit of zero means the device did not say. */
  datatype Context = Context(groups: nat, lanes: nat, computeUnits: nat, maxWorkGroup: nat, kernelMax: nat,
                             localMem: nat, digestBytes: nat)

  function Max(x: nat, y: nat): nat {
    if x > y then x else y
  }

  function RoundUp(x: nat, unit: nat): (r: nat)
    requires 0 < unit
  {
    (x + unit - 1) / unit * unit
  }

  lemma RoundsUp(x: nat, unit: nat)
    requires 0 < unit
    ensures x <= RoundUp(x, unit) < x + unit && RoundUp(x, unit) % unit == 0
  {
    Rebuild(x + unit - 1, unit);
    Quotient(unit, (x + unit - 1) / unit, 0);
  }

  /** Hard ceiling on work-items; it sizes the partial buffers. */
  function MaxGlobal(c: Context): nat {
    RoundUp(Max(c.groups * c.lanes, c.computeUnits * PER_CU), Max(MAX_LOCAL, c.lanes))
  }

  function Ceiling(c: Context): nat {
    var allowed := if c.maxWorkGroup != 0 then c.maxWorkGroup else MAX_LOCAL;
    if 0 < c.kernelMax < allowed then c.kernelMax else allowed
  }

  /** A group size is within the ceiling exactly if the device and the kernel both
      allow it; a device that does not say allows 512. */
  lemma CeilingIsBoth(c: Context, local: nat)
    ensures local <= Ceiling(c) <==>
      && local <= (if c.maxWorkGroup == 0 then 512 else c.maxWorkGroup)
      && (c.kernelMax == 0 || local <= c.kernelMax)
  {
  }

  function Unit(c: Context, local: nat): nat {
    Max(local, c.lanes)
  }

  predicate ScratchFits(c: Context, local: nat) {
    c.localMem == 0 || local * c.digestBytes <= c.localMem
  }

  /** geometry_ok: a launch the scratch and the stride arithmetic both serve. */
  predicate Ok(c: Context, global: nat, local: nat) {
    && PowerOfTwo(local) && 0 < global && global % local == 0
    && 0 < c.lanes && Unit(c, local) % local == 0 && Unit(c, local) % c.lanes == 0 && global % c.lanes == 0
    && ScratchFits(c, local)
  }

  /** The smallest group size to try. */
  function FloorOf(c: Context): nat {
    if MIN_LOCAL <= Ceiling(c) then MIN_LOCAL
    else if 32 <= Ceiling(c) then 32
    else if 16 <= Ceiling(c) then 16
    else FLOOR_LOCAL
  }

  /** local_bounds. */
  method FloorLocal(c: Context) returns (floor: nat)
    ensures floor == FloorOf(c) && PowerOfTwo(floor)
  {
    floor := MIN_LOCAL;
    assert PowerOfTwo(1) && PowerOfTwo(2) && PowerOfTwo(4) && PowerOfTwo(8) && PowerOfTwo(16) && PowerOfTwo(32);
    while floor > FLOOR_LOCAL && floor > Ceiling(c)
      invariant floor in {8, 16, 32, 64} && (floor < MIN_LOCAL ==> Ceiling(c) < 2 * floor)
    {
      floor := floor / 2;
    }
  }

  /** The largest of 64, 32, 16 and 8 that the device allows, and 8 if it allows
      none. */
  lemma FloorIsLargest(c: Context, local: nat)
    requires local in {8, 16, 32, 64}
    ensures FloorOf(c) in {8, 16, 32, 64} && (FloorOf(c) <= Ceiling(c) || FloorOf(c) == 8)
    ensures local <= Ceiling(c) ==> local <= FloorOf(c)
  {
    hide Ceiling;
  }

  /** Waves a launch runs in, on a device that holds `capacity` work-items. */
  function Waves(global: nat, groups: nat, lanes: nat, capacity: nat): nat {
    var busy := if global < groups * lanes then global else groups * lanes;
    if capacity == 0 then 0 else (busy + capacity - 1) / capacity
  }

  /** The waves of a launch are the fewest its busy work-items fit in; in one if
      the grid or the corpus does. */
  lemma WavesFit(global: nat, groups: nat, lanes: nat, capacity: nat, w: nat)
    requires 0 < capacity
    ensures Waves(global, groups, lanes, capacity) <= w <==>
      (global <= w * capacity || groups * lanes <= w * capacity)
  {
    var busy := if global < groups * lanes then global else groups * lanes;
    if busy <= w * capacity {
      assert (w + 1) * capacity == w * capacity + capacity;
      QuotientBelow(busy + capacity - 1, capacity, w + 1);
    } else {
      Rebuild(busy + capacity - 1, capacity);
      var q := (busy + capacity - 1) / capacity;
      if q <= w {
        ProductGrows(q, w, capacity, capacity);
      }
    }
  }

  // ---- the tuner --------------------------------------------------------------

  /** The largest grid tried at a group size, for what was measured to fit. */
  function Top(c: Context, unit: nat, held: nat): nat
    requires 0 < unit
  {
    var fit := if held / unit * unit < unit then unit else held / unit * unit;
    if held != 0 && fit < MaxGlobal(c) then fit else MaxGlobal(c)
  }

  /** A grid the tuner launches with groups of `local`. */
  predicate Launchable(c: Context, floor: nat, held: nat, global: nat, local: nat) {
    && PowerOfTwo(local) && floor <= local <= Ceiling(c) && local <= MAX_LOCAL && ScratchFits(c, local)
    && 0 < c.lanes && Unit(c, local) % local == 0 && Unit(c, local) % c.lanes == 0
    && 0 < global <= MaxGlobal(c) && global % local == 0
    && (global % c.lanes == 0 || global == MaxGlobal(c))
    && (Unit(c, local) <= held ==> global <= held)
  }

  lemma Doubled(a: nat, b: nat)
    requires 0 < a && b % a == 0
    ensures (2 * b) % (2 * a) == 0
  {
    Rebuild(b, a);
    assert 2 * b == b / a * (2 * a);
    Quotient(2 * a, b / a, 0);
  }

  lemma Halves(a: nat)
    requires PowerOfTwo(a) && 1 < a
    ensures PowerOfTwo(a / 2) && 0 < a / 2 && a == 2 * (a / 2)
  {
  }

  /** A power of two divides every larger one. */
  lemma {:induction false} PowersDivide(a: nat, b: nat)
    requires PowerOfTwo(a) && PowerOfTwo(b) && a <= b
    ensures b % a == 0
  {
    assert 0 < a;
    hide PowerOfTwo;
    if a == b {
      Quotient(a, 1, 0);
    } else if a == 1 {
      Quotient(1, b, 0);
    } else {
      Halves(a);
      Halves(b);
      PowersDivide(a / 2, b / 2);
      Doubled(a / 2, b / 2);
    }
  }

  lemma DividesChain(x: nat, m: nat, k: nat)
    requires 0 < k && 0 < m && x % m == 0 && m % k == 0
    ensures x % k == 0
  {
    Rebuild(x, m);
    Rebuild(m, k);
    assert x == x / m * (m / k) * k;
    Quotient(k, x / m * (m / k), 0);
  }

  /** The cap divides by every group size the tuner tries. */
  lemma CapDivides(c: Context, local: nat)
    requires PowerOfTwo(local) && local <= MAX_LOCAL && 0 < c.lanes && Unit(c, local) % local == 0
    ensures MaxGlobal(c) % local == 0
  {
    var big := Max(MAX_LOCAL, c.lanes);
    assert PowerOfTwo(1) && PowerOfTwo(2) && PowerOfTwo(4) && PowerOfTwo(8) && PowerOfTwo(16) && PowerOfTwo(32);
    assert PowerOfTwo(64) && PowerOfTwo(128) && PowerOfTwo(256) && PowerOfTwo(512);
    RoundsUp(Max(c.groups * c.lanes, c.computeUnits * PER_CU), big);
    if c.lanes <= MAX_LOCAL {
      PowersDivide(local, MAX_LOCAL);
    }
    DividesChain(MaxGlobal(c), big, local);
  }

  /** The whole units in what fits. */
  lemma WholeUnits(held: nat, unit: nat)
    requires 0 < unit
    ensures held / unit * unit <= held && held / unit * unit % unit == 0
    ensures unit <= held ==> unit <= held / unit * unit
  {
    Rebuild(held, unit);
    Quotient(unit, held / unit, 0);
    if unit <= held {
      assert held / unit * unit > 0;
      PositiveFactors(held / unit, unit);
      assert held / unit * unit == unit + (held / unit - 1) * unit;
    }
  }

  /** A grid of whole units within the top is launchable. */
  lemma UnitsLaunchable(c: Context, floor: nat, held: nat, global: nat, local: nat)
    requires PowerOfTwo(local) && floor <= local <= Ceiling(c) && local <= MAX_LOCAL && ScratchFits(c, local)
    requires 0 < c.lanes && Unit(c, local) % local == 0 && Unit(c, local) % c.lanes == 0
    requires global % Unit(c, local) == 0 || global == MaxGlobal(c)
    requires 0 < global <= Top(c, Unit(c, local), held)
    ensures Launchable(c, floor, held, global, local)
  {
    var unit := Unit(c, local);
    CapDivides(c, local);
    WholeUnits(held, unit);
    if global % unit == 0 {
      DividesChain(global, unit, local);
      DividesChain(global, unit, c.lanes);
    }
    hide PowerOfTwo, RoundUp, Ceiling;
  }

  /** The top itself is whole units, or the cap. */
  lemma TopIsWhole(c: Context, unit: nat, held: nat)
    requires 0 < unit
    ensures Top(c, unit, held) % unit == 0 || Top(c, unit, held) == MaxGlobal(c)
    ensures 0 < MaxGlobal(c) ==> 0 < Top(c, unit, held)
  {
    WholeUnits(held, unit);
    Quotient(unit, 1, 0);
    hide RoundUp;
  }

  /** Launching within the cap never needs more partials than are allocated. */
  lemma PartialsFit(global: nat, local: nat, cap: nat, floor: nat)
    requires 0 < floor <= local && global <= cap
    ensures global / local <= cap / floor
  {
    Rebuild(global, local);
    Rebuild(cap, floor);
    var q, p := global / local, cap / floor;
    assert (p + 1) * floor == p * floor + floor;
    if p < q {
      ProductGrows(p + 1, q, floor, local);
    }
  }

  /** What is promised of every launch the tuner makes, and of its choice. */
  predicate Sound(c: Context, held: nat, global: nat, local: nat) {
    && Launchable(c, FloorOf(c), held, global, local)
    && global / local <= MaxGlobal(c) / FloorOf(c)
    && (Unit(c, local) <= held ==> Waves(global, c.groups, c.lanes, held) <= 1)
  }

  /** A sound launch is whole groups, of a size the device and the kernel allow and
      the local memory has scratch for, and all resident at once if a unit is. */
  lemma SoundServes(c: Context, held: nat, global: nat, local: nat)
    requires Sound(c, held, global, local)
    ensures 8 <= local <= 512 && PowerOfTwo(local) && 0 < global && global % local == 0
    ensures local <= (if c.maxWorkGroup == 0 then 512 else c.maxWorkGroup) && (c.kernelMax == 0 || local <= c.kernelMax)
    ensures c.localMem == 0 || local * c.digestBytes <= c.localMem
    ensures local <= held && c.lanes <= held ==> global <= held
  {
    CeilingIsBoth(c, local);
    hide Ceiling, Waves, MaxGlobal;
  }

  lemma LaunchableSound(c: Context, held: nat, global: nat, local: nat)
    requires Launchable(c, FloorOf(c), held, global, local)
    ensures Sound(c, held, global, local)
  {
    PartialsFit(global, local, MaxGlobal(c), FloorOf(c));
    if Unit(c, local) <= held {
      WavesFit(global, c.groups, c.lanes, held, 1);
    }
    hide PowerOfTwo, MaxGlobal, Waves;
  }

  /** The grid tried at one multiple: whole units, at most the top. */
  function Candidate(c: Context, local: nat, mult: nat, held: nat): nat
    requires 0 < Unit(c, local)
  {
    var global := RoundUp(local * mult * c.computeUnits, Unit(c, local));
    if global >= Top(c, Unit(c, local), held) then Top(c, Unit(c, local), held) else global
  }

  lemma CandidateGrows(c: Context, local: nat, mult: nat)
    requires 0 < local && 0 < mult && 0 < c.computeUnits
    ensures mult <= RoundUp(local * mult * c.computeUnits, Unit(c, local))
  {
    RoundsUp(local * mult * c.computeUnits, Unit(c, local));
    ProductGrows(1, local, mult, mult);
    ProductGrows(local * mult, local * mult, 1, c.computeUnits);
  }

  lemma CandidateWhole(c: Context, local: nat, mult: nat, held: nat)
    requires 0 < local && 0 < mult && 0 < c.computeUnits
    ensures var g, unit := Candidate(c, local, mult, held), Unit(c, local);
      0 < g <= Top(c, unit, held) && (g % unit == 0 || g == MaxGlobal(c))
        && (g != Top(c, unit, held) ==> mult < Top(c, unit, held))
  {
    hide Top, MaxGlobal;
    CandidateGrows(c, local, mult);
    RoundsUp(local * mult * c.computeUnits, Unit(c, local));
    hide RoundUp;
    CapPositive(c);
    TopIsWhole(c, Unit(c, local), held);
  }

  lemma CandidateSound(c: Context, local: nat, mult: nat, held: nat)
    requires PowerOfTwo(local) && FloorOf(c) <= local <= Ceiling(c) && local <= MAX_LOCAL && ScratchFits(c, local)
    requires 0 < c.lanes && Unit(c, local) % local == 0 && Unit(c, local) % c.lanes == 0
    requires 0 < mult && 0 < c.computeUnits
    ensures Sound(c, held, Candidate(c, local, mult, held), local)
    ensures Candidate(c, local, mult, held) != Top(c, Unit(c, local), held) ==> mult < Top(c, Unit(c, local), held)
  {
    assert 0 < local;
    hide PowerOfTwo, Ceiling, FloorOf, ScratchFits, Sound, Launchable, Top, Candidate, MaxGlobal, RoundUp;
    CandidateWhole(c, local, mult, held);
    UnitsLaunchable(c, FloorOf(c), held, Candidate(c, local, mult, held), local);
    LaunchableSound(c, held, Candidate(c, local, mult, held), local);
  }

  lemma CapPositive(c: Context)
    requires 0 < c.computeUnits
    ensures 0 < MaxGlobal(c)
  {
    RoundsUp(Max(c.groups * c.lanes, c.computeUnits * PER_CU), Max(MAX_LOCAL, c.lanes));
  }

  /** The cap covers every message and 8192 work-items a compute unit, with less
      than a unit to spare. */
  lemma CapIsLarge(c: Context)
    ensures c.groups * c.lanes <= MaxGlobal(c) && 8192 * c.computeUnits <= MaxGlobal(c)
    ensures MaxGlobal(c) < c.groups * c.lanes + Max(512, c.lanes)
      || MaxGlobal(c) < 8192 * c.computeUnits + Max(512, c.lanes)
  {
    RoundsUp(Max(c.groups * c.lanes, c.computeUnits * PER_CU), Max(MAX_LOCAL, c.lanes));
    hide RoundUp;
  }

  /** The top is the whole units in what the device is measured to hold, or one
      if that is none, within the cap; the cap if it was not measured. */
  lemma TopIsHeld(c: Context, unit: nat, held: nat)
    requires 0 < unit
    ensures Top(c, unit, held) <= MaxGlobal(c) && (held == 0 ==> Top(c, unit, held) == MaxGlobal(c))
    ensures 0 < held && Top(c, unit, held) < MaxGlobal(c) ==>
      Top(c, unit, held) % unit == 0 && Top(c, unit, held) <= Max(held, unit) && held < Top(c, unit, held) + unit
    ensures 0 < held && Top(c, unit, held) == MaxGlobal(c) ==> MaxGlobal(c) <= Max(held, unit)
  {
    WholeUnits(held, unit);
    Rebuild(held, unit);
    Quotient(unit, 1, 0);
    hide MaxGlobal;
  }

  /** A grid below the top is the next whole units at or above its multiple. */
  lemma GridIsNext(c: Context, local: nat, mult: nat, held: nat)
    requires 0 < local
    ensures var unit, g, at := Unit(c, local), Candidate(c, local, mult, held), local * mult * c.computeUnits;
      var top := Top(c, unit, held);
      if g < top then g % unit == 0 && at <= g < at + unit else g == top < at + unit
  {
    RoundsUp(local * mult * c.computeUnits, Unit(c, local));
    hide RoundUp, Top;
  }

  // ---- what the search is to find ---------------------------------------------

  /** What comes of timing a launch: it fails, or takes this long twice. */
  datatype Timing = Failed | Took(t0: nat, t1: nat)

  /** The device as the tuner meets it: how many work-items it is measured to hold
      at each group size, and what comes of the k-th grid at each. */
  datatype Trial = Trial(held: nat -> nat, run: (nat, nat) -> Timing)

  function Rate(c: Context, t: Timing): real {
    if t.Failed? || t.t0 == 0 || t.t1 == 0 then 0.0
    else c.groups as real / (if t.t0 < t.t1 then t.t0 else t.t1) as real
  }

  /** A launch counts by its faster run: what it hashes in that time, and no less
      than in the other. */
  lemma RateIsFaster(c: Context, t0: nat, t1: nat)
    requires 0 < t0 && 0 < t1
    ensures var r := Rate(c, Took(t0, t1));
      && c.groups as real <= r * t0 as real && c.groups as real <= r * t1 as real
      && (r * t0 as real == c.groups as real || r * t1 as real == c.groups as real)
  {
    var r, least := Rate(c, Took(t0, t1)), if t0 < t1 then t0 else t1;
    assert r * least as real == c.groups as real;
    RealGrows(r, least as real, t0 as real);
    RealGrows(r, least as real, t1 as real);
  }

  lemma RealGrows(r: real, x: real, y: real)
    requires 0.0 <= r && x <= y
    ensures r * x <= r * y
  {
  }

  function Power4(k: nat): (n: nat)
    ensures 0 < n
  {
    if k == 0 then 1 else 4 * Power4(k - 1)
  }

  /** The multiples double twice from one grid to the next. */
  lemma {:induction false} Power4Is(k: nat)
    ensures Power4(k) == Doublings(2 * k)
  {
    if k > 0 {
      Power4Is(k - 1);
      assert Doublings(2 * k) == 2 * (2 * Doublings(2 * (k - 1)));
    }
  }

  function Doublings(k: nat): nat {
    if k == 0 then 1 else 2 * Doublings(k - 1)
  }

  /** The k-th grid at a group size. */
  function Grid(c: Context, d: Trial, local: nat, k: nat): nat
    requires 0 < local
  {
    Candidate(c, local, Power4(k), d.held(local))
  }

  /** Group sizes the search looks at. */
  predicate Eligible(c: Context, local: nat) {
    && PowerOfTwo(local) && FloorOf(c) <= local <= Ceiling(c) && local <= MAX_LOCAL && ScratchFits(c, local)
    && 0 < c.lanes && Unit(c, local) % local == 0 && Unit(c, local) % c.lanes == 0
  }

  /** The k-th grid is tried: all before it ran, and none of them was the last. */
  ghost predicate Reached(c: Context, d: Trial, local: nat, k: nat)
    requires 0 < local
  {
    forall j: nat :: j < k ==>
      d.run(local, j).Took? && Grid(c, d, local, j) != Top(c, Unit(c, local), d.held(local))
  }

  /** It is tried, and runs. */
  ghost predicate Ran(c: Context, d: Trial, local: nat, k: nat) {
    Eligible(c, local) && 0 < local && Reached(c, d, local, k) && d.run(local, k).Took?
  }

  datatype Choice = Choice(rate: real, global: nat, local: nat, held: nat)

  ghost predicate Chosen(c: Context, d: Trial, b: Choice, local: nat, k: nat) {
    Ran(c, d, local, k) && b == Choice(Rate(c, d.run(local, k)), Grid(c, d, local, k), local, d.held(local))
  }

  /** Earlier in the search than the k-th grid at `at`. */
  predicate Earlier(local: nat, j: nat, at: nat, k: nat) {
    local < at || (local == at && j < k)
  }

  /** `b` is the fastest of the launches that ran before this point, if any did. */
  ghost predicate Best(c: Context, d: Trial, b: Choice, at: nat, k: nat) {
    && (forall local: nat, j: nat ::
         Ran(c, d, local, j) && Earlier(local, j, at, k) ==> Rate(c, d.run(local, j)) <= b.rate)
    && (b == Choice(-1.0, 0, 0, 0) || exists local: nat, j: nat :: Chosen(c, d, b, local, j))
  }

  lemma NoneYet(c: Context, d: Trial)
    ensures Best(c, d, Choice(-1.0, 0, 0, 0), FloorOf(c), 0)
  {
    forall local: nat, j: nat ensures !(Ran(c, d, local, j) && Earlier(local, j, FloorOf(c), 0)) {
      assert Ran(c, d, local, j) ==> Eligible(c, local);
    }
  }

  /** The k-th grid ran. */
  lemma BestRan(c: Context, d: Trial, b: Choice, local: nat, k: nat)
    requires Best(c, d, b, local, k) && Ran(c, d, local, k)
    ensures var r := Rate(c, d.run(local, k));
      Best(c, d, if r > b.rate then Choice(r, Grid(c, d, local, k), local, d.held(local)) else b, local, k + 1)
  {
    hide Eligible, Reached, Rate, Grid;
    var r := Rate(c, d.run(local, k));
    var n := if r > b.rate then Choice(r, Grid(c, d, local, k), local, d.held(local)) else b;
    if r > b.rate {
      assert Chosen(c, d, n, local, k);
    }
  }

  /** Nothing more at this group size, and none between it and twice as much. */
  lemma BestOn(c: Context, d: Trial, b: Choice, local: nat, k: nat)
    requires Best(c, d, b, local, k) && PowerOfTwo(local) && forall j: nat :: k <= j ==> !Ran(c, d, local, j)
    ensures Best(c, d, b, 2 * local, 0)
  {
    hide Reached, Rate, Grid, Chosen;
    forall l: nat, j: nat | Ran(c, d, l, j) && Earlier(l, j, 2 * local, 0) ensures Earlier(l, j, local, k) {
      if local < l {
        assert PowerOfTwo(l);
        PowersApart(local, l);
      }
    }
  }

  lemma PowersApart(a: nat, b: nat)
    requires PowerOfTwo(a) && PowerOfTwo(b) && a < b
    ensures 2 * a <= b
  {
    PowersDivide(a, b);
    assert 0 < a;
    hide PowerOfTwo;
    Rebuild(b, a);
    var q := b / a;
    assert q <= 1 ==> q * a <= a;
    ProductGrows(2, if 2 <= q then q else 2, a, a);
  }

  /** Where a search that has come this far need look no further. */
  ghost predicate Exhausted(c: Context, local: nat) {
    forall l: nat :: local <= l ==> !Eligible(c, l)
  }

  lemma TooLarge(c: Context, local: nat)
    requires local > Ceiling(c) || !ScratchFits(c, local) || local > MAX_LOCAL
    ensures Exhausted(c, local)
  {
    hide PowerOfTwo, Ceiling, FloorOf;
    forall l: nat | local <= l ensures !Eligible(c, l) {
      ProductGrows(local, l, c.digestBytes, c.digestBytes);
    }
  }

  /** A launch that failed, or that was of the last grid, ends its group size. */
  lemma RunEnds(c: Context, d: Trial, local: nat, k: nat, next: nat)
    requires 0 < local
    requires (next == k && d.run(local, k).Failed?)
      || (next == k + 1 && Grid(c, d, local, k) == Top(c, Unit(c, local), d.held(local)))
    ensures forall j: nat :: next <= j ==> !Ran(c, d, local, j)
  {
    hide Grid, Top, Eligible;
  }

  /** Try ever larger grids at one group size, until one fails or is the last. */
  method TryGrids(c: Context, d: Trial, local: nat, best: Choice) returns (b: Choice)
    requires Eligible(c, local) && 0 < local && 0 < c.computeUnits && Best(c, d, best, local, 0)
    ensures Best(c, d, b, 2 * local, 0)
  {
    hide Top, Candidate, Best, Rate, Eligible, Grid, Reached, Ran;
    b := best;
    var held := d.held(local);
    var unit, mult := Max(local, c.lanes), 1;
    var top: int := Top(c, unit, held);
    ghost var k := 0;
    NoneBefore(c, d, local);
    assert PowerOfTwo(local) by { EligiblePower(c, local); }
    while true
      invariant mult == Power4(k) && Best(c, d, b, local, k) && Reached(c, d, local, k)
      decreases top - mult
    {
      EligibleSound(c, local, mult, held);
      var global := Candidate(c, local, mult, held);
      assert global == Grid(c, d, local, k) by { GridIs(c, d, local, k); }
      var timing := d.run(local, Log4(mult));
      LogPower(k);
      if timing.Failed? {
        RunEnds(c, d, local, k, k);
        BestOn(c, d, b, local, k);
        break;
      }
      RanNow(c, d, local, k);
      BestRan(c, d, b, local, k);
      var rate := Rate(c, timing);
      if rate > b.rate {
        b := Choice(rate, global, local, held);
      }
      if global == top {
        RunEnds(c, d, local, k, k + 1);
        BestOn(c, d, b, local, k + 1);
        break;
      }
      ReachedNext(c, d, local, k);
      mult := mult * 4;
      k := k + 1;
    }
  }

  /** Which grid a multiple is of: its power of four. */
  function Log4(mult: nat): nat {
    if mult < 4 then 0 else 1 + Log4(mult / 4)
  }

  lemma {:induction false} LogPower(k: nat)
    ensures Log4(Power4(k)) == k
  {
    if k > 0 {
      LogPower(k - 1);
    }
  }

  lemma GridIs(c: Context, d: Trial, local: nat, k: nat)
    requires 0 < local
    ensures Grid(c, d, local, k) == Candidate(c, local, Power4(k), d.held(local))
  {
  }

  lemma EligiblePower(c: Context, local: nat)
    requires Eligible(c, local)
    ensures PowerOfTwo(local)
  {
  }

  lemma EligibleSound(c: Context, local: nat, mult: nat, held: nat)
    requires Eligible(c, local) && 0 < mult && 0 < c.computeUnits && 0 < local
    ensures Sound(c, held, Candidate(c, local, mult, held), local) && 0 < Candidate(c, local, mult, held)
    ensures Candidate(c, local, mult, held) != Top(c, Unit(c, local), held) ==> mult < Top(c, Unit(c, local), held)
  {
    CandidateSound(c, local, mult, held);
    hide Top, Candidate, Launchable, ScratchFits, FloorOf, Ceiling, MaxGlobal;
    LaunchableHasWork(c, held, Candidate(c, local, mult, held), local);
  }

  lemma LaunchableHasWork(c: Context, held: nat, global: nat, local: nat)
    requires Sound(c, held, global, local)
    ensures 0 < global
  {
  }

  lemma NoneBefore(c: Context, d: Trial, local: nat)
    requires 0 < local
    ensures Reached(c, d, local, 0)
  {
  }

  lemma RanNow(c: Context, d: Trial, local: nat, k: nat)
    requires Eligible(c, local) && 0 < local && Reached(c, d, local, k) && d.run(local, k).Took?
    ensures Ran(c, d, local, k)
  {
  }

  lemma ReachedNext(c: Context, d: Trial, local: nat, k: nat)
    requires 0 < local && Reached(c, d, local, k) && d.run(local, k).Took?
    requires Grid(c, d, local, k) != Top(c, Unit(c, local), d.held(local))
    ensures Reached(c, d, local, k + 1)
  {
    hide Grid, Top;
  }

  // ---- whole lanes --------------------------------------------------------------

  /** Lanes of every device kernel. */
  const DEVICE_LANES: nat := 64

  lemma CapWhole(c: Context)
    requires 0 < c.lanes && Max(MAX_LOCAL, c.lanes) % c.lanes == 0
    ensures MaxGlobal(c) % c.lanes == 0
  {
    RoundsUp(Max(c.groups * c.lanes, c.computeUnits * PER_CU), Max(MAX_LOCAL, c.lanes));
    DividesChain(MaxGlobal(c), Max(MAX_LOCAL, c.lanes), c.lanes);
  }

  /** A corpus and a device of one unit whose cap is 8192 work-items, or 8704. */
  function Crooked(lanes: nat): Context
    requires 0 < lanes
  {
    Context(if 8192 % lanes != 0 then 1 else 8192 / lanes + 1, lanes, 1, 0, 0, 0, 0)
  }

  lemma CrookedCap(lanes: nat)
    requires 0 < lanes < MAX_LOCAL && MAX_LOCAL % lanes != 0
    ensures MaxGlobal(Crooked(lanes)) % lanes != 0
  {
    Rebuild(8192, lanes);
    if 8192 % lanes != 0 {
      assert MaxGlobal(Crooked(lanes)) == RoundUp(8192, 512) == 8192;
    } else {
      var q := 8192 / lanes;
      assert (q + 1) * lanes == 8192 + lanes;
      assert MaxGlobal(Crooked(lanes)) == RoundUp(8192 + lanes, 512) == 8704;
      Rebuild(512, lanes);
      assert 8704 == (q + 512 / lanes) * lanes + 512 % lanes;
      Quotient(lanes, q + 512 / lanes, 512 % lanes);
    }
  }

  /** Which lane counts the cap serves: it is whole lanes for every corpus on
      every device with a unit exactly if the larger of 512 and the lanes is. */
  lemma CapOnLanes(lanes: nat)
    requires 0 < lanes
    ensures (forall c: Context :: c.lanes == lanes && 0 < c.computeUnits ==> MaxGlobal(c) % lanes == 0)
      <==> Max(MAX_LOCAL, lanes) % lanes == 0
  {
    hide MaxGlobal;
    if Max(MAX_LOCAL, lanes) % lanes == 0 {
      forall c: Context | c.lanes == lanes ensures MaxGlobal(c) % lanes == 0 {
        CapWhole(c);
      }
    } else {
      CrookedCap(lanes);
      assert Crooked(lanes).computeUnits == 1;
    }
  }

  /** A sound grid is then whole lanes, and passes the check a pinned one must. */
  lemma SoundIsOk(c: Context, held: nat, global: nat, local: nat)
    requires Sound(c, held, global, local) && Max(MAX_LOCAL, c.lanes) % c.lanes == 0
    ensures global % c.lanes == 0 && Ok(c, global, local)
  {
    CapWhole(c);
    hide Waves, RoundUp;
  }

  lemma TopZero(c: Context, unit: nat, held: nat)
    requires 0 < unit && 0 < c.lanes
    ensures Top(c, unit, held) == 0 <==> c.groups == 0 && c.computeUnits == 0
  {
    var work, big := Max(c.groups * c.lanes, c.computeUnits * PER_CU), Max(MAX_LOCAL, c.lanes);
    assert 0 < c.groups ==> 0 < c.groups * c.lanes;
    RoundsUp(work, big);
    if work == 0 {
      Divides(big - 1, big, 0, big - 1);
    }
    hide RoundUp;
  }

  /** Why the search wants a compute unit: without one every candidate is the
      empty grid, so unless the corpus is empty too none of them is the top and
      only a failed launch would end it. */
  lemma NoUnitsNoEnd(c: Context, local: nat, held: nat)
    requires c.computeUnits == 0 && 0 < local && 0 < c.lanes
    ensures forall mult: nat :: Candidate(c, local, mult, held) == 0
    ensures (forall mult: nat :: Candidate(c, local, mult, held) != Top(c, Unit(c, local), held)) <==> 0 < c.groups
  {
    TopZero(c, Unit(c, local), held);
    hide Top;
    forall mult: nat ensures Candidate(c, local, mult, held) == 0 {
      NoUnitsEmpty(c, local, mult);
    }
    assert Candidate(c, local, 0, held) == 0;
  }

  lemma NoUnitsEmpty(c: Context, local: nat, mult: nat)
    requires c.computeUnits == 0 && 0 < local
    ensures RoundUp(local * mult * c.computeUnits, Unit(c, local)) == 0
  {
    assert local * mult * 0 == 0;
    Divides(Unit(c, local) - 1, Unit(c, local), 0, Unit(c, local) - 1);
  }

  /** A choice that was made is of a sound launch that ran. */
  lemma ChosenIsSound(c: Context, d: Trial, b: Choice, local: nat, k: nat)
    requires Chosen(c, d, b, local, k) && 0 < c.computeUnits
    ensures Sound(c, b.held, b.global, b.local) && 0 < b.global
  {
    hide Sound, Candidate, Eligible, Reached;
    EligibleSound(c, local, Power4(k), d.held(local));
  }

  /** tune_geometry: whatever comes of each launch, the choice is one of those the
      search is to try that ran, the fastest of them, and sound; it fails exactly
      if none ran. With the lanes of the device kernels what it chooses is always
      whole lanes. */
  method Tune(c: Context, d: Trial) returns (ok: bool, b: Choice)
    requires 0 < c.lanes && 0 < c.computeUnits
    ensures ok <==> exists local: nat, k: nat :: Ran(c, d, local, k)
    ensures ok ==> exists local: nat, k: nat :: Chosen(c, d, b, local, k)
    ensures forall local: nat, k: nat :: Ran(c, d, local, k) ==> Rate(c, d.run(local, k)) <= b.rate
    ensures ok ==> Sound(c, b.held, b.global, b.local)
    ensures ok && c.lanes == DEVICE_LANES ==> b.global % DEVICE_LANES == 0 && Ok(c, b.global, b.local)
  {
    hide Sound, ScratchFits, Ok, Ran, Best, Chosen;
    b := Choice(-1.0, 0, 0, 0);
    NoneYet(c, d);
    var local := FloorLocal(c);
    while local <= MAX_LOCAL
      invariant PowerOfTwo(local) && FloorOf(c) <= local && 0 < local && Best(c, d, b, local, 0)
      decreases MAX_LOCAL - local
    {
      if local > Ceiling(c) || !ScratchFits(c, local) {
        break;
      }
      var unit := Max(local, c.lanes);
      if unit % local == 0 && unit % c.lanes == 0 {
        b := TryGrids(c, d, local, b);
      } else {
        NotEligible(c, d, b, local);
      }
      local := local * 2;
    }
    TooLarge(c, local);
    ok := b.global != 0;
    BestOfAll(c, d, b, local);
    if ok && c.lanes == DEVICE_LANES {
      SoundIsOk(c, b.held, b.global, b.local);
    }
  }

  lemma NotEligible(c: Context, d: Trial, b: Choice, local: nat)
    requires Best(c, d, b, local, 0) && PowerOfTwo(local) && !Eligible(c, local)
    ensures Best(c, d, b, 2 * local, 0)
  {
    hide Eligible;
    BestOn(c, d, b, local, 0);
  }

  lemma BestOfAll(c: Context, d: Trial, b: Choice, at: nat)
    requires Best(c, d, b, at, 0) && Exhausted(c, at) && 0 < c.computeUnits
    ensures forall local: nat, k: nat :: Ran(c, d, local, k) ==> Rate(c, d.run(local, k)) <= b.rate
    ensures b.global != 0 ==> Sound(c, b.held, b.global, b.local)
    ensures b.global != 0 ==> exists local: nat, k: nat :: Chosen(c, d, b, local, k)
    ensures b.global != 0 <==> exists local: nat, k: nat :: Ran(c, d, local, k)
  {
    hide Sound, Eligible, Reached, Grid;
    forall local: nat, k: nat | Ran(c, d, local, k) ensures Rate(c, d.run(local, k)) <= b.rate {
      assert Eligible(c, local);
    }
    if b != Choice(-1.0, 0, 0, 0) {
      var local, k :| Chosen(c, d, b, local, k);
      ChosenIsSound(c, d, b, local, k);
      assert Ran(c, d, local, k);
    } else if local, k :| Ran(c, d, local, k) {
      RateIsPositive(c, d.run(local, k));
    }
  }

  lemma RateIsPositive(c: Context, t: Timing)
    ensures 0.0 <= Rate(c, t)
  {
  }

  // ---- repeats and chunks -----------------------------------------------------

  const TARGET_LAUNCH_NS: nat := 20_000_000

  /** calibrate_repeats: however long one sweep took, an odd count. */
  method CalibrateRepeats(one: nat) returns (repeats: nat)
    ensures repeats % 2 == 1 && repeats <= 0xffff
    ensures 0 < one && 1 < repeats ==> (repeats - 1) * one <= TARGET_LAUNCH_NS
    ensures 0 < one && repeats < 0xffff ==> TARGET_LAUNCH_NS < (repeats + 1) * one
    ensures one == 0 ==> repeats == 1
  {
    repeats := 1;
    if 0 < one < TARGET_LAUNCH_NS {
      var want := TARGET_LAUNCH_NS / one;
      Rebuild(TARGET_LAUNCH_NS, one);
      ghost var most := want;
      if want < 1 {
        want := 1;
      }
      if want > 0xffff {
        want := 0xffff;
      }
      repeats := if want % 2 == 0 then want + 1 else want;
      if 1 < repeats {
        ProductGrows(repeats - 1, most, one, one);
      }
    }
  }

  const MEMORY_SHARE: nat := 4
  const MOST_CHUNKS: nat := 256

  /** Two buffers of the largest chunk fit the budget. */
  predicate PairFits(groups: nat, groupBytes: nat, budget: nat, chunks: nat)
    requires 0 < chunks
  {
    2 * Count(groups, chunks, 0) * groupBytes <= budget
  }

  /** Any two chunks then fit together: with as many, the largest two do. */
  lemma PairsFit(groups: nat, groupBytes: nat, budget: nat, chunks: nat)
    requires 0 < chunks
    ensures PairFits(groups, groupBytes, budget, chunks) <==>
      forall i: nat, j: nat :: i < chunks && j < chunks ==>
        Count(groups, chunks, i) * groupBytes + Count(groups, chunks, j) * groupBytes <= budget
  {
    forall i: nat, j: nat | i < chunks && j < chunks
      ensures Count(groups, chunks, i) * groupBytes + Count(groups, chunks, j) * groupBytes
        <= 2 * Count(groups, chunks, 0) * groupBytes
    {
      Bounds(groups, chunks, i);
      Bounds(groups, chunks, j);
      ProductGrows(Count(groups, chunks, i), Count(groups, chunks, 0), groupBytes, groupBytes);
      ProductGrows(Count(groups, chunks, j), Count(groups, chunks, 0), groupBytes, groupBytes);
      Twice(Count(groups, chunks, 0), groupBytes);
    }
    Twice(Count(groups, chunks, 0), groupBytes);
    hide Count;
  }

  lemma Twice(x: nat, y: nat)
    ensures 2 * x * y == x * y + x * y
  {
  }

  /** vb_dev_auto_chunks: the fewest chunks whose two buffers fit, as far as the
      groups and the limit allow; one if the device's memory is unknown. */
  method AutoChunks(groups: nat, groupBytes: nat, globalMem: nat) returns (chunks: nat)
    ensures 1 <= chunks && (chunks == 1 || (chunks <= groups && chunks <= MOST_CHUNKS))
    ensures globalMem / MEMORY_SHARE == 0 ==> chunks == 1
    ensures 0 < globalMem / MEMORY_SHARE ==>
      chunks >= groups || chunks >= MOST_CHUNKS || PairFits(groups, groupBytes, globalMem / MEMORY_SHARE, chunks)
    ensures forall fewer :: 1 <= fewer < chunks ==> !PairFits(groups, groupBytes, globalMem / MEMORY_SHARE, fewer)
  {
    hide PairFits;
    var budget := globalMem / MEMORY_SHARE;
    chunks := 1;
    while 0 < budget && chunks < groups && chunks < MOST_CHUNKS
      invariant 1 <= chunks && (chunks == 1 || (chunks <= groups && chunks <= MOST_CHUNKS))
      invariant budget == 0 ==> chunks == 1
      invariant forall fewer :: 1 <= fewer < chunks ==> !PairFits(groups, groupBytes, budget, fewer)
    {
      if PairFits(groups, groupBytes, budget, chunks) {
        break;
      }
      chunks := chunks + 1;
    }
  }
}
