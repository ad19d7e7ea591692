/**
 The streaming pipeline of one device as a step system.

 The host issues, per chunk, an upload on the copy queue and a kernel and a
 readback on the compute queue, and collects chunks in order. The device
 completes commands in queue order; a command also waits for the event it
 captured when it was issued. Uploads copy a group at a time and kernels load a
 group at a time, in any order and as often as they like, so a buffer that
 changed under a running kernel would show.

 Two buffers alternate, partials come back through a ring of host slots, and
 event slots are reused (CUDA) or released on collection (OpenCL).
 */
module Protocol {
  import opened Checksums
  import opened Slices

  /** VB_PIPE_RING: readback slots, event slots and chunks in flight. */
  const RING: nat := 8

  datatype Option<+T> = None | Some(value: T)

  /** One group of the corpus: the words of streams * lanes messages. */
  type Group = seq<Word>

  type Partials = seq<Sum>

  /**
   host     the device's slice of the corpus
   chunks   pipe_chunks, chunks per pass
   launch   what a kernel over these groups leaves in the partial buffer
   ahead    how many chunks the host keeps queued before it collects one
   release  whether collecting a chunk releases its events (OpenCL)
   */
  datatype Config = Config(host: seq<Group>, chunks: nat, launch: seq<Group> -> Partials,
                           ahead: nat, release: bool)
  {
    ghost predicate Valid() {
      && 1 <= chunks <= |host|
      && 3 <= ahead <= RING
    }

    /** The groups of chunk `t` of the run: passes repeat the same chunks. */
    function Chunk(t: nat): (r: seq<Group>)
      requires 0 < chunks
      ensures |r| == Count(|host|, chunks, t % chunks)
    {
      Slice(host, chunks, t % chunks)
    }

    /** Groups a device buffer holds: sized from slice 0. */
    function Capacity(): nat
      requires 0 < chunks
    {
      Count(|host|, chunks, 0)
    }

    lemma Fits(t: nat)
      requires 0 < chunks
      ensures |Chunk(t)| <= Capacity()
    {
      Bounds(|host|, chunks, t % chunks);
    }
  }

  /** The event, ring and copy slot of chunk `t`. */
  function Slot(t: nat): (i: nat)
    ensures i < RING
  {
    t % RING
  }

  /** The device buffer pair of chunk `t`. */
  function Side(t: nat): (b: nat)
    ensures b < 2
  {
    t % 2
  }

  lemma SlotsApart(t: nat, u: nat)
    requires t < u < t + RING
    ensures Slot(t) != Slot(u)
  {
  }

  /**
   queued, collected        the host's counters
   draining                 the host has stopped queueing (pipe_end)
   uploads, kernels         per issued upload and kernel, the chunk whose event
                            it waits for; readbacks issued are `queued`
   up, kev, rd              event slots: which chunk's event each holds
   uploaded, hashed, read   commands completed, by kind
   copying, hashing         the running upload's copied groups and the running
                            kernel's loaded groups
   reading                  a readback is running
   buf, part, ring          chunk buffers, partial buffers, readback ring
   */
  datatype State = State(
    queued: nat, collected: nat, draining: bool,
    uploads: seq<Option<nat>>, kernels: seq<Option<nat>>,
    up: seq<Option<nat>>, kev: seq<Option<nat>>, rd: seq<Option<nat>>,
    uploaded: nat, hashed: nat, read: nat,
    copying: Option<set<nat>>, hashing: Option<map<nat, Group>>, reading: bool,
    buf: seq<seq<Group>>, part: seq<Option<Partials>>, ring: seq<Option<Partials>>)

  datatype Action =
    // the host
    | IssueUpload | IssueKernel | IssueRead | Collect | Drain
    // the device
    | StartUpload | CopyGroup(k: nat) | FinishUpload
    | StartKernel | LoadGroup(k: nat) | FinishKernel
    | StartRead | FinishRead

  predicate Shaped(c: Config, s: State) {
    && 0 < c.chunks
    && |s.up| == |s.kev| == |s.rd| == |s.ring| == RING
    && |s.buf| == |s.part| == 2
    && |s.buf[0]| == |s.buf[1]| == c.Capacity()
  }

  /** A command with no captured event is free to start. */
  predicate Signalled(wait: Option<nat>, done: nat) {
    wait.None? || wait.value < done
  }

  function Loaded(seen: map<nat, Group>, n: nat): seq<Group>
    requires forall k: nat :: k < n ==> k in seen
  {
    seq(n, k requires 0 <= k < n => seen[k])
  }

  predicate Enabled(c: Config, s: State, a: Action)
    requires Shaped(c, s)
  {
    match a
    case IssueUpload =>
      !s.draining && |s.uploads| == s.queued && s.queued < s.collected + c.ahead
    case IssueKernel =>
      !s.draining && |s.uploads| == s.queued + 1 && |s.kernels| == s.queued
    case IssueRead =>
      !s.draining && |s.kernels| == s.queued + 1
    case Collect =>
      && s.collected < s.queued
      && (s.draining || (|s.uploads| == s.queued && s.queued == s.collected + c.ahead))
      && s.rd[Slot(s.collected)].Some? && s.rd[Slot(s.collected)].value < s.read
    case Drain =>
      true
    case StartUpload =>
      s.copying.None? && s.uploaded < |s.uploads| && Signalled(s.uploads[s.uploaded], s.hashed)
    case CopyGroup(k) =>
      && s.copying.Some? && k !in s.copying.value
      && k < |c.Chunk(s.uploaded)| && k < c.Capacity()
    case FinishUpload =>
      s.copying.Some? && (forall k: nat :: k < |c.Chunk(s.uploaded)| ==> k in s.copying.value)
    case StartKernel =>
      && s.hashing.None? && s.hashed < |s.kernels| && s.read == s.hashed
      && Signalled(s.kernels[s.hashed], s.uploaded)
    case LoadGroup(k) =>
      s.hashing.Some? && k < |c.Chunk(s.hashed)| && k < c.Capacity()
    case FinishKernel =>
      s.hashing.Some? && (forall k: nat :: k < |c.Chunk(s.hashed)| ==> k in s.hashing.value)
    case StartRead =>
      !s.reading && s.read < s.queued && s.read < s.hashed
    case FinishRead =>
      s.reading
  }

  /** Events kept by the slots of a collected chunk. */
  function Retired(c: Config, slots: seq<Option<nat>>, i: nat): seq<Option<nat>>
    requires i < |slots|
  {
    if c.release then slots[i := None] else slots
  }

  function Apply(c: Config, s: State, a: Action): (n: State)
    requires Shaped(c, s) && Enabled(c, s, a)
    ensures Shaped(c, n)
  {
    match a
    case IssueUpload =>
      var t := s.queued;
      s.(uploads := s.uploads + [if t >= 2 then s.kev[Slot(t - 2)] else None],
         up := s.up[Slot(t) := Some(t)])
    case IssueKernel =>
      var t := s.queued;
      s.(kernels := s.kernels + [s.up[Slot(t)]], kev := s.kev[Slot(t) := Some(t)])
    case IssueRead =>
      var t := s.queued;
      s.(rd := s.rd[Slot(t) := Some(t)], queued := t + 1)
    case Collect =>
      var i := Slot(s.collected);
      s.(up := Retired(c, s.up, i), kev := Retired(c, s.kev, i), rd := Retired(c, s.rd, i),
         collected := s.collected + 1)
    case Drain =>
      s.(draining := true)
    case StartUpload =>
      s.(copying := Some({}))
    case CopyGroup(k) =>
      var b := Side(s.uploaded);
      s.(copying := Some(s.copying.value + {k}),
         buf := s.buf[b := s.buf[b][k := c.Chunk(s.uploaded)[k]]])
    case FinishUpload =>
      s.(copying := None, uploaded := s.uploaded + 1)
    case StartKernel =>
      s.(hashing := Some(map[]), part := s.part[Side(s.hashed) := None])
    case LoadGroup(k) =>
      s.(hashing := Some(s.hashing.value[k := s.buf[Side(s.hashed)][k]]))
    case FinishKernel =>
      var t := s.hashed;
      s.(hashing := None, hashed := t + 1,
         part := s.part[Side(t) := Some(c.launch(Loaded(s.hashing.value, |c.Chunk(t)|)))])
    case StartRead =>
      s.(reading := true, ring := s.ring[Slot(s.read) := None])
    case FinishRead =>
      s.(reading := false, read := s.read + 1,
         ring := s.ring[Slot(s.read) := s.part[Side(s.read)]])
  }

  /** One step of the schedule: an action that is not enabled does nothing. */
  function Step(c: Config, s: State, a: Action): (n: State)
    requires Shaped(c, s)
    ensures Shaped(c, n)
  {
    if Enabled(c, s, a) then Apply(c, s, a) else s
  }

  /** vb_dev_pipe_begin: counters at zero, queues empty, memory arbitrary. */
  predicate Initial(c: Config, s: State) {
    && Shaped(c, s)
    && s.queued == s.collected == 0 && !s.draining
    && s.uploads == s.kernels == []
    && s.uploaded == s.hashed == s.read == 0
    && s.copying.None? && s.hashing.None? && !s.reading
  }

  // ---- the invariant --------------------------------------------------------

  /** Queue counters: who may be how far ahead of whom. */
  predicate Counters(c: Config, s: State) {
    && s.collected <= s.read <= s.hashed <= s.uploaded
    && s.hashed <= s.read + 1 && s.uploaded <= s.hashed + 2
    && s.read <= s.queued && s.hashed <= |s.kernels| && s.uploaded <= |s.uploads|
    && s.queued <= |s.kernels| <= |s.uploads| <= s.queued + 1
    && |s.uploads| <= s.collected + c.ahead
    && (!s.draining && 0 < s.collected ==> s.collected + c.ahead <= s.queued + 1)
    && (s.copying.Some? ==> s.uploaded < |s.uploads| && s.uploaded <= s.hashed + 1)
    && (s.hashing.Some? ==> s.hashed < |s.kernels| && s.hashed < s.uploaded && s.read == s.hashed)
    && (s.reading ==> s.read < s.queued && s.read < s.hashed)
  }

  /** Every command captured the event it was meant to. */
  predicate Waits(s: State) {
    && (forall t: nat :: t < |s.uploads| ==>
          s.uploads[t] == if t >= 2 then Some(t - 2) else None)
    && (forall t: nat :: t < |s.kernels| ==> s.kernels[t] == Some(t))
  }

  predicate Holds(slots: seq<Option<nat>>, t: nat)
    requires |slots| == RING
  {
    slots[Slot(t)] == Some(t)
  }

  /** The events of uncollected chunks are live and unreused. */
  predicate Events(s: State)
    requires |s.up| == |s.kev| == |s.rd| == RING
  {
    && (forall t: nat :: s.collected <= t < |s.uploads| ==> Holds(s.up, t))
    && (forall t: nat :: s.collected <= t < |s.kernels| ==> Holds(s.kev, t))
    && (forall t: nat :: s.collected <= t < s.queued ==> Holds(s.rd, t))
  }

  /** Chunk `t` sits in its buffer, group for group. */
  predicate InBuffer(c: Config, s: State, t: nat)
    requires Shaped(c, s)
  {
    c.Chunk(t) <= s.buf[Side(t)]
  }

  predicate Copied(c: Config, s: State, k: nat)
    requires Shaped(c, s)
  {
    && k < |c.Chunk(s.uploaded)| && k < c.Capacity()
    && s.buf[Side(s.uploaded)][k] == c.Chunk(s.uploaded)[k]
  }

  predicate Buffers(c: Config, s: State)
    requires Shaped(c, s)
  {
    && (forall t: nat :: s.hashed <= t < s.uploaded ==> InBuffer(c, s, t))
    && (s.copying.Some? ==> forall k :: k in s.copying.value ==> Copied(c, s, k))
    && (s.hashing.Some? ==> forall k :: k in s.hashing.value ==>
          k < |c.Chunk(s.hashed)| && s.hashing.value[k] == c.Chunk(s.hashed)[k])
  }

  /** Ring slot t mod 8 holds exactly chunk t's partials. */
  predicate InRing(c: Config, s: State, t: nat)
    requires Shaped(c, s)
  {
    s.ring[Slot(t)] == Some(c.launch(c.Chunk(t)))
  }

  predicate Results(c: Config, s: State)
    requires Shaped(c, s)
  {
    && (s.read < s.hashed ==> s.part[Side(s.read)] == Some(c.launch(c.Chunk(s.read))))
    && (forall t: nat :: s.collected <= t < s.read ==> InRing(c, s, t))
  }

  predicate Inv(c: Config, s: State) {
    Shaped(c, s) && Counters(c, s) && Waits(s) && Events(s) && Buffers(c, s) && Results(c, s)
  }

  lemma InvInitial(c: Config, s: State)
    requires c.Valid() && Initial(c, s)
    ensures Inv(c, s)
  {
  }

  // ---- every step keeps it ----------------------------------------------------

  lemma CountersKept(c: Config, s: State, a: Action)
    requires c.Valid() && Inv(c, s) && Enabled(c, s, a)
    ensures Counters(c, Apply(c, s, a))
  {
    hide Buffers, Results;
    c.Fits(s.uploaded);
    match a
    case StartUpload => assert Signalled(s.uploads[s.uploaded], s.hashed);
    case StartKernel => assert Signalled(s.kernels[s.hashed], s.uploaded);
    case Collect => assert Holds(s.rd, s.collected);
    case _ =>
  }

  lemma WaitsKept(c: Config, s: State, a: Action)
    requires c.Valid() && Inv(c, s) && Enabled(c, s, a)
    ensures Waits(Apply(c, s, a))
  {
    hide Buffers, Results;
    match a
    case IssueUpload => if s.queued >= 2 { assert Holds(s.kev, s.queued - 2); }
    case IssueKernel => assert Holds(s.up, s.queued);
    case _ =>
  }

  lemma HoldsUpdate(slots: seq<Option<nat>>, t: nat, u: nat, e: Option<nat>)
    requires |slots| == RING && Holds(slots, u)
    requires t < u < t + RING || u < t < u + RING
    ensures Holds(slots[Slot(t) := e], u)
  {
    if t < u { SlotsApart(t, u); } else { SlotsApart(u, t); }
  }

  lemma EventsIssued(c: Config, s: State, a: Action)
    requires c.Valid() && Inv(c, s) && Enabled(c, s, a)
    requires a.IssueUpload? || a.IssueKernel? || a.IssueRead?
    ensures Events(Apply(c, s, a))
  {
    hide Buffers, Results, Waits;
    var t, n := s.queued, Apply(c, s, a);
    forall u: nat | s.collected <= u < t ensures Holds(n.up, u) && Holds(n.kev, u) && Holds(n.rd, u) {
      HoldsUpdate(s.up, t, u, Some(t));
      HoldsUpdate(s.kev, t, u, Some(t));
      HoldsUpdate(s.rd, t, u, Some(t));
    }
  }

  lemma EventsCollected(c: Config, s: State)
    requires c.Valid() && Inv(c, s) && Enabled(c, s, Collect)
    ensures Events(Apply(c, s, Collect))
  {
    hide Buffers, Results, Waits;
    var t, n := s.collected, Apply(c, s, Collect);
    forall u: nat | t < u < t + RING ensures
      && (Holds(s.up, u) ==> Holds(n.up, u))
      && (Holds(s.kev, u) ==> Holds(n.kev, u))
      && (Holds(s.rd, u) ==> Holds(n.rd, u))
    {
      SlotsApart(t, u);
    }
  }

  lemma BuffersCopied(c: Config, s: State, k: nat)
    requires c.Valid() && Inv(c, s) && Enabled(c, s, CopyGroup(k))
    ensures Buffers(c, Apply(c, s, CopyGroup(k)))
  {
    var n := Apply(c, s, CopyGroup(k));
    forall t: nat | n.hashed <= t < n.uploaded ensures InBuffer(c, n, t) {
      assert InBuffer(c, s, t);
      assert Side(t) != Side(s.uploaded);
    }
    forall j | j in n.copying.value ensures Copied(c, n, j) {
      assert j != k ==> Copied(c, s, j);
    }
  }

  lemma BuffersUploaded(c: Config, s: State)
    requires c.Valid() && Inv(c, s) && Enabled(c, s, FinishUpload)
    ensures Buffers(c, Apply(c, s, FinishUpload))
  {
    hide Events, Results, Waits;
    var n := Apply(c, s, FinishUpload);
    forall t: nat | n.hashed <= t < n.uploaded ensures InBuffer(c, n, t) {
      if t < s.uploaded {
        assert InBuffer(c, s, t);
      } else {
        forall k: nat | k < |c.Chunk(t)| ensures c.Chunk(t)[k] == s.buf[Side(t)][k] {
          assert Copied(c, s, k);
        }
      }
    }
  }

  lemma BuffersKept(c: Config, s: State, a: Action)
    requires c.Valid() && Inv(c, s) && Enabled(c, s, a)
    ensures Buffers(c, Apply(c, s, a))
  {
    hide Events, Results, Waits;
    if a.CopyGroup? {
      BuffersCopied(c, s, a.k);
    } else if a.FinishUpload? {
      BuffersUploaded(c, s);
    } else {
      var n := Apply(c, s, a);
      if a.LoadGroup? {
        assert InBuffer(c, s, s.hashed);
      }
      forall t: nat | n.hashed <= t < n.uploaded ensures InBuffer(c, n, t) {
        assert InBuffer(c, s, t);
      }
      assert n.copying.Some? && s.copying.Some? ==> forall j :: j in n.copying.value ==> Copied(c, s, j);
    }
  }

  /** The kernel that finishes has loaded exactly its chunk. */
  lemma LoadedChunk(c: Config, s: State)
    requires c.Valid() && Inv(c, s) && Enabled(c, s, FinishKernel)
    ensures Loaded(s.hashing.value, |c.Chunk(s.hashed)|) == c.Chunk(s.hashed)
  {
  }

  lemma InRingKept(c: Config, s: State, r: seq<Option<Partials>>, e: Option<Partials>, t: nat)
    requires Inv(c, s) && s.collected <= t < s.read < s.collected + RING
    requires r == s.ring[Slot(s.read) := e]
    ensures r[Slot(t)] == Some(c.launch(c.Chunk(t)))
  {
    SlotsApart(t, s.read);
    assert InRing(c, s, t);
  }

  lemma ResultsKept(c: Config, s: State, a: Action)
    requires c.Valid() && Inv(c, s) && Enabled(c, s, a)
    ensures Results(c, Apply(c, s, a))
  {
    hide Events, Waits;
    var n := Apply(c, s, a);
    if a.FinishKernel? {
      LoadedChunk(c, s);
    }
    forall t: nat | n.collected <= t < n.read ensures InRing(c, n, t) {
      if t < s.read {
        assert InRing(c, s, t);
        if a.StartRead? || a.FinishRead? {
          InRingKept(c, s, n.ring, n.ring[Slot(s.read)], t);
        }
      }
    }
  }

  lemma InvStep(c: Config, s: State, a: Action)
    requires c.Valid() && Inv(c, s)
    ensures Inv(c, Step(c, s, a))
  {
    if Enabled(c, s, a) {
      CountersKept(c, s, a);
      WaitsKept(c, s, a);
      if a.IssueUpload? || a.IssueKernel? || a.IssueRead? {
        EventsIssued(c, s, a);
      } else if a.Collect? {
        EventsCollected(c, s);
      }
      BuffersKept(c, s, a);
      ResultsKept(c, s, a);
    }
  }

  // ---- safety over whole runs -------------------------------------------------

  function Run(c: Config, s: State, schedule: seq<Action>): (n: State)
    requires Shaped(c, s)
    ensures Shaped(c, n)
    decreases |schedule|
  {
    if schedule == [] then s else Run(c, Step(c, s, schedule[0]), schedule[1..])
  }

  lemma {:induction false} InvRun(c: Config, s: State, schedule: seq<Action>)
    requires c.Valid() && Inv(c, s)
    ensures Inv(c, Run(c, s, schedule))
    decreases |schedule|
  {
    if schedule != [] {
      InvStep(c, s, schedule[0]);
      InvRun(c, Step(c, s, schedule[0]), schedule[1..]);
    }
  }

  /** In every interleaving, while chunk t's kernel runs its buffer is chunk t,
      group for group, and no upload is writing that buffer. */
  lemma KernelSeesItsChunk(c: Config, s: State, schedule: seq<Action>)
    requires c.Valid() && Initial(c, s)
    ensures var n := Run(c, s, schedule);
            n.hashing.Some? ==>
              && c.Chunk(n.hashed) <= n.buf[Side(n.hashed)]
              && (n.copying.Some? ==> Side(n.uploaded) != Side(n.hashed))
  {
    InvInitial(c, s);
    InvRun(c, s, schedule);
    var n := Run(c, s, schedule);
    assert n.hashing.Some? ==> InBuffer(c, n, n.hashed);
  }

  /** In every interleaving, from its readback until it is collected, chunk t's
      partials stay in ring slot t mod 8. */
  lemma RingHoldsPartials(c: Config, s: State, schedule: seq<Action>, t: nat)
    requires c.Valid() && Initial(c, s)
    ensures var n := Run(c, s, schedule);
            n.collected <= t < n.read ==> n.ring[t % RING] == Some(c.launch(c.Chunk(t)))
  {
    InvInitial(c, s);
    InvRun(c, s, schedule);
    var n := Run(c, s, schedule);
    assert n.collected <= t < n.read ==> InRing(c, n, t);
  }

  /** Whenever chunk t >= 2 is queued, chunk t - 2 is uncollected, the slot it
      is awaited through holds its event, and chunk t + 6, which reuses that
      slot, is not queued; at most eight chunks are ever in flight. */
  lemma AwaitedEventIsLive(c: Config, s: State, schedule: seq<Action>)
    requires c.Valid() && Initial(c, s)
    ensures var n := Run(c, s, schedule);
            && n.queued <= n.collected + RING
            && (2 <= n.queued && Enabled(c, n, IssueUpload) ==>
                  && n.collected <= n.queued - 2 && |n.uploads| < n.queued + 6
                  && n.kev[(n.queued - 2) % RING] == Some(n.queued - 2)
                  && Apply(c, n, IssueUpload).uploads[n.queued] == Some(n.queued - 2))
  {
    InvInitial(c, s);
    InvRun(c, s, schedule);
    var n := Run(c, s, schedule);
    if 2 <= n.queued && Enabled(c, n, IssueUpload) {
      assert Holds(n.kev, n.queued - 2);
    }
  }

  // ---- liveness ----------------------------------------------------------------

  predicate DeviceAction(a: Action) {
    !(a.IssueUpload? || a.IssueKernel? || a.IssueRead? || a.Collect? || a.Drain?)
  }

  /** How many of 0, ..., n - 1 are not in `done`. */
  function Missing(done: set<nat>, n: nat): nat {
    if n == 0 then 0 else Missing(done, n - 1) + (if n - 1 in done then 0 else 1)
  }

  lemma {:induction false} MissingAdd(done: set<nat>, n: nat, k: nat)
    requires k !in done
    ensures Missing(done + {k}, n) == Missing(done, n) - (if k < n then 1 else 0)
  {
    if n > 0 {
      MissingAdd(done, n - 1, k);
    }
  }

  lemma {:induction false} MissingBound(done: set<nat>, n: nat)
    ensures Missing(done, n) <= n
  {
    if n > 0 {
      MissingBound(done, n - 1);
    }
  }

  /** Commands issued and not complete. */
  function Pending(s: State): int {
    |s.uploads| - s.uploaded + |s.kernels| - s.hashed + s.queued - s.read
  }

  /** Work left inside the running commands; a command not started counts more. */
  function Left(c: Config, s: State): nat
    requires 0 < c.chunks
  {
    var n := c.Capacity();
    (if s.copying.None? then n + 1 else Missing(s.copying.value, n)) +
    (if s.hashing.None? then n + 1 else Missing(s.hashing.value.Keys, n)) +
    (if s.reading then 0 else 1)
  }

  /** Loading a group again sees the same words. */
  lemma ReloadIsIdle(c: Config, s: State, k: nat)
    requires c.Valid() && Inv(c, s) && s.hashing.Some? && k in s.hashing.value
    ensures Step(c, s, LoadGroup(k)) == s
  {
    assert InBuffer(c, s, s.hashed);
    if Enabled(c, s, LoadGroup(k)) {
      assert Apply(c, s, LoadGroup(k)).hashing.value == s.hashing.value;
    }
  }

  /** Every device step that changes anything uses up pending work. */
  lemma StepsConsume(c: Config, s: State, a: Action)
    requires c.Valid() && Inv(c, s) && DeviceAction(a) && Step(c, s, a) != s
    ensures 0 <= Pending(Step(c, s, a)) <= Pending(s)
    ensures Pending(Step(c, s, a)) == Pending(s) ==> Left(c, Step(c, s, a)) < Left(c, s)
  {
    var n := c.Capacity();
    CountersKept(c, s, a);
    MissingBound({}, n);
    match a
    case CopyGroup(k) =>
      MissingAdd(s.copying.value, n, k);
    case LoadGroup(k) =>
      var seen := s.hashing.value;
      if k in seen {
        ReloadIsIdle(c, s, k);
        assert false;
      }
      MissingAdd(seen.Keys, n, k);
      assert seen[k := s.buf[Side(s.hashed)][k]].Keys == seen.Keys + {k};
    case StartKernel =>
      var none: map<nat, Group> := map[];
      assert none.Keys == {};
    case _ =>
  }

  /** While an issued chunk has not been read back, some device command can
      make progress: the pipeline never deadlocks. */
  method NextAction(c: Config, s: State) returns (a: Action)
    requires c.Valid() && Inv(c, s) && s.read < s.queued
    ensures DeviceAction(a) && Step(c, s, a) != s
  {
    c.Fits(s.hashed);
    c.Fits(s.uploaded);
    if s.reading {
      a := FinishRead;
    } else if s.read < s.hashed {
      a := StartRead;
    } else if s.hashing.Some? {
      a := FinishKernel;
      if k: nat :| k < |c.Chunk(s.hashed)| && k !in s.hashing.value {
        a := LoadGroup(k);
        assert k in Step(c, s, a).hashing.value;
      }
    } else if s.hashed < s.uploaded {
      a := StartKernel;
    } else if s.copying.Some? {
      a := FinishUpload;
      if k: nat :| k < |c.Chunk(s.uploaded)| && k !in s.copying.value {
        a := CopyGroup(k);
        assert k in Step(c, s, a).copying.value;
      }
    } else {
      a := StartUpload;
    }
  }

  /** What the host alone decides. */
  predicate SameHost(s: State, n: State) {
    && n.queued == s.queued && n.collected == s.collected && n.draining == s.draining
    && n.uploads == s.uploads && n.kernels == s.kernels
    && n.up == s.up && n.kev == s.kev && n.rd == s.rd
  }

  lemma DeviceKeepsHost(c: Config, s: State, a: Action)
    requires Shaped(c, s) && DeviceAction(a)
    ensures SameHost(s, Step(c, s, a)) && s.read <= Step(c, s, a).read
  {
  }
}
