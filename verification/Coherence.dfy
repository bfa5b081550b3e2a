/** Readers beside publications (src/supervisor.rs, `class_snapshot` and `probe_now`): one
    reader and one probe, interleaved in every way with publishers, each access to the
    shared state being one step.

    An epoch counts publications. The runtime (profile name, pool, generation) and the state
    (statistics, class entries) each carry the epoch they belong to; the program sees only
    the generation, the epoch modulo 2^64. */
module Coherence {
  import opened Publication

  type Epoch = nat

  /** A publisher owns the state lock from before it replaces the state until after it has
      replaced the runtime. */
  datatype Publisher = Away | Holding | StateWritten | RuntimeWritten

  datatype Shared = Shared(runtime: Epoch, state: Epoch, publisher: Publisher)

  datatype Snapshot =
    | NotStarted
    | SawRuntime(first: Epoch)
    | SawBoth(first: Epoch, second: Epoch)
    | Rechecked(first: Epoch, second: Epoch)
    | Returned(first: Epoch, second: Epoch, last: Epoch)

  datatype Probe =
    | NoProbe
    | SawPool(pool: Epoch)
    | SawEra(pool: Epoch, era: Epoch)
    | InGate(pool: Epoch, era: Epoch)
    | Testing(pool: Epoch, era: Epoch, tested: Epoch)
    | Recorded(pool: Epoch, era: Epoch, recorded: Epoch)
    | Skipped

  datatype World = World(shared: Shared, snapshot: Snapshot, probe: Probe)

  datatype Step =
    | LockState | WriteState | WriteRuntime | UnlockState
    | ReadRuntime | ReadState | Recheck | Return
    | ReadPool | ReadEra | EnterGate | CheckEra | Record

  function GenerationOf(e: Epoch): nat {
    e % GENERATIONS
  }

  predicate GateHeld(p: Probe) {
    p.InGate? || p.Testing?
  }

  predicate Enabled(w: World, step: Step) {
    match step
    case LockState => w.shared.publisher.Away? && !GateHeld(w.probe)
    case WriteState => w.shared.publisher.Holding?
    case WriteRuntime => w.shared.publisher.StateWritten?
    case UnlockState => w.shared.publisher.RuntimeWritten?
    case ReadRuntime => w.snapshot.NotStarted?
    case ReadState => w.snapshot.SawRuntime? && w.shared.publisher.Away?
    case Recheck => w.snapshot.SawBoth?
    case Return => w.snapshot.Rechecked?
    case ReadPool => w.probe.NoProbe?
    case ReadEra => w.probe.SawPool?
    case EnterGate => w.probe.SawEra? && w.shared.publisher.Away?
    case CheckEra => w.probe.InGate?
    case Record => w.probe.Testing? && w.shared.publisher.Away?
  }

  function Do(w: World, step: Step): World
    requires Enabled(w, step)
  {
    var runtime := w.shared.runtime;
    match step
    case LockState => w.(shared := w.shared.(publisher := Holding))
    case WriteState => w.(shared := w.shared.(state := runtime + 1, publisher := StateWritten))
    case WriteRuntime => w.(shared := w.shared.(runtime := runtime + 1, publisher := RuntimeWritten))
    case UnlockState => w.(shared := w.shared.(publisher := Away))
    case ReadRuntime => w.(snapshot := SawRuntime(runtime))
    case ReadState => w.(snapshot := SawBoth(w.snapshot.first, w.shared.state))
    case Recheck =>
      w.(snapshot := if GenerationOf(runtime) == GenerationOf(w.snapshot.first)
                     then Rechecked(w.snapshot.first, w.snapshot.second) else NotStarted)
    case Return =>
      w.(snapshot := if GenerationOf(runtime) == GenerationOf(w.snapshot.first)
                     then Returned(w.snapshot.first, w.snapshot.second, runtime) else NotStarted)
    case ReadPool => w.(probe := SawPool(runtime))
    case ReadEra => w.(probe := SawEra(w.probe.pool, runtime))
    case EnterGate => w.(probe := InGate(w.probe.pool, w.probe.era))
    case CheckEra =>
      w.(probe := if GenerationOf(runtime) == GenerationOf(w.probe.era)
                  then Testing(w.probe.pool, w.probe.era, runtime) else Skipped)
    case Record => w.(probe := Recorded(w.probe.pool, w.probe.era, w.shared.state))
  }

  predicate Runs(w: World, steps: seq<Step>)
    decreases |steps|
  {
    steps == [] || (Enabled(w, steps[0]) && Runs(Do(w, steps[0]), steps[1..]))
  }

  function Final(w: World, steps: seq<Step>): World
    requires Runs(w, steps)
    decreases |steps|
  {
    if steps == [] then w else Final(Do(w, steps[0]), steps[1..])
  }

  function Start(e: Epoch): World {
    World(Shared(e, e, Away), NotStarted, NoProbe)
  }

  // ---------------------------------------------------------------------------------
  // What every step keeps.

  predicate SharedInv(s: Shared) {
    s.state == if s.publisher.StateWritten? then s.runtime + 1 else s.runtime
  }

  predicate SnapshotInv(s: Snapshot, runtime: Epoch) {
    match s
    case NotStarted => true
    case SawRuntime(first) => first <= runtime
    case SawBoth(first, second) => first <= second <= runtime
    case Rechecked(first, second) => first <= second <= runtime
    case Returned(first, second, last) => first <= second <= last <= runtime && GenerationOf(first) == GenerationOf(last)
  }

  predicate ProbeInv(p: Probe, s: Shared) {
    match p
    case NoProbe => true
    case Skipped => true
    case SawPool(pool) => pool <= s.runtime
    case SawEra(pool, era) => pool <= era <= s.runtime
    case InGate(pool, era) => pool <= era <= s.runtime && s.publisher.Away?
    case Testing(pool, era, tested) =>
      pool <= era <= tested == s.runtime && s.publisher.Away? && GenerationOf(tested) == GenerationOf(era)
    case Recorded(pool, era, recorded) => pool <= era <= recorded <= s.runtime && GenerationOf(recorded) == GenerationOf(era)
  }

  predicate Inv(w: World) {
    SharedInv(w.shared) && SnapshotInv(w.snapshot, w.shared.runtime) && ProbeInv(w.probe, w.shared)
  }

  lemma StepKeeps(w: World, step: Step)
    requires Inv(w) && Enabled(w, step)
    ensures Inv(Do(w, step))
  {}

  lemma {:induction false} RunKeeps(w: World, steps: seq<Step>)
    requires Inv(w) && Runs(w, steps)
    ensures Inv(Final(w, steps))
    decreases |steps|
  {
    if steps != [] {
      StepKeeps(w, steps[0]);
      RunKeeps(Do(w, steps[0]), steps[1..]);
    }
  }

  lemma SameGeneration(a: Epoch, b: Epoch)
    requires a <= b < a + GENERATIONS && GenerationOf(a) == GenerationOf(b)
    ensures a == b
  {
    var d := b - a;
    assert b == a + d;
    assert (a / GENERATIONS) * GENERATIONS + GenerationOf(a) == a;
    assert (b / GENERATIONS) * GENERATIONS + GenerationOf(b) == b;
    assert d == (b / GENERATIONS - a / GENERATIONS) * GENERATIONS;
  }

  /** In every interleaving a returned snapshot pairs a runtime and a state of the same
      publication, unless the generation wrapped around while it was being taken. */
  lemma SnapshotIsCoherent(e: Epoch, steps: seq<Step>)
    requires Runs(Start(e), steps) && Final(Start(e), steps).snapshot.Returned?
    ensures var s := Final(Start(e), steps).snapshot;
      && s.first <= s.second <= s.last
      && (s.last - s.first < GENERATIONS ==> s.first == s.second == s.last)
  {
    RunKeeps(Start(e), steps);
    var s := Final(Start(e), steps).snapshot;
    if s.last - s.first < GENERATIONS { SameGeneration(s.first, s.last); }
  }

  /** A recorded probe lands in the statistics of the era it was checked against, but the
      era is read after the pool: it lands with its own pool exactly when no publication
      came between those two reads (and the generation has not wrapped since). */
  lemma ProbeIsRecordedInItsPool(e: Epoch, steps: seq<Step>)
    requires Runs(Start(e), steps) && Final(Start(e), steps).probe.Recorded?
    requires var p := Final(Start(e), steps).probe; p.recorded - p.era < GENERATIONS
    ensures var p := Final(Start(e), steps).probe;
      p.recorded == p.era && (p.recorded == p.pool <==> p.pool == p.era)
  {
    RunKeeps(Start(e), steps);
    var p := Final(Start(e), steps).probe;
    SameGeneration(p.era, p.recorded);
  }

  // ---------------------------------------------------------------------------------
  // That the exceptions are real.

  function OnePublication(): seq<Step> {
    [LockState, WriteState, WriteRuntime, UnlockState]
  }

  function Publications(n: nat): seq<Step> {
    if n == 0 then [] else OnePublication() + Publications(n - 1)
  }

  lemma RunOne(w: World, step: Step, rest: seq<Step>)
    requires Enabled(w, step) && Runs(Do(w, step), rest)
    ensures Runs(w, [step] + rest) && Final(w, [step] + rest) == Final(Do(w, step), rest)
  {
    assert ([step] + rest)[1..] == rest;
  }

  lemma {:induction false} RunBoth(w: World, xs: seq<Step>, ys: seq<Step>)
    requires Runs(w, xs) && Runs(Final(w, xs), ys)
    ensures Runs(w, xs + ys) && Final(w, xs + ys) == Final(Final(w, xs), ys)
    decreases |xs|
  {
    if xs == [] {
      assert xs + ys == ys;
    } else {
      RunBoth(Do(w, xs[0]), xs[1..], ys);
      assert (xs + ys)[1..] == xs[1..] + ys;
    }
  }

  function After(w: World, n: nat): World {
    w.(shared := Shared(w.shared.runtime + n, w.shared.runtime + n, Away))
  }

  lemma PublishOnce(w: World)
    requires w.shared.publisher.Away? && w.shared.state == w.shared.runtime && !GateHeld(w.probe)
    ensures Runs(w, OnePublication()) && Final(w, OnePublication()) == After(w, 1)
  {
    var w1 := Do(w, LockState);
    var w2 := Do(w1, WriteState);
    var w3 := Do(w2, WriteRuntime);
    RunOne(w3, UnlockState, []);
    RunOne(w2, WriteRuntime, [UnlockState]);
    RunOne(w1, WriteState, [WriteRuntime] + [UnlockState]);
    RunOne(w, LockState, [WriteState] + ([WriteRuntime] + [UnlockState]));
    assert OnePublication() == [LockState] + ([WriteState] + ([WriteRuntime] + [UnlockState]));
  }

  lemma {:induction false} PublishMany(w: World, n: nat)
    requires w.shared.publisher.Away? && w.shared.state == w.shared.runtime && !GateHeld(w.probe)
    ensures Runs(w, Publications(n)) && Final(w, Publications(n)) == After(w, n)
    decreases n
  {
    if n > 0 {
      PublishOnce(w);
      PublishMany(After(w, 1), n - 1);
      RunBoth(w, OnePublication(), Publications(n - 1));
    }
  }

  lemma GenerationsWrap(e: Epoch, n: nat)
    ensures GenerationOf(e + n) == GenerationOf(e) <==> n % GENERATIONS == 0
  {
    assert (e + n) % GENERATIONS == (GenerationOf(e) + n % GENERATIONS) % GENERATIONS by {
      assert e + n == GENERATIONS * (e / GENERATIONS + n / GENERATIONS) + (e % GENERATIONS + n % GENERATIONS);
      ModuloDropsMultiples(e / GENERATIONS + n / GENERATIONS, e % GENERATIONS + n % GENERATIONS);
    }
  }

  lemma ModuloDropsMultiples(k: nat, r: nat)
    ensures (GENERATIONS * k + r) % GENERATIONS == r % GENERATIONS
  {
    var q := r / GENERATIONS;
    assert GENERATIONS * k + r == GENERATIONS * (k + q) + r % GENERATIONS;
  }

  /** With `n` publications between the two reads and none after them, the mixed snapshot is
      returned when `n` is a multiple of 2^64; the first recheck catches every other `n`. */
  lemma MixedSnapshotExactly(e: Epoch, n: nat)
    requires n > 0
    ensures var steps := [ReadRuntime] + (Publications(n) + ([ReadState] + ([Recheck] + [])));
      && Runs(Start(e), steps)
      && var w := Final(Start(e), steps);
         if n % GENERATIONS == 0
         then Enabled(w, Return) && Do(w, Return).snapshot == Returned(e, e + n, e + n)
         else w.snapshot == NotStarted
  {
    var w1 := Do(Start(e), ReadRuntime);
    PublishMany(w1, n);
    var w2 := After(w1, n);
    var w3 := Do(w2, ReadState);
    RunOne(w3, Recheck, []);
    RunOne(w2, ReadState, [Recheck] + []);
    RunBoth(w1, Publications(n), [ReadState] + ([Recheck] + []));
    RunOne(Start(e), ReadRuntime, Publications(n) + ([ReadState] + ([Recheck] + [])));
    GenerationsWrap(e, n);
  }

  /** One publication between the two reads of a probe: its result, measured on a node of the
      old pool, is recorded into the new profile's statistics. */
  lemma OldPoolProbeIsRecorded(e: Epoch)
    ensures var steps := [ReadPool] + (OnePublication() + ([ReadEra] + ([EnterGate] + ([CheckEra] + ([Record] + [])))));
      Runs(Start(e), steps) && Final(Start(e), steps).probe == Recorded(e, e + 1, e + 1)
  {
    var w1 := Do(Start(e), ReadPool);
    PublishOnce(w1);
    var w2 := After(w1, 1);
    var w3 := Do(w2, ReadEra);
    var w4 := Do(w3, EnterGate);
    var w5 := Do(w4, CheckEra);
    RunOne(w5, Record, []);
    RunOne(w4, CheckEra, [Record] + []);
    RunOne(w3, EnterGate, [CheckEra] + ([Record] + []));
    RunOne(w2, ReadEra, [EnterGate] + ([CheckEra] + ([Record] + [])));
    RunBoth(w1, OnePublication(), [ReadEra] + ([EnterGate] + ([CheckEra] + ([Record] + []))));
    RunOne(Start(e), ReadPool, OnePublication() + ([ReadEra] + ([EnterGate] + ([CheckEra] + ([Record] + [])))));
  }
}
