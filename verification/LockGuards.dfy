/** What the locks protect: a route is flipped only by whoever owns its class under the gate, the
    pool is replaced only by whoever owns gate, transaction and state, and what is recorded is
    recorded under the gate. So no switch, probe or health tick is half done when a publication
    happens. */
module LockGuards {
  import opened Base
  import opened Locks
  import opened LockPrograms

  type Held = map<Lock, Mode>

  /** Whoever writes a route owns the class, under the gate. */
  predicate RouteOwned(held: Held, c: nat) {
    Lookup(held, Route(c)) == Some(Exclusive) ==> Gate in held && Lookup(held, Class(c)) == Some(Exclusive)
  }

  /** Whoever replaces the pool owns gate, transaction and state. */
  predicate PoolOwned(held: Held) {
    Lookup(held, Pool) == Some(Exclusive) ==>
      Lookup(held, Gate) == Some(Exclusive) && Lookup(held, Transaction) == Some(Exclusive) && Lookup(held, State) == Some(Exclusive)
  }

  /** `recording` is said of operations that write the state whenever they lock it. */
  ghost predicate Covered(held: Held, recording: bool) {
    PoolOwned(held) && (recording && State in held ==> Gate in held) && forall c :: RouteOwned(held, c)
  }

  function Next(held: Held, a: Action): Held {
    match a case Release(l) => held - {l} case _ => held[a.lock := a.mode]
  }

  function HeldAfter(held: Held, xs: seq<Action>): Held
    decreases |xs|
  {
    if xs == [] then held else HeldAfter(Next(held, xs[0]), xs[1..])
  }

  /** At every moment of the program. */
  ghost predicate Guarded(held: Held, xs: seq<Action>, recording: bool)
    decreases |xs|
  {
    Covered(held, recording) && (xs == [] || Guarded(Next(held, xs[0]), xs[1..], recording))
  }

  ghost predicate Neat(held: Held, xs: seq<Action>, recording: bool) {
    Guarded(held, xs, recording) && HeldAfter(held, xs) == held
  }

  lemma {:induction false} Both(held: Held, xs: seq<Action>, ys: seq<Action>, recording: bool)
    requires Guarded(held, xs, recording) && Guarded(HeldAfter(held, xs), ys, recording)
    ensures Guarded(held, xs + ys, recording) && HeldAfter(held, xs + ys) == HeldAfter(HeldAfter(held, xs), ys)
    decreases |xs|
  {
    if xs == [] {
      assert xs + ys == ys;
    } else {
      assert (xs + ys)[0] == xs[0] && (xs + ys)[1..] == xs[1..] + ys;
      Both(Next(held, xs[0]), xs[1..], ys, recording);
    }
  }

  lemma Single(held: Held, a: Action, recording: bool)
    requires Covered(held, recording) && Covered(Next(held, a), recording)
    ensures Guarded(held, [a], recording) && HeldAfter(held, [a]) == Next(held, a)
  {
    assert [a][1..] == [];
    assert Guarded(Next(held, a), [], recording);
  }

  lemma Wrapped(held: Held, l: Lock, m: Mode, body: seq<Action>, recording: bool)
    requires l !in held && Covered(held, recording) && Neat(held[l := m], body, recording)
    ensures Neat(held, [Acquire(l, m)] + body + [Release(l)], recording)
  {
    var inner := held[l := m];
    assert inner - {l} == held && Covered(inner, recording);
    Single(held, Acquire(l, m), recording);
    Single(inner, Release(l), recording);
    Both(held, [Acquire(l, m)], body, recording);
    Both(held, [Acquire(l, m)] + body, [Release(l)], recording);
  }

  lemma Touched(held: Held, l: Lock, m: Mode, recording: bool)
    requires l !in held && Covered(held, recording) && Covered(held[l := m], recording)
    ensures Neat(held, Touch(l, m), recording)
  {
    Wrapped(held, l, m, [], recording);
    assert [Acquire(l, m)] + [] + [Release(l)] == Touch(l, m);
  }

  lemma {:induction false} TimesTouched(held: Held, n: nat, l: Lock, recording: bool)
    requires l !in held && Covered(held, recording) && Covered(held[l := Exclusive], recording)
    ensures Neat(held, Times(n, l), recording)
  {
    if n > 0 {
      TimesTouched(held, n - 1, l, recording);
      Touched(held, l, Exclusive, recording);
      Both(held, Times(n - 1, l), Touch(l, Exclusive), recording);
    }
  }

  /** One more lock may be held, if its owner has what it needs. */
  ghost predicate MayTake(held: Held, l: Lock, m: Mode, recording: bool) {
    && Covered(held, recording) && l !in held
    && (l.Route? && m.Exclusive? ==> Gate in held && Lookup(held, Class(l.index)) == Some(Exclusive))
    && (l.Pool? && m.Exclusive? ==>
          Lookup(held, Gate) == Some(Exclusive) && Lookup(held, Transaction) == Some(Exclusive) && Lookup(held, State) == Some(Exclusive))
    && (l.State? && recording ==> Gate in held)
  }

  lemma TakenIsCovered(held: Held, l: Lock, m: Mode, recording: bool)
    requires MayTake(held, l, m, recording)
    ensures Covered(held[l := m], recording)
  {
    var more := held[l := m];
    forall c ensures RouteOwned(more, c) { assert RouteOwned(held, c); }
  }

  lemma TouchIsNeat(held: Held, l: Lock, m: Mode, recording: bool)
    requires MayTake(held, l, m, recording)
    ensures Neat(held, Touch(l, m), recording)
  {
    TakenIsCovered(held, l, m, recording);
    Touched(held, l, m, recording);
  }

  lemma TimesIsNeat(held: Held, n: nat, l: Lock, recording: bool)
    requires MayTake(held, l, Exclusive, recording)
    ensures Neat(held, Times(n, l), recording)
  {
    TakenIsCovered(held, l, Exclusive, recording);
    TimesTouched(held, n, l, recording);
  }

  /** The class and the gate are held, and none of the later locks. */
  ghost predicate OwnsClass(held: Held, c: nat, recording: bool) {
    && Covered(held, recording) && Gate in held && Lookup(held, Class(c)) == Some(Exclusive)
    && Route(c) !in held && State !in held && Pool !in held && DrainList !in held
  }

  lemma InstallIsNeat(held: Held, c: nat, recording: bool)
    requires OwnsClass(held, c, recording)
    ensures Neat(held, Install(c), recording)
  {
    TouchIsNeat(held, Pool, Shared, recording);
    TouchIsNeat(held, Route(c), Exclusive, recording);
    TimesIsNeat(held, 2, State, recording);
    TouchIsNeat(held, DrainList, Exclusive, recording);
    Both(held, Touch(Pool, Shared), Touch(Route(c), Exclusive), recording);
    Both(held, Touch(Pool, Shared) + Touch(Route(c), Exclusive), Times(2, State), recording);
    Both(held, Touch(Pool, Shared) + Touch(Route(c), Exclusive) + Times(2, State), Touch(DrainList, Exclusive), recording);
  }

  lemma RecoverIsNeat(held: Held, c: nat, failures: nat, recording: bool)
    requires OwnsClass(held, c, recording)
    ensures Neat(held, Recover(c, failures), recording)
  {
    TouchIsNeat(held, Pool, Shared, recording);
    TimesIsNeat(held, failures + 1, State, recording);
    InstallIsNeat(held, c, recording);
    Both(held, Touch(Pool, Shared), Times(failures + 1, State), recording);
    Both(held, Touch(Pool, Shared) + Times(failures + 1, State), Install(c), recording);
  }

  lemma NothingHeld(recording: bool)
    ensures Covered(map[], recording) && Covered(map[Gate := Shared], recording)
  {
    NoRouteHeld(map[]);
    NoRouteHeld(map[Gate := Shared]);
  }

  lemma NoRouteHeld(held: Held)
    requires forall l | l in held :: !l.Route?
    ensures forall c :: RouteOwned(held, c)
  {
    forall c ensures RouteOwned(held, c) { assert Route(c) !in held; }
  }

  /** A manual switch flips its route under its class and the read gate, and records under the gate. */
  lemma ManualSwitchIsGuarded(c: nat, failures: nat)
    ensures Guarded(map[], ManualSwitch(c, failures), true)
  {
    var gate := map[Gate := Shared];
    NothingHeld(true);
    TakenIsCovered(gate, Class(c), Exclusive, true);
    RecoverIsNeat(gate[Class(c) := Exclusive], c, failures, true);
    Wrapped(gate, Class(c), Exclusive, Recover(c, failures), true);
    assert map[][Gate := Shared] == gate;
    Wrapped(map[], Gate, Shared, WithClass(c, Recover(c, failures)), true);
  }

  /** A health tick books its verdict and recovers under one read gate. */
  lemma HealthTickIsGuarded(c: nat, failures: nat)
    ensures Guarded(map[], HealthTick(c, failures), true)
  {
    var gate := map[Gate := Shared];
    var owned := gate[Class(c) := Exclusive];
    NothingHeld(true);
    TakenIsCovered(gate, Class(c), Exclusive, true);
    TouchIsNeat(owned, State, Exclusive, true);
    Wrapped(gate, Class(c), Exclusive, Touch(State, Exclusive), true);
    RecoverIsNeat(owned, c, failures, true);
    Wrapped(gate, Class(c), Exclusive, Recover(c, failures), true);
    Both(gate, WithClass(c, Touch(State, Exclusive)), WithClass(c, Recover(c, failures)), true);
    assert map[][Gate := Shared] == gate;
    Wrapped(map[], Gate, Shared, WithClass(c, Touch(State, Exclusive)) + WithClass(c, Recover(c, failures)), true);
  }

  /** A probe cycle reads its pool and records every result under one read gate. */
  lemma ProbeCycleIsGuarded(results: nat)
    ensures Guarded(map[], ProbeCycle(results), true)
  {
    var gate := map[Gate := Shared];
    NothingHeld(true);
    TouchIsNeat(gate, Pool, Shared, true);
    TimesIsNeat(gate, results + 1, State, true);
    Both(gate, Touch(Pool, Shared), Times(results + 1, State), true);
    assert map[][Gate := Shared] == gate;
    Wrapped(map[], Gate, Shared, Touch(Pool, Shared) + Times(results + 1, State), true);
  }

  /** So does the egress rebuild, under the write gate it has tried for. */
  lemma EgressRebuildIsGuarded(c: nat)
    ensures Guarded(map[], EgressRebuild(c), true)
  {
    var none: Held := map[];
    var txn := none[Transaction := Exclusive];
    var gate := txn[Gate := Exclusive];
    var owned := gate[Class(c) := Exclusive];
    NothingHeld(true);
    TakenIsCovered(none, Transaction, Exclusive, true);
    TakenIsCovered(txn, Gate, Exclusive, true);
    TakenIsCovered(gate, Class(c), Exclusive, true);
    Single(none, TryAcquire(Transaction, Exclusive), true);
    Single(txn, TryAcquire(Gate, Exclusive), true);
    Single(gate, TryAcquire(Class(c), Exclusive), true);
    Both(none, [TryAcquire(Transaction, Exclusive)], [TryAcquire(Gate, Exclusive)], true);
    Both(none, [TryAcquire(Transaction, Exclusive)] + [TryAcquire(Gate, Exclusive)], [TryAcquire(Class(c), Exclusive)], true);
    InstallIsNeat(owned, c, true);
    var tries := [TryAcquire(Transaction, Exclusive)] + [TryAcquire(Gate, Exclusive)] + [TryAcquire(Class(c), Exclusive)];
    Both(none, tries, Install(c), true);
    assert owned - {Class(c)} == gate && gate - {Gate} == txn && txn - {Transaction} == none;
    Single(owned, Release(Class(c)), true);
    Single(gate, Release(Gate), true);
    Single(txn, Release(Transaction), true);
    var ends := [Release(Class(c))] + [Release(Gate)] + [Release(Transaction)];
    Both(owned, [Release(Class(c))], [Release(Gate)], true);
    Both(owned, [Release(Class(c))] + [Release(Gate)], [Release(Transaction)], true);
    Both(none, tries + Install(c), ends, true);
    assert EgressRebuild(c) == tries + Install(c) + ends;
  }

  lemma StatusSnapshotIsGuarded()
    ensures Guarded(map[], StatusSnapshot(), false)
  {
    NothingHeld(false);
    TouchIsNeat(map[], Pool, Shared, false);
    TouchIsNeat(map[], State, Exclusive, false);
    Both(map[], Touch(Pool, Shared), Touch(State, Exclusive), false);
    Both(map[], Touch(Pool, Shared) + Touch(State, Exclusive), Touch(Pool, Shared), false);
    Both(map[], Touch(Pool, Shared) + Touch(State, Exclusive) + Touch(Pool, Shared), Touch(Pool, Shared), false);
  }

  // ---------------------------------------------------------------------------------
  // The transaction.

  function Classes(held: Held, n: nat): Held {
    if n == 0 then held else Classes(held, n - 1)[Class(n - 1) := Exclusive]
  }

  function Routes(held: Held, n: nat): Held {
    if n == 0 then held else Routes(held, n - 1)[Route(n - 1) := Exclusive]
  }

  lemma {:induction false} ClassesHold(held: Held, n: nat)
    ensures forall l :: l in Classes(held, n) <==> l in held || (l.Class? && l.index < n)
    ensures forall l :: l in Classes(held, n) ==> Classes(held, n)[l] == if l.Class? && l.index < n then Exclusive else held[l]
  {
    if n > 0 { ClassesHold(held, n - 1); }
  }

  lemma {:induction false} RoutesHold(held: Held, n: nat)
    ensures forall l :: l in Routes(held, n) <==> l in held || (l.Route? && l.index < n)
    ensures forall l :: l in Routes(held, n) ==> Routes(held, n)[l] == if l.Route? && l.index < n then Exclusive else held[l]
  {
    if n > 0 { RoutesHold(held, n - 1); }
  }

  lemma LastClassGiven(held: Held, n: nat)
    requires n > 0 && Class(n - 1) !in held
    ensures Classes(held, n) - {Class(n - 1)} == Classes(held, n - 1)
  {
    ClassesHold(held, n - 1);
  }

  lemma LastRouteGiven(held: Held, n: nat)
    requires n > 0 && Route(n - 1) !in held
    ensures Routes(held, n) - {Route(n - 1)} == Routes(held, n - 1)
  {
    RoutesHold(held, n - 1);
  }

  lemma {:induction false} ClassesAreTaken(held: Held, n: nat)
    requires Covered(held, false) && forall l | l in held :: !l.Class? && !l.Route?
    ensures Guarded(held, AcquireClasses(n), false) && HeldAfter(held, AcquireClasses(n)) == Classes(held, n)
    ensures Covered(Classes(held, n), false)
  {
    if n > 0 {
      ClassesAreTaken(held, n - 1);
      ClassesHold(held, n - 1);
      TakenIsCovered(Classes(held, n - 1), Class(n - 1), Exclusive, false);
      Single(Classes(held, n - 1), Acquire(Class(n - 1), Exclusive), false);
      Both(held, AcquireClasses(n - 1), [Acquire(Class(n - 1), Exclusive)], false);
    }
  }

  lemma {:induction false} ClassesAreReleased(held: Held, n: nat)
    requires Covered(Classes(held, n), false) && Covered(held, false) && forall l | l in held :: !l.Class? && !l.Route?
    ensures Guarded(Classes(held, n), ReleaseClasses(n), false) && HeldAfter(Classes(held, n), ReleaseClasses(n)) == held
  {
    if n > 0 {
      LastClassGiven(held, n);
      ClassesAreTaken(held, n - 1);
      ClassesAreReleased(held, n - 1);
      assert ReleaseClasses(n)[0] == Release(Class(n - 1)) && ReleaseClasses(n)[1..] == ReleaseClasses(n - 1);
    }
  }

  /** All classes below `n` and the gate are owned, and no route, state or pool. */
  ghost predicate OwnsClasses(held: Held, n: nat) {
    && Covered(held, false) && Lookup(held, Gate) == Some(Exclusive) && Lookup(held, Transaction) == Some(Exclusive)
    && (forall i | 0 <= i < n :: Lookup(held, Class(i)) == Some(Exclusive))
    && (forall l | l in held :: !l.Route? && !l.State? && !l.Pool? && !l.DrainList?)
  }

  lemma {:induction false} RoutesAreTaken(held: Held, n: nat)
    requires OwnsClasses(held, n)
    ensures Guarded(held, AcquireRoutes(n), false) && HeldAfter(held, AcquireRoutes(n)) == Routes(held, n)
    ensures Covered(Routes(held, n), false)
  {
    if n > 0 {
      RoutesAreTaken(held, n - 1);
      RoutesHold(held, n - 1);
      TakenIsCovered(Routes(held, n - 1), Route(n - 1), Exclusive, false);
      Single(Routes(held, n - 1), Acquire(Route(n - 1), Exclusive), false);
      Both(held, AcquireRoutes(n - 1), [Acquire(Route(n - 1), Exclusive)], false);
    }
  }

  lemma {:induction false} RoutesAreReleased(held: Held, n: nat)
    requires OwnsClasses(held, n)
    ensures Guarded(Routes(held, n), ReleaseRoutes(n), false) && HeldAfter(Routes(held, n), ReleaseRoutes(n)) == held
  {
    RoutesAreTaken(held, n);
    if n > 0 {
      LastRouteGiven(held, n);
      RoutesAreReleased(held, n - 1);
      assert ReleaseRoutes(n)[0] == Release(Route(n - 1)) && ReleaseRoutes(n)[1..] == ReleaseRoutes(n - 1);
    }
  }

  lemma {:induction false} RoutesAreRead(held: Held, n: nat, k: nat)
    requires OwnsClasses(held, n) && k <= n
    ensures Neat(held, ReadRoutes(k), false)
  {
    if k > 0 {
      RoutesAreRead(held, n, k - 1);
      TouchIsNeat(held, Route(k - 1), Shared, false);
      Both(held, ReadRoutes(k - 1), Touch(Route(k - 1), Shared), false);
    }
  }

  lemma PoolIsReplaced(held: Held)
    requires Covered(held, false) && State !in held && Pool !in held
    requires Lookup(held, Gate) == Some(Exclusive) && Lookup(held, Transaction) == Some(Exclusive)
    ensures Neat(held, [Acquire(State, Exclusive)] + Touch(Pool, Exclusive) + [Release(State)], false)
  {
    TakenIsCovered(held, State, Exclusive, false);
    TouchIsNeat(held[State := Exclusive], Pool, Exclusive, false);
    Wrapped(held, State, Exclusive, Touch(Pool, Exclusive), false);
  }

  lemma PublishIsNeat(held: Held, n: nat)
    requires OwnsClasses(held, n)
    ensures Neat(held, Publish(n), false)
  {
    RoutesAreTaken(held, n);
    RoutesHold(held, n);
    PoolIsReplaced(Routes(held, n));
    RoutesAreReleased(held, n);
    var middle := [Acquire(State, Exclusive)] + Touch(Pool, Exclusive) + [Release(State)];
    Both(held, AcquireRoutes(n), middle, false);
    Both(held, AcquireRoutes(n) + middle, ReleaseRoutes(n), false);
    assert Publish(n) == AcquireRoutes(n) + middle + ReleaseRoutes(n);
  }

  lemma GatedIsNeat(held: Held, n: nat)
    requires OwnsClasses(held, n)
    ensures Neat(held, Gated(n), false)
  {
    TimesIsNeat(held, 1, State, false);
    RoutesAreRead(held, n, n);
    PublishIsNeat(held, n);
    TimesIsNeat(held, n, DrainList, false);
    Both(held, Times(1, State), ReadRoutes(n), false);
    Both(held, Times(1, State) + ReadRoutes(n), Times(1, State), false);
    Both(held, Times(1, State) + ReadRoutes(n) + Times(1, State), Publish(n), false);
    Both(held, Times(1, State) + ReadRoutes(n) + Times(1, State) + Publish(n), Times(1, State), false);
    Both(held, Times(1, State) + ReadRoutes(n) + Times(1, State) + Publish(n) + Times(1, State), Times(n, DrainList), false);
  }

  lemma UnderClassesIsNeat(held: Held, n: nat)
    requires held == map[Transaction := Exclusive, Gate := Exclusive]
    ensures Neat(held, AcquireClasses(n) + Gated(n) + ReleaseClasses(n), false)
  {
    NoRouteHeld(held);
    ClassesAreTaken(held, n);
    ClassesHold(held, n);
    GatedIsNeat(Classes(held, n), n);
    ClassesAreReleased(held, n);
    Both(held, AcquireClasses(n), Gated(n), false);
    Both(held, AcquireClasses(n) + Gated(n), ReleaseClasses(n), false);
  }

  /** The transaction replaces the pool and flips the routes with the write gate and every class. */
  lemma TransactionIsGuarded(n: nat)
    ensures Guarded(map[], SubscriptionTransaction(n), false)
  {
    var txn: Held := map[Transaction := Exclusive];
    var body := AcquireClasses(n) + Gated(n) + ReleaseClasses(n);
    NothingHeld(false);
    NoRouteHeld(txn);
    assert txn[Gate := Exclusive] == map[Transaction := Exclusive, Gate := Exclusive];
    UnderClassesIsNeat(txn[Gate := Exclusive], n);
    Wrapped(txn, Gate, Exclusive, body, false);
    TouchIsNeat(txn, Pool, Shared, false);
    TimesIsNeat(txn, 1, State, false);
    Both(txn, Touch(Pool, Shared), Times(1, State), false);
    Both(txn, Touch(Pool, Shared) + Times(1, State), UnderWriteGate(body), false);
    assert map[][Transaction := Exclusive] == txn;
    Wrapped(map[], Transaction, Exclusive, Touch(Pool, Shared) + Times(1, State) + UnderWriteGate(body), false);
  }

  // ---------------------------------------------------------------------------------
  // Every world.

  ghost predicate ThreadGuarded(w: World, t: ThreadId) {
    t in w.threads ==> Guarded(w.threads[t].held, w.threads[t].todo, false)
  }

  function Kept(held: Held, keep: set<Lock>): Held {
    map l | l in held && l in keep :: held[l]
  }

  /** Only guarded programs are started, and what an operation does after a failed attempt or a
      cancellation is guarded too. */
  ghost predicate GuardedStep(w: World, step: Step) {
    match step
    case Spawn(_, program) => Guarded(map[], program, false)
    case Try(t, otherwise) => t in w.threads && Guarded(w.threads[t].held, otherwise, false)
    case Abandon(t, keep, rest) => t in w.threads && Guarded(Kept(w.threads[t].held, keep), rest, false)
    case _ => true
  }

  ghost predicate GuardedRun(w: World, steps: seq<Step>)
    requires Runs(w, steps)
    decreases |steps|
  {
    steps == [] || (GuardedStep(w, steps[0]) && GuardedRun(Do(w, steps[0]), steps[1..]))
  }

  lemma StepStaysGuarded(w: World, step: Step, u: ThreadId)
    requires Enabled(w, step) && GuardedStep(w, step) && ThreadGuarded(w, u)
    ensures ThreadGuarded(Do(w, step), u)
  {
    match step
    case Abandon(t, keep, rest) => assert Kept(w.threads[t].held, keep) == map l | l in w.threads[t].held && l in keep :: w.threads[t].held[l];
    case _ =>
  }

  lemma {:induction false} RunStaysGuarded(w: World, steps: seq<Step>)
    requires Runs(w, steps) && GuardedRun(w, steps) && forall u :: ThreadGuarded(w, u)
    ensures forall u :: ThreadGuarded(Final(w, steps), u)
    decreases |steps|
  {
    if steps != [] {
      forall u ensures ThreadGuarded(Do(w, steps[0]), u) { StepStaysGuarded(w, steps[0], u); }
      RunStaysGuarded(Do(w, steps[0]), steps[1..]);
    }
  }

  /** In every reachable world of guarded operations: while one flips the route of a class, no other
      holds that class; while one replaces the pool, no other is under the gate, so no switch,
      probe or health tick is half done. */
  lemma WritersAreAlone(steps: seq<Step>, t: ThreadId, u: ThreadId, c: nat)
    requires Runs(World(map[], map[]), steps) && GuardedRun(World(map[], map[]), steps) && t != u
    ensures var w := Final(World(map[], map[]), steps);
      && (t in w.threads && Lookup(w.threads[t].held, Route(c)) == Some(Exclusive) ==> !Holds(w, u, Class(c)))
      && (t in w.threads && Lookup(w.threads[t].held, Pool) == Some(Exclusive) ==> !Holds(w, u, Gate) && !Holds(w, u, State))
  {
    RunStaysGuarded(World(map[], map[]), steps);
    ExclusiveMeansAlone(steps, Class(c), t, u);
    ExclusiveMeansAlone(steps, Gate, t, u);
    ExclusiveMeansAlone(steps, State, t, u);
    var w := Final(World(map[], map[]), steps);
    if t in w.threads { assert ThreadGuarded(w, t) && RouteOwned(w.threads[t].held, c); }
  }
}
