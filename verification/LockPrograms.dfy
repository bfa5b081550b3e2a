/** The lock use of each operation of the supervisor, and that all of them keep the order. */
module LockPrograms {
  import opened Locks

  function Touch(l: Lock, m: Mode): seq<Action> {
    [Acquire(l, m), Release(l)]
  }

  function Times(n: nat, l: Lock): seq<Action> {
    if n == 0 then [] else Times(n - 1, l) + Touch(l, Exclusive)
  }

  /** Flip one route, record it, save, hand the former path to the drain list. */
  function Install(c: nat): seq<Action> {
    Touch(Pool, Shared) + Touch(Route(c), Exclusive) + Times(2, State) + Touch(DrainList, Exclusive)
  }

  /** Under a class lock: pick candidates, record the failures of some, install one. */
  function Recover(c: nat, failures: nat): seq<Action> {
    Touch(Pool, Shared) + Times(failures + 1, State) + Install(c)
  }

  function WithClass(c: nat, body: seq<Action>): seq<Action> {
    [Acquire(Class(c), Exclusive)] + body + [Release(Class(c))]
  }

  function UnderReadGate(body: seq<Action>): seq<Action> {
    [Acquire(Gate, Shared)] + body + [Release(Gate)]
  }

  function AcquireClasses(n: nat): seq<Action> {
    if n == 0 then [] else AcquireClasses(n - 1) + [Acquire(Class(n - 1), Exclusive)]
  }

  function ReadRoutes(n: nat): seq<Action> {
    if n == 0 then [] else ReadRoutes(n - 1) + Touch(Route(n - 1), Shared)
  }

  function AcquireRoutes(n: nat): seq<Action> {
    if n == 0 then [] else AcquireRoutes(n - 1) + [Acquire(Route(n - 1), Exclusive)]
  }

  function ReleaseRoutes(n: nat): seq<Action> {
    if n == 0 then [] else [Release(Route(n - 1))] + ReleaseRoutes(n - 1)
  }

  function ReleaseClasses(n: nat): seq<Action> {
    if n == 0 then [] else [Release(Class(n - 1))] + ReleaseClasses(n - 1)
  }

  function ManualSwitch(c: nat, failures: nat): seq<Action> {
    UnderReadGate(WithClass(c, Recover(c, failures)))
  }

  /** One health tick: book the verdict, then recover under the same read gate. */
  function HealthTick(c: nat, failures: nat): seq<Action> {
    UnderReadGate(WithClass(c, Touch(State, Exclusive)) + WithClass(c, Recover(c, failures)))
  }

  function ProbeCycle(results: nat): seq<Action> {
    UnderReadGate(Touch(Pool, Shared) + Times(results + 1, State))
  }

  function StatusSnapshot(): seq<Action> {
    Touch(Pool, Shared) + Touch(State, Exclusive) + Touch(Pool, Shared) + Touch(Pool, Shared)
  }

  function Publish(n: nat): seq<Action> {
    AcquireRoutes(n) + [Acquire(State, Exclusive)] + Touch(Pool, Exclusive) + [Release(State)] + ReleaseRoutes(n)
  }

  /** The gated part of a transaction, with gate and class locks held: read the statistics,
      plan, clone the state, publish, save, retire the former paths. */
  function Gated(n: nat): seq<Action> {
    Times(1, State) + ReadRoutes(n) + Times(1, State) + Publish(n) + Times(1, State) + Times(n, DrainList)
  }

  function UnderWriteGate(body: seq<Action>): seq<Action> {
    [Acquire(Gate, Exclusive)] + body + [Release(Gate)]
  }

  function SubscriptionTransaction(n: nat): seq<Action> {
    [Acquire(Transaction, Exclusive)]
    + (Touch(Pool, Shared) + Times(1, State) + UnderWriteGate(AcquireClasses(n) + Gated(n) + ReleaseClasses(n)))
    + [Release(Transaction)]
  }

  /** The egress observer never queues for the locks that explicit work needs. */
  function EgressRebuild(c: nat): seq<Action> {
    [TryAcquire(Transaction, Exclusive), TryAcquire(Gate, Exclusive), TryAcquire(Class(c), Exclusive)]
    + Install(c) + [Release(Class(c)), Release(Gate), Release(Transaction)]
  }

  function Teardown(n: nat): seq<Action> {
    if n == 0 then [] else Teardown(n - 1) + WithClass(n - 1, Touch(State, Exclusive))
  }

  // ---------------------------------------------------------------------------------

  predicate LastBefore(held: set<Lock>, l: Lock) {
    forall h | h in held :: Before(h, l)
  }

  /** A program that is in order and ends holding what it held at the start. */
  predicate Keeps(held: set<Lock>, xs: seq<Action>) {
    InOrder(held, xs) && After(held, xs) == held
  }

  lemma {:induction false} Composes(held: set<Lock>, xs: seq<Action>, ys: seq<Action>)
    requires InOrder(held, xs) && InOrder(After(held, xs), ys)
    ensures InOrder(held, xs + ys) && After(held, xs + ys) == After(After(held, xs), ys)
    decreases |xs|
  {
    if xs == [] {
      assert xs + ys == ys;
    } else {
      assert (xs + ys)[1..] == xs[1..] + ys;
      Composes(match xs[0] case Release(l) => held - {l} case a => held + {a.lock}, xs[1..], ys);
    }
  }

  lemma One(held: set<Lock>, a: Action)
    requires if a.Release? then a.lock in held else LastBefore(held, a.lock)
    ensures InOrder(held, [a]) && After(held, [a]) == if a.Release? then held - {a.lock} else held + {a.lock}
  {
    assert [a][1..] == [];
  }

  lemma TouchKeeps(held: set<Lock>, l: Lock, m: Mode)
    requires LastBefore(held, l)
    ensures Keeps(held, Touch(l, m))
  {
    assert l !in held;
    One(held, Acquire(l, m));
    One(held + {l}, Release(l));
    Composes(held, [Acquire(l, m)], [Release(l)]);
    assert [Acquire(l, m)] + [Release(l)] == Touch(l, m);
    assert held + {l} - {l} == held;
  }

  lemma {:induction false} TimesKeeps(held: set<Lock>, n: nat, l: Lock)
    requires LastBefore(held, l)
    ensures Keeps(held, Times(n, l))
  {
    if n > 0 {
      TimesKeeps(held, n - 1, l);
      TouchKeeps(held, l, Exclusive);
      Composes(held, Times(n - 1, l), Touch(l, Exclusive));
    }
  }

  lemma InstallKeeps(held: set<Lock>, c: nat)
    requires LastBefore(held, Route(c))
    ensures Keeps(held, Install(c))
  {
    TouchKeeps(held, Pool, Shared);
    TouchKeeps(held, Route(c), Exclusive);
    TimesKeeps(held, 2, State);
    TouchKeeps(held, DrainList, Exclusive);
    Composes(held, Touch(Pool, Shared), Touch(Route(c), Exclusive));
    Composes(held, Touch(Pool, Shared) + Touch(Route(c), Exclusive), Times(2, State));
    Composes(held, Touch(Pool, Shared) + Touch(Route(c), Exclusive) + Times(2, State), Touch(DrainList, Exclusive));
  }

  lemma RecoverKeeps(held: set<Lock>, c: nat, failures: nat)
    requires LastBefore(held, Route(c))
    ensures Keeps(held, Recover(c, failures))
  {
    TouchKeeps(held, Pool, Shared);
    TimesKeeps(held, failures + 1, State);
    InstallKeeps(held, c);
    Composes(held, Touch(Pool, Shared), Times(failures + 1, State));
    Composes(held, Touch(Pool, Shared) + Times(failures + 1, State), Install(c));
  }

  /** A program wrapped in one lock. */
  lemma WrapKeeps(held: set<Lock>, inner: set<Lock>, l: Lock, m: Mode, body: seq<Action>)
    requires inner == held + {l} && LastBefore(held, l) && Keeps(inner, body)
    ensures Keeps(held, [Acquire(l, m)] + body + [Release(l)])
  {
    assert l !in held && inner - {l} == held;
    One(held, Acquire(l, m));
    Composes(held, [Acquire(l, m)], body);
    One(inner, Release(l));
    Composes(held, [Acquire(l, m)] + body, [Release(l)]);
  }

  lemma ManualSwitchKeepsOrder(c: nat, failures: nat)
    ensures Disciplined({}, ManualSwitch(c, failures))
  {
    RecoverKeeps({Gate, Class(c)}, c, failures);
    WrapKeeps({Gate}, {Gate, Class(c)}, Class(c), Exclusive, Recover(c, failures));
    WrapKeeps({}, {Gate}, Gate, Shared, WithClass(c, Recover(c, failures)));
  }

  lemma HealthTickKeepsOrder(c: nat, failures: nat)
    ensures Disciplined({}, HealthTick(c, failures))
  {
    TouchKeeps({Gate, Class(c)}, State, Exclusive);
    RecoverKeeps({Gate, Class(c)}, c, failures);
    WrapKeeps({Gate}, {Gate, Class(c)}, Class(c), Exclusive, Touch(State, Exclusive));
    WrapKeeps({Gate}, {Gate, Class(c)}, Class(c), Exclusive, Recover(c, failures));
    Composes({Gate}, WithClass(c, Touch(State, Exclusive)), WithClass(c, Recover(c, failures)));
    WrapKeeps({}, {Gate}, Gate, Shared, WithClass(c, Touch(State, Exclusive)) + WithClass(c, Recover(c, failures)));
  }

  lemma ProbeCycleKeepsOrder(results: nat)
    ensures Disciplined({}, ProbeCycle(results))
  {
    TouchKeeps({Gate}, Pool, Shared);
    TimesKeeps({Gate}, results + 1, State);
    Composes({Gate}, Touch(Pool, Shared), Times(results + 1, State));
    WrapKeeps({}, {Gate}, Gate, Shared, Touch(Pool, Shared) + Times(results + 1, State));
  }

  lemma StatusSnapshotKeepsOrder()
    ensures Disciplined({}, StatusSnapshot())
  {
    TouchKeeps({}, Pool, Shared);
    TouchKeeps({}, State, Exclusive);
    Composes({}, Touch(Pool, Shared), Touch(State, Exclusive));
    Composes({}, Touch(Pool, Shared) + Touch(State, Exclusive), Touch(Pool, Shared));
    Composes({}, Touch(Pool, Shared) + Touch(State, Exclusive) + Touch(Pool, Shared), Touch(Pool, Shared));
  }

  function ClassesBelow(n: nat): set<Lock> { set i | 0 <= i < n :: Class(i) }
  function RoutesBelow(n: nat): set<Lock> { set i | 0 <= i < n :: Route(i) }

  lemma {:induction false} AcquireClassesGoesUp(held: set<Lock>, n: nat)
    requires forall h | h in held :: Tier(h) < 2
    ensures InOrder(held, AcquireClasses(n)) && After(held, AcquireClasses(n)) == held + ClassesBelow(n)
  {
    if n == 0 {
      assert held + ClassesBelow(0) == held;
    } else {
      AcquireClassesGoesUp(held, n - 1);
      assert held + ClassesBelow(n - 1) + {Class(n - 1)} == held + ClassesBelow(n);
      One(held + ClassesBelow(n - 1), Acquire(Class(n - 1), Exclusive));
      Composes(held, AcquireClasses(n - 1), [Acquire(Class(n - 1), Exclusive)]);
    }
  }

  lemma {:induction false} AcquireRoutesGoesUp(held: set<Lock>, n: nat)
    requires forall h | h in held :: Tier(h) < 3
    ensures InOrder(held, AcquireRoutes(n)) && After(held, AcquireRoutes(n)) == held + RoutesBelow(n)
  {
    if n == 0 {
      assert held + RoutesBelow(0) == held;
    } else {
      AcquireRoutesGoesUp(held, n - 1);
      assert held + RoutesBelow(n - 1) + {Route(n - 1)} == held + RoutesBelow(n);
      One(held + RoutesBelow(n - 1), Acquire(Route(n - 1), Exclusive));
      Composes(held, AcquireRoutes(n - 1), [Acquire(Route(n - 1), Exclusive)]);
    }
  }

  lemma {:induction false} ReadRoutesKeeps(held: set<Lock>, n: nat)
    requires forall h | h in held :: Tier(h) < 3
    ensures Keeps(held, ReadRoutes(n))
  {
    if n > 0 {
      ReadRoutesKeeps(held, n - 1);
      TouchKeeps(held, Route(n - 1), Shared);
      Composes(held, ReadRoutes(n - 1), Touch(Route(n - 1), Shared));
    }
  }

  lemma {:induction false} ReleaseRoutesGoesDown(held: set<Lock>, n: nat)
    requires forall h | h in held :: !h.Route?
    ensures InOrder(held + RoutesBelow(n), ReleaseRoutes(n)) && After(held + RoutesBelow(n), ReleaseRoutes(n)) == held
  {
    if n == 0 {
      assert held + RoutesBelow(0) == held;
    } else {
      assert held + RoutesBelow(n) - {Route(n - 1)} == held + RoutesBelow(n - 1);
      ReleaseRoutesGoesDown(held, n - 1);
      assert ReleaseRoutes(n)[1..] == ReleaseRoutes(n - 1);
    }
  }

  lemma {:induction false} ReleaseClassesGoesDown(held: set<Lock>, n: nat)
    requires forall h | h in held :: !h.Class?
    ensures InOrder(held + ClassesBelow(n), ReleaseClasses(n)) && After(held + ClassesBelow(n), ReleaseClasses(n)) == held
  {
    if n == 0 {
      assert held + ClassesBelow(0) == held;
    } else {
      assert held + ClassesBelow(n) - {Class(n - 1)} == held + ClassesBelow(n - 1);
      ReleaseClassesGoesDown(held, n - 1);
      assert ReleaseClasses(n)[1..] == ReleaseClasses(n - 1);
    }
  }

  lemma PublishKeeps(held: set<Lock>, n: nat)
    requires forall h | h in held :: Tier(h) < 3
    ensures Keeps(held, Publish(n))
  {
    AcquireRoutesGoesUp(held, n);
    TouchKeeps(held + RoutesBelow(n) + {State}, Pool, Exclusive);
    WrapKeeps(held + RoutesBelow(n), held + RoutesBelow(n) + {State}, State, Exclusive, Touch(Pool, Exclusive));
    ReleaseRoutesGoesDown(held, n);
    var middle := [Acquire(State, Exclusive)] + Touch(Pool, Exclusive) + [Release(State)];
    Composes(held, AcquireRoutes(n), middle);
    Composes(held, AcquireRoutes(n) + middle, ReleaseRoutes(n));
    assert Publish(n) == AcquireRoutes(n) + middle + ReleaseRoutes(n);
  }

  lemma GatedKeeps(held: set<Lock>, n: nat)
    requires forall h | h in held :: Tier(h) < 3
    ensures Keeps(held, Gated(n))
  {
    TimesKeeps(held, 1, State);
    ReadRoutesKeeps(held, n);
    PublishKeeps(held, n);
    TimesKeeps(held, n, DrainList);
    Composes(held, Times(1, State), ReadRoutes(n));
    Composes(held, Times(1, State) + ReadRoutes(n), Times(1, State));
    Composes(held, Times(1, State) + ReadRoutes(n) + Times(1, State), Publish(n));
    Composes(held, Times(1, State) + ReadRoutes(n) + Times(1, State) + Publish(n), Times(1, State));
    Composes(held, Times(1, State) + ReadRoutes(n) + Times(1, State) + Publish(n) + Times(1, State), Times(n, DrainList));
  }

  lemma ClassesKeep(held: set<Lock>, n: nat)
    requires forall h | h in held :: Tier(h) < 2
    ensures Keeps(held, AcquireClasses(n) + Gated(n) + ReleaseClasses(n))
  {
    AcquireClassesGoesUp(held, n);
    GatedKeeps(held + ClassesBelow(n), n);
    ReleaseClassesGoesDown(held, n);
    Composes(held, AcquireClasses(n), Gated(n));
    Composes(held, AcquireClasses(n) + Gated(n), ReleaseClasses(n));
  }

  lemma SubscriptionTransactionKeepsOrder(n: nat)
    ensures Disciplined({}, SubscriptionTransaction(n))
  {
    var classes := AcquireClasses(n) + Gated(n) + ReleaseClasses(n);
    ClassesKeep({Transaction, Gate}, n);
    WrapKeeps({Transaction}, {Transaction, Gate}, Gate, Exclusive, classes);
    TouchKeeps({Transaction}, Pool, Shared);
    TimesKeeps({Transaction}, 1, State);
    Composes({Transaction}, Touch(Pool, Shared), Times(1, State));
    Composes({Transaction}, Touch(Pool, Shared) + Times(1, State), UnderWriteGate(classes));
    WrapKeeps({}, {Transaction}, Transaction, Exclusive, Touch(Pool, Shared) + Times(1, State) + UnderWriteGate(classes));
  }

  lemma EgressRebuildKeepsOrder(c: nat)
    ensures Disciplined({}, EgressRebuild(c))
  {
    var held := {Transaction, Gate, Class(c)};
    ThreeTries(c);
    InstallKeeps(held, c);
    ThreeReleases(c);
    var tries := [TryAcquire(Transaction, Exclusive), TryAcquire(Gate, Exclusive), TryAcquire(Class(c), Exclusive)];
    Composes({}, tries, Install(c));
    Composes({}, tries + Install(c), [Release(Class(c)), Release(Gate), Release(Transaction)]);
  }

  lemma ThreeTries(c: nat)
    ensures var tries := [TryAcquire(Transaction, Exclusive), TryAcquire(Gate, Exclusive), TryAcquire(Class(c), Exclusive)];
      InOrder({}, tries) && After({}, tries) == {Transaction, Gate, Class(c)}
  {
    One({}, TryAcquire(Transaction, Exclusive));
    One({Transaction}, TryAcquire(Gate, Exclusive));
    One({Transaction, Gate}, TryAcquire(Class(c), Exclusive));
    assert {} + {Transaction} == {Transaction} && {Transaction} + {Gate} == {Transaction, Gate};
    Composes({}, [TryAcquire(Transaction, Exclusive)], [TryAcquire(Gate, Exclusive)]);
    Composes({}, [TryAcquire(Transaction, Exclusive)] + [TryAcquire(Gate, Exclusive)], [TryAcquire(Class(c), Exclusive)]);
    assert [TryAcquire(Transaction, Exclusive)] + [TryAcquire(Gate, Exclusive)] + [TryAcquire(Class(c), Exclusive)]
        == [TryAcquire(Transaction, Exclusive), TryAcquire(Gate, Exclusive), TryAcquire(Class(c), Exclusive)];
  }

  lemma ThreeReleases(c: nat)
    ensures var ends := [Release(Class(c)), Release(Gate), Release(Transaction)];
      InOrder({Transaction, Gate, Class(c)}, ends) && After({Transaction, Gate, Class(c)}, ends) == {}
  {
    One({Transaction, Gate, Class(c)}, Release(Class(c)));
    One({Transaction, Gate}, Release(Gate));
    One({Transaction}, Release(Transaction));
    assert {Transaction, Gate, Class(c)} - {Class(c)} == {Transaction, Gate} && {Transaction, Gate} - {Gate} == {Transaction};
    Composes({Transaction, Gate, Class(c)}, [Release(Class(c))], [Release(Gate)]);
    Composes({Transaction, Gate, Class(c)}, [Release(Class(c))] + [Release(Gate)], [Release(Transaction)]);
    assert [Release(Class(c))] + [Release(Gate)] + [Release(Transaction)] == [Release(Class(c)), Release(Gate), Release(Transaction)];
  }

  lemma {:induction false} TeardownKeepsOrder(n: nat)
    ensures Disciplined({}, Teardown(n) + Touch(DrainList, Exclusive) + Touch(State, Exclusive))
  {
    TeardownKeeps(n);
    TouchKeeps({}, DrainList, Exclusive);
    TouchKeeps({}, State, Exclusive);
    Composes({}, Teardown(n), Touch(DrainList, Exclusive));
    Composes({}, Teardown(n) + Touch(DrainList, Exclusive), Touch(State, Exclusive));
  }

  lemma {:induction false} TeardownKeeps(n: nat)
    ensures Keeps({}, Teardown(n))
  {
    if n > 0 {
      TeardownKeeps(n - 1);
      TouchKeeps({Class(n - 1)}, State, Exclusive);
      WrapKeeps({}, {Class(n - 1)}, Class(n - 1), Exclusive, Touch(State, Exclusive));
      Composes({}, Teardown(n - 1), WithClass(n - 1, Touch(State, Exclusive)));
    }
  }
}
