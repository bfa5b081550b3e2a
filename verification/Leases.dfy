/** Connection leases and the retirement of paths (src/listener.rs, src/supervisor.rs): a
    connection takes its lease while it reads the route, a switch flips the route, and the
    former path is stopped only after its counter, its hard cap or the shutdown allows it.
    Every access to a shared object is one step. */
module Leases {
  import opened Base

  type PlaneId = nat
  type ConnId = nat

  datatype Reason = Discarded | Drained | HardCap(since: nat) | ShutDown | Dropped | TornDown

  /** Where a plane is. `Outgoing` is the former path of a class, still a local value of the
      operation that replaced it. */
  datatype Place =
    | Staged | Current | Outgoing
    | Waiting(since: nat) | Draining(since: nat, deadline: nat)
    | Stopping(reason: Reason) | Stopped(reason: Reason)

  datatype Limits = Limits(grace: nat, extension: nat)

  datatype World = World(
    now: nat, shutdown: bool, listening: bool,
    routes: map<Name, PlaneId>, active: map<Name, PlaneId>,
    place: map<PlaneId, Place>, counter: map<PlaneId, nat>, leases: map<ConnId, PlaneId>)

  datatype Step =
    | Tick(to: nat)
    | Latch
    | Stage(plane: PlaneId)
    | Discard(plane: PlaneId)
    | Replace(className: Name, plane: PlaneId)
    | FlipRoute(className: Name)
    | FlipBatch(batch: map<Name, PlaneId>)
    | Spawn(plane: PlaneId)
    | Cancel(plane: PlaneId)
    | GraceOver(plane: PlaneId)
    | Decide(plane: PlaneId)
    | Halt(plane: PlaneId)
    | Accept(conn: ConnId, className: Name)
    | Release(conn: ConnId)
    | JoinListeners
    | TearDown(className: Name)

  function At(w: World, p: PlaneId): Option<Place> {
    Lookup(w.place, p)
  }

  predicate Routed(w: World, p: PlaneId) {
    exists c :: c in w.routes && w.routes[c] == p
  }

  function LeasesOn(leases: map<ConnId, PlaneId>, p: PlaneId): set<ConnId> {
    set conn | conn in leases && leases[conn] == p
  }

  /** The batch moves classes that are settled to staged planes, all different. */
  predicate BatchEntry(w: World, batch: map<Name, PlaneId>, c: Name) {
    c in batch ==> At(w, batch[c]) == Some(Staged) && Lookup(w.routes, c) == Lookup(w.active, c)
  }

  predicate Injective(m: map<Name, PlaneId>, c: Name, d: Name) {
    c in m && d in m && m[c] == m[d] ==> c == d
  }

  ghost predicate BatchReady(w: World, batch: map<Name, PlaneId>) {
    (forall c :: BatchEntry(w, batch, c)) && (forall c, d :: Injective(batch, c, d))
  }

  /** The drain tasks are released only after the workers and the listeners have been joined. A
      cancelled operation drops its former path only after the flip: there is no point of
      suspension between the two. */
  ghost predicate Enabled(w: World, step: Step) {
    match step
    case Tick(to) => to >= w.now
    case Latch => !w.listening
    case Stage(p) => p !in w.place
    case Discard(p) => At(w, p) == Some(Staged)
    case Replace(c, p) => w.listening && At(w, p) == Some(Staged) && Lookup(w.routes, c) == Lookup(w.active, c)
    case FlipRoute(c) => w.listening && c in w.active
    case FlipBatch(batch) => w.listening && BatchReady(w, batch)
    case Spawn(p) => At(w, p) == Some(Outgoing) && !Routed(w, p)
    case Cancel(p) => At(w, p) == Some(Outgoing) && !Routed(w, p)
    case GraceOver(p) => p in w.place && w.place[p].Waiting?
    case Decide(p) => p in w.place && w.place[p].Draining? && Verdict(w, p).Some?
    case Halt(p) => p in w.place && w.place[p].Stopping?
    case Accept(conn, c) => w.listening && conn !in w.leases && c in w.routes
    case Release(conn) => conn in w.leases
    case JoinListeners => w.leases == map[]
    case TearDown(c) => !w.listening && c in w.active
  }

  /** Why the drain task may leave its loop, looking at the latch first. */
  function Verdict(w: World, p: PlaneId): Option<Reason>
    requires p in w.place && w.place[p].Draining?
  {
    if w.shutdown then Some(ShutDown)
    else if p in w.counter && w.counter[p] == 0 then Some(Drained)
    else if w.now >= w.place[p].deadline then Some(HardCap(w.place[p].since))
    else None
  }

  function Former(w: World, batch: map<Name, PlaneId>): set<PlaneId> {
    set c | c in batch && c in w.active :: w.active[c]
  }

  function Moved(w: World, batch: map<Name, PlaneId>): map<PlaneId, Place> {
    map p | p in w.place ::
      if p in batch.Values then Current else if p in Former(w, batch) then Outgoing else w.place[p]
  }

  function Do(w: World, step: Step, limits: Limits): World
    requires Enabled(w, step)
  {
    match step
    case Tick(to) => w.(now := to)
    case Latch => w.(shutdown := true)
    case Stage(p) => w.(place := w.place[p := Staged], counter := w.counter[p := 0])
    case Discard(p) => w.(place := w.place[p := Stopped(Discarded)])
    case Replace(c, p) => w.(active := w.active[c := p], place := Moved(w, map[c := p]))
    case FlipRoute(c) => w.(routes := w.routes[c := w.active[c]])
    case FlipBatch(batch) => w.(active := w.active + batch, routes := w.routes + batch, place := Moved(w, batch))
    case Spawn(p) => w.(place := w.place[p := Waiting(w.now)])
    case Cancel(p) => w.(place := w.place[p := Stopped(Dropped)])
    case GraceOver(p) =>
      if w.shutdown || w.now >= w.place[p].since + limits.grace
      then w.(place := w.place[p := Draining(w.place[p].since, w.now + limits.extension)]) else w
    case Decide(p) => w.(place := w.place[p := Stopping(Verdict(w, p).value)])
    case Halt(p) => w.(place := w.place[p := Stopped(w.place[p].reason)])
    case Accept(conn, c) =>
      var p := w.routes[c];
      w.(leases := w.leases[conn := p], counter := w.counter[p := (if p in w.counter then w.counter[p] else 0) + 1])
    case Release(conn) =>
      var p := w.leases[conn];
      w.(leases := w.leases - {conn},
         counter := if p in w.counter && w.counter[p] > 0 then w.counter[p := w.counter[p] - 1] else w.counter)
    case JoinListeners => w.(listening := false)
    case TearDown(c) => w.(place := w.place[w.active[c] := Stopped(TornDown)], active := w.active - {c})
  }

  ghost predicate Runs(w: World, steps: seq<Step>, limits: Limits)
    decreases |steps|
  {
    steps == [] || (Enabled(w, steps[0]) && Runs(Do(w, steps[0], limits), steps[1..], limits))
  }

  function Final(w: World, steps: seq<Step>, limits: Limits): World
    requires Runs(w, steps, limits)
    decreases |steps|
  {
    if steps == [] then w else Final(Do(w, steps[0], limits), steps[1..], limits)
  }

  function Initial(): World {
    World(0, false, true, map[], map[], map[], map[], map[])
  }

  // ---------------------------------------------------------------------------------
  // The invariant.

  /** The counter of a plane is the number of its live leases. */
  predicate Counted(w: World, p: PlaneId) {
    && (p in w.place <==> p in w.counter)
    && (p in w.counter ==> w.counter[p] == |LeasesOn(w.leases, p)|)
    && (p !in w.counter ==> LeasesOn(w.leases, p) == {})
  }

  /** A reason to stop is justified, and no plane is stopped as idle while it is in use. */
  predicate Justified(w: World, p: PlaneId, r: Reason, limits: Limits) {
    match r
    case Discarded => LeasesOn(w.leases, p) == {}
    case Drained => LeasesOn(w.leases, p) == {}
    case TornDown => LeasesOn(w.leases, p) == {}
    case HardCap(since) => w.now >= since + limits.grace + limits.extension
    case ShutDown => LeasesOn(w.leases, p) == {}
    case Dropped => true
  }

  predicate PlaceOk(w: World, p: PlaneId, limits: Limits) {
    p in w.place ==>
      match w.place[p]
      case Staged => LeasesOn(w.leases, p) == {}
      case Waiting(since) => since <= w.now
      case Draining(since, deadline) =>
        (w.shutdown || deadline >= since + limits.grace + limits.extension) && deadline <= w.now + limits.extension
      case Stopping(r) => Justified(w, p, r, limits)
      case Stopped(r) => Justified(w, p, r, limits)
      case _ => true
  }

  /** While listeners serve, a route names the class's active plane, or the former one in the
      moment before the flip; either is unstopped. */
  predicate RouteOk(w: World, c: Name) {
    && (c in w.active ==> At(w, w.active[c]) == Some(Current))
    && (c in w.routes && w.listening ==> c in w.active && (w.routes[c] == w.active[c] || At(w, w.routes[c]) == Some(Outgoing)))
  }

  ghost predicate Inv(w: World, limits: Limits) {
    && (forall p :: Counted(w, p))
    && (forall p :: PlaceOk(w, p, limits))
    && (forall c :: RouteOk(w, c))
    && (forall c, d :: Injective(w.active, c, d))
    && (!w.listening ==> w.leases == map[])
    && (w.shutdown ==> !w.listening)
  }

  lemma OneMoreLease(leases: map<ConnId, PlaneId>, conn: ConnId, p: PlaneId, q: PlaneId)
    requires conn !in leases
    ensures LeasesOn(leases[conn := p], q) == LeasesOn(leases, q) + if q == p then {conn} else {}
  {}

  lemma OneLeaseLess(leases: map<ConnId, PlaneId>, conn: ConnId, q: PlaneId)
    requires conn in leases
    ensures LeasesOn(leases - {conn}, q) == LeasesOn(leases, q) - {conn}
    ensures conn in LeasesOn(leases, q) <==> leases[conn] == q
  {}

  lemma AcceptKeeps(w: World, conn: ConnId, c: Name, limits: Limits)
    requires Inv(w, limits) && Enabled(w, Accept(conn, c))
    ensures Inv(Do(w, Accept(conn, c), limits), limits)
  {
    var w', p := Do(w, Accept(conn, c), limits), w.routes[c];
    assert RouteOk(w, c) && Counted(w, p);
    forall q ensures Counted(w', q) && PlaceOk(w', q, limits) {
      OneMoreLease(w.leases, conn, p, q);
      assert Counted(w, q) && PlaceOk(w, q, limits);
    }
    forall d ensures RouteOk(w', d) { assert RouteOk(w, d); }
  }

  lemma ReleaseKeeps(w: World, conn: ConnId, limits: Limits)
    requires Inv(w, limits) && Enabled(w, Release(conn))
    ensures Inv(Do(w, Release(conn), limits), limits)
  {
    var w', p := Do(w, Release(conn), limits), w.leases[conn];
    assert conn in LeasesOn(w.leases, p) && Counted(w, p);
    forall q ensures Counted(w', q) && PlaceOk(w', q, limits) {
      OneLeaseLess(w.leases, conn, q);
      assert Counted(w, q) && PlaceOk(w, q, limits);
    }
    forall d ensures RouteOk(w', d) { assert RouteOk(w, d); }
  }

  /** Steps that move planes between places and touch no lease. */
  lemma MoveKeeps(w: World, step: Step, limits: Limits)
    requires Inv(w, limits) && Enabled(w, step)
    requires step.Stage? || step.Discard? || step.Spawn? || step.Cancel?
    ensures Inv(Do(w, step, limits), limits)
  {
    var w' := Do(w, step, limits);
    forall p ensures Counted(w', p) && PlaceOk(w', p, limits) { assert Counted(w, p) && PlaceOk(w, p, limits); }
    forall c ensures RouteOk(w', c) { assert RouteOk(w, c); }
    forall c, d ensures Injective(w'.active, c, d) { assert Injective(w.active, c, d); }
  }

  lemma DrainKeeps(w: World, step: Step, limits: Limits)
    requires Inv(w, limits) && Enabled(w, step) && (step.GraceOver? || step.Decide? || step.Halt?)
    ensures Inv(Do(w, step, limits), limits)
  {
    var w' := Do(w, step, limits);
    forall p ensures Counted(w', p) && PlaceOk(w', p, limits) { assert Counted(w, p) && PlaceOk(w, p, limits); }
    forall c ensures RouteOk(w', c) { assert RouteOk(w, c); }
  }

  lemma ClockKeeps(w: World, step: Step, limits: Limits)
    requires Inv(w, limits) && Enabled(w, step) && (step.Tick? || step.Latch? || step.JoinListeners?)
    ensures Inv(Do(w, step, limits), limits)
  {
    var w' := Do(w, step, limits);
    forall p ensures Counted(w', p) && PlaceOk(w', p, limits) { assert Counted(w, p) && PlaceOk(w, p, limits); }
    forall c ensures RouteOk(w', c) { assert RouteOk(w, c); }
  }

  lemma FlipRouteKeeps(w: World, c: Name, limits: Limits)
    requires Inv(w, limits) && Enabled(w, FlipRoute(c))
    ensures Inv(Do(w, FlipRoute(c), limits), limits)
  {
    var w' := Do(w, FlipRoute(c), limits);
    forall p ensures Counted(w', p) && PlaceOk(w', p, limits) { assert Counted(w, p) && PlaceOk(w, p, limits); }
    forall d ensures RouteOk(w', d) { assert RouteOk(w, d); }
  }

  /** What a batch does to the places and to the active planes. */
  lemma BatchLeavesOthers(w: World, batch: map<Name, PlaneId>, limits: Limits, p: PlaneId)
    requires Inv(w, limits) && BatchReady(w, batch) && p in w.place && !w.place[p].Staged? && !w.place[p].Current?
    ensures Moved(w, batch)[p] == w.place[p]
  {
    forall c | c in batch ensures batch[c] != p { assert BatchEntry(w, batch, c); }
    forall c | c in w.active ensures w.active[c] != p { assert RouteOk(w, c); }
  }

  lemma BatchIsCurrent(w: World, batch: map<Name, PlaneId>, limits: Limits, c: Name)
    requires Inv(w, limits) && BatchReady(w, batch) && c in w.active + batch
    ensures Lookup(Moved(w, batch), (w.active + batch)[c]) == Some(Current)
  {
    assert RouteOk(w, c) && BatchEntry(w, batch, c);
    if c !in batch {
      forall d | d in batch && d in w.active ensures w.active[d] != w.active[c] { assert Injective(w.active, c, d); }
    }
  }

  lemma BatchIsInjective(w: World, batch: map<Name, PlaneId>, limits: Limits, c: Name, d: Name)
    requires Inv(w, limits) && BatchReady(w, batch)
    ensures Injective(w.active + batch, c, d)
  {
    assert Injective(w.active, c, d) && Injective(batch, c, d);
    assert BatchEntry(w, batch, c) && BatchEntry(w, batch, d) && RouteOk(w, c) && RouteOk(w, d);
  }

  lemma BatchKeepsPlaces(w: World, batch: map<Name, PlaneId>, limits: Limits, p: PlaneId)
    requires Inv(w, limits) && BatchReady(w, batch)
    ensures Counted(w.(place := Moved(w, batch)), p) && PlaceOk(w.(place := Moved(w, batch)), p, limits)
  {
    assert Counted(w, p) && PlaceOk(w, p, limits);
  }

  lemma FlipBatchKeeps(w: World, batch: map<Name, PlaneId>, limits: Limits)
    requires Inv(w, limits) && Enabled(w, FlipBatch(batch))
    ensures Inv(Do(w, FlipBatch(batch), limits), limits)
  {
    var w' := Do(w, FlipBatch(batch), limits);
    forall p ensures Counted(w', p) && PlaceOk(w', p, limits) { BatchKeepsPlaces(w, batch, limits, p); }
    forall c ensures RouteOk(w', c) {
      assert RouteOk(w, c);
      if c in w'.active { BatchIsCurrent(w, batch, limits, c); }
      if c in w.routes && At(w, w.routes[c]) == Some(Outgoing) { BatchLeavesOthers(w, batch, limits, w.routes[c]); }
    }
    forall c, d ensures Injective(w'.active, c, d) { BatchIsInjective(w, batch, limits, c, d); }
  }

  lemma ReplaceIsBatch(w: World, c: Name, p: PlaneId)
    requires Enabled(w, Replace(c, p))
    ensures BatchReady(w, map[c := p]) && w.active + map[c := p] == w.active[c := p]
    ensures c in w.active ==> w.active[c] in Former(w, map[c := p])
  {
    forall d ensures BatchEntry(w, map[c := p], d) {}
    forall d, e ensures Injective(map[c := p], d, e) {}
  }

  lemma ReplaceKeeps(w: World, c: Name, p: PlaneId, limits: Limits)
    requires Inv(w, limits) && Enabled(w, Replace(c, p))
    ensures Inv(Do(w, Replace(c, p), limits), limits)
  {
    var w', batch := Do(w, Replace(c, p), limits), map[c := p];
    ReplaceIsBatch(w, c, p);
    forall q ensures Counted(w', q) && PlaceOk(w', q, limits) { BatchKeepsPlaces(w, batch, limits, q); }
    forall d ensures RouteOk(w', d) {
      assert RouteOk(w, d);
      if d in w'.active { BatchIsCurrent(w, batch, limits, d); }
      if d in w.routes && At(w, w.routes[d]) == Some(Outgoing) { BatchLeavesOthers(w, batch, limits, w.routes[d]); }
    }
    forall d, e ensures Injective(w'.active, d, e) { BatchIsInjective(w, batch, limits, d, e); }
  }

  lemma TearDownKeeps(w: World, c: Name, limits: Limits)
    requires Inv(w, limits) && Enabled(w, TearDown(c))
    ensures Inv(Do(w, TearDown(c), limits), limits)
  {
    var w' := Do(w, TearDown(c), limits);
    assert RouteOk(w, c);
    forall p ensures Counted(w', p) && PlaceOk(w', p, limits) { assert Counted(w, p) && PlaceOk(w, p, limits); }
    forall d ensures RouteOk(w', d) { assert RouteOk(w, d) && Injective(w.active, c, d); }
    forall d, e ensures Injective(w'.active, d, e) { assert Injective(w.active, d, e); }
  }

  lemma StepKeeps(w: World, step: Step, limits: Limits)
    requires Inv(w, limits) && Enabled(w, step)
    ensures Inv(Do(w, step, limits), limits)
  {
    match step
    case Accept(conn, c) => AcceptKeeps(w, conn, c, limits);
    case Release(conn) => ReleaseKeeps(w, conn, limits);
    case FlipRoute(c) => FlipRouteKeeps(w, c, limits);
    case FlipBatch(batch) => FlipBatchKeeps(w, batch, limits);
    case Replace(c, p) => ReplaceKeeps(w, c, p, limits);
    case Tick(_) => ClockKeeps(w, step, limits);
    case Latch => ClockKeeps(w, step, limits);
    case JoinListeners => ClockKeeps(w, step, limits);
    case TearDown(c) => TearDownKeeps(w, c, limits);
    case GraceOver(_) => DrainKeeps(w, step, limits);
    case Decide(_) => DrainKeeps(w, step, limits);
    case Halt(_) => DrainKeeps(w, step, limits);
    case _ => MoveKeeps(w, step, limits);
  }

  lemma {:induction false} RunKeeps(w: World, steps: seq<Step>, limits: Limits)
    requires Inv(w, limits) && Runs(w, steps, limits)
    ensures Inv(Final(w, steps, limits), limits)
    decreases |steps|
  {
    if steps != [] {
      StepKeeps(w, steps[0], limits);
      RunKeeps(Do(w, steps[0], limits), steps[1..], limits);
    }
  }

  lemma InitialInv(limits: Limits)
    ensures Inv(Initial(), limits)
  {
    forall p ensures Counted(Initial(), p) && PlaceOk(Initial(), p, limits) {}
  }

  // ---------------------------------------------------------------------------------
  // What the invariant gives.

  /** The route of no class names the plane, and none ever will. */
  predicate Retired(w: World, p: PlaneId) {
    p in w.place && match w.place[p]
      case Waiting(_) => true
      case Draining(_, _) => true
      case Stopping(_) => true
      case Stopped(_) => true
      case Outgoing => !Routed(w, p)
      case _ => false
  }

  /** While listeners serve, what a connection captures is an unstopped plane. */
  lemma RouteNamesUnstoppedPlane(steps: seq<Step>, limits: Limits, c: Name)
    requires Runs(Initial(), steps, limits)
    ensures var w := Final(Initial(), steps, limits);
      w.listening && c in w.routes ==>
        w.routes[c] in w.place && (w.place[w.routes[c]].Current? || w.place[w.routes[c]].Outgoing?)
  {
    InitialInv(limits);
    RunKeeps(Initial(), steps, limits);
    assert RouteOk(Final(Initial(), steps, limits), c);
  }

  lemma CounterIsLiveLeases(steps: seq<Step>, limits: Limits, p: PlaneId)
    requires Runs(Initial(), steps, limits)
    ensures var w := Final(Initial(), steps, limits);
      p in w.place ==> p in w.counter && w.counter[p] == |LeasesOn(w.leases, p)|
  {
    InitialInv(limits);
    RunKeeps(Initial(), steps, limits);
    assert Counted(Final(Initial(), steps, limits), p);
  }

  lemma RetiredStays(w: World, step: Step, limits: Limits, p: PlaneId)
    requires Inv(w, limits) && Enabled(w, step) && Retired(w, p)
    ensures var w' := Do(w, step, limits);
      Retired(w', p) && LeasesOn(w'.leases, p) <= LeasesOn(w.leases, p)
  {
    match step
    case Replace(c, q) =>
      ReplaceIsBatch(w, c, q);
      BatchLeavesOthers(w, map[c := q], limits, p);
    case FlipBatch(batch) =>
      BatchLeavesOthers(w, batch, limits, p);
      forall c | c in w.routes ensures w.routes[c] != p { assert RouteOk(w, c); }
      BatchRoutesNone(w, batch, p);
    case FlipRoute(c) => assert RouteOk(w, c);
    case TearDown(c) => assert RouteOk(w, c);
    case Accept(conn, c) =>
      assert RouteOk(w, c);
      OneMoreLease(w.leases, conn, w.routes[c], p);
    case _ =>
  }

  lemma BatchRoutesNone(w: World, batch: map<Name, PlaneId>, p: PlaneId)
    requires BatchReady(w, batch) && !Routed(w, p) && At(w, p) != Some(Staged)
    ensures !Routed(w.(routes := w.routes + batch), p)
  {
    forall c | c in w.routes + batch ensures (w.routes + batch)[c] != p { assert BatchEntry(w, batch, c); }
  }

  /** Once no route names a path, its counter never rises again. */
  lemma {:induction false} CounterNeverRises(w: World, steps: seq<Step>, limits: Limits, p: PlaneId)
    requires Inv(w, limits) && Runs(w, steps, limits) && Retired(w, p)
    ensures var w' := Final(w, steps, limits);
      Retired(w', p) && p in w'.counter && p in w.counter && w'.counter[p] <= w.counter[p]
    decreases |steps|
  {
    RunKeeps(w, steps, limits);
    assert Counted(w, p) && Counted(Final(w, steps, limits), p);
    if steps != [] {
      StepKeeps(w, steps[0], limits);
      RetiredStays(w, steps[0], limits, p);
      CounterNeverRises(Do(w, steps[0], limits), steps[1..], limits, p);
      assert Counted(Do(w, steps[0], limits), p);
      CardinalityGrows(LeasesOn(Do(w, steps[0], limits).leases, p), LeasesOn(w.leases, p));
    }
  }

  lemma CardinalityGrows(a: set<ConnId>, b: set<ConnId>)
    requires a <= b
    ensures |a| <= |b|
  {
    assert b == a + (b - a);
  }

  predicate NeverCancels(steps: seq<Step>) {
    forall i | 0 <= i < |steps| :: !steps[i].Cancel?
  }

  predicate NotDropped(w: World, p: PlaneId) {
    p in w.place ==> w.place[p] != Stopped(Dropped) && w.place[p] != Stopping(Dropped)
  }

  lemma StepDropsNothing(w: World, step: Step, limits: Limits, p: PlaneId)
    requires Enabled(w, step) && !step.Cancel? && NotDropped(w, p)
    ensures NotDropped(Do(w, step, limits), p)
  {}

  lemma {:induction false} NothingDropped(w: World, steps: seq<Step>, limits: Limits, p: PlaneId)
    requires Runs(w, steps, limits) && NeverCancels(steps) && NotDropped(w, p)
    ensures NotDropped(Final(w, steps, limits), p)
    decreases |steps|
  {
    if steps != [] {
      StepDropsNothing(w, steps[0], limits, p);
      NothingDropped(Do(w, steps[0], limits), steps[1..], limits, p);
    }
  }

  /** A plane stopped under a live connection had used up its hard cap, or was dropped by a
      cancelled operation; where nothing is cancelled, only the hard cap stops one. */
  lemma StopIsJustified(steps: seq<Step>, limits: Limits, p: PlaneId)
    requires Runs(Initial(), steps, limits)
    ensures var w := Final(Initial(), steps, limits);
      At(w, p).Some? && At(w, p).value.Stopped? && LeasesOn(w.leases, p) != {} ==>
        match At(w, p).value.reason
        case HardCap(since) => w.now >= since + limits.grace + limits.extension
        case Dropped => !NeverCancels(steps)
        case _ => false
  {
    InitialInv(limits);
    RunKeeps(Initial(), steps, limits);
    assert PlaceOk(Final(Initial(), steps, limits), p, limits);
    if NeverCancels(steps) {
      NothingDropped(Initial(), steps, limits, p);
    }
  }

  /** Whether a retired path past its grace may stop: exactly when it carries no connection, its
      extension is over, or the drain tasks have been released; and the reason says which. The
      extension ends no later than `extension` from now. */
  lemma DrainDecidesExactly(steps: seq<Step>, limits: Limits, p: PlaneId)
    requires Runs(Initial(), steps, limits)
    requires var w := Final(Initial(), steps, limits); p in w.place && w.place[p].Draining?
    ensures var w := Final(Initial(), steps, limits);
      var idle, over := LeasesOn(w.leases, p) == {}, w.now >= w.place[p].deadline;
      && (Enabled(w, Decide(p)) <==> w.shutdown || idle || over)
      && (Enabled(w, Decide(p)) ==>
            At(Do(w, Decide(p), limits), p)
            == Some(Stopping(if w.shutdown then ShutDown else if idle then Drained else HardCap(w.place[p].since))))
      && w.place[p].deadline <= w.now + limits.extension
  {
    InitialInv(limits);
    RunKeeps(Initial(), steps, limits);
    var w := Final(Initial(), steps, limits);
    assert Counted(w, p) && PlaceOk(w, p, limits);
    NoneCounted(LeasesOn(w.leases, p));
  }

  lemma NoneCounted(leases: set<ConnId>)
    ensures |leases| == 0 <==> leases == {}
  {}

  /** The drain task alone, whatever the clients do: it never waits longer than grace and
      extension, and not at all after the grace once the path is idle. */
  predicate OnlyDrains(steps: seq<Step>, p: PlaneId) {
    forall i | 0 <= i < |steps| :: steps[i].Tick? || steps[i] == GraceOver(p) || steps[i] == Decide(p) || steps[i] == Halt(p)
  }

  function Later(a: nat, b: nat): nat {
    if a < b then b else a
  }

  lemma DrainingPathStops(w: World, limits: Limits, p: PlaneId) returns (steps: seq<Step>)
    requires Inv(w, limits) && p in w.place && w.place[p].Draining?
    ensures OnlyDrains(steps, p) && Runs(w, steps, limits)
    ensures var w' := Final(w, steps, limits);
      && w'.leases == w.leases && At(w', p).Some? && At(w', p).value.Stopped?
      && (LeasesOn(w.leases, p) == {} ==> w'.now == w.now)
      && w'.now <= Later(w.now, w.place[p].deadline)
  {
    assert Counted(w, p);
    NoneCounted(LeasesOn(w.leases, p));
    if Verdict(w, p).Some? {
      var w1 := Do(w, Decide(p), limits);
      RunOne(w1, Halt(p), [], limits);
      RunOne(w, Decide(p), [Halt(p)] + [], limits);
      steps := [Decide(p)] + ([Halt(p)] + []);
    } else {
      var w1 := Do(w, Tick(w.place[p].deadline), limits);
      var w2 := Do(w1, Decide(p), limits);
      RunThree(w, Tick(w.place[p].deadline), Decide(p), Halt(p), [], limits);
      steps := [Tick(w.place[p].deadline)] + ([Decide(p)] + ([Halt(p)] + []));
    }
  }

  /** From every reachable world a retired path can be stopped by its drain task alone: as soon as
      its grace is over if it carries no connection, and in any case within the extension after
      that, even if its clients never leave. */
  lemma RetiredPathStops(before: seq<Step>, limits: Limits, p: PlaneId) returns (steps: seq<Step>)
    requires Runs(Initial(), before, limits)
    requires var w := Final(Initial(), before, limits); p in w.place && w.place[p].Waiting?
    ensures var w := Final(Initial(), before, limits);
      && OnlyDrains(steps, p) && Runs(w, steps, limits)
      && var w' := Final(w, steps, limits);
         && w'.leases == w.leases && At(w', p).Some? && At(w', p).value.Stopped?
         && (LeasesOn(w.leases, p) == {} ==> w'.now == Later(w.now, w.place[p].since + limits.grace))
         && w'.now <= Later(w.now, w.place[p].since + limits.grace) + limits.extension
  {
    InitialInv(limits);
    RunKeeps(Initial(), before, limits);
    var w := Final(Initial(), before, limits);
    var over := Later(w.now, w.place[p].since + limits.grace);
    var w1 := Do(w, Tick(over), limits);
    var w2 := Do(w1, GraceOver(p), limits);
    StepKeeps(w, Tick(over), limits);
    StepKeeps(w1, GraceOver(p), limits);
    var rest := DrainingPathStops(w2, limits, p);
    RunOne(w1, GraceOver(p), rest, limits);
    RunOne(w, Tick(over), [GraceOver(p)] + rest, limits);
    steps := [Tick(over)] + ([GraceOver(p)] + rest);
  }

  /** What may have become of a path that was handed to its drain task at time `t`. */
  predicate HandedOver(w: World, p: PlaneId, t: nat, limits: Limits) {
    p in w.place && t <= w.now && match w.place[p]
      case Waiting(since) => since == t
      case Draining(since, deadline) => since == t && (w.shutdown || (w.now >= t + limits.grace && deadline >= t + limits.grace + limits.extension))
      case Stopping(r) => MayStop(w, r, t, limits)
      case Stopped(r) => MayStop(w, r, t, limits)
      case _ => false
  }

  predicate MayStop(w: World, r: Reason, t: nat, limits: Limits) {
    w.shutdown || (r.Drained? && w.now >= t + limits.grace) || (r.HardCap? && w.now >= t + limits.grace + limits.extension)
  }

  lemma HandedOverStays(w: World, step: Step, limits: Limits, p: PlaneId, t: nat)
    requires Inv(w, limits) && Enabled(w, step) && HandedOver(w, p, t, limits)
    ensures HandedOver(Do(w, step, limits), p, t, limits)
  {
    match step
    case Replace(c, q) =>
      ReplaceIsBatch(w, c, q);
      BatchLeavesOthers(w, map[c := q], limits, p);
    case FlipBatch(batch) => BatchLeavesOthers(w, batch, limits, p);
    case TearDown(c) => assert RouteOk(w, c);
    case _ =>
  }

  lemma {:induction false} HandedOverOverRuns(w: World, steps: seq<Step>, limits: Limits, p: PlaneId, t: nat)
    requires Inv(w, limits) && Runs(w, steps, limits) && HandedOver(w, p, t, limits)
    ensures HandedOver(Final(w, steps, limits), p, t, limits)
    decreases |steps|
  {
    if steps != [] {
      StepKeeps(w, steps[0], limits);
      HandedOverStays(w, steps[0], limits, p, t);
      HandedOverOverRuns(Do(w, steps[0], limits), steps[1..], limits, p, t);
    }
  }

  /** Before the shutdown a retired path keeps running for the whole grace after it was handed over,
      and while it carries a connection for the extension too. */
  lemma GraceIsKept(before: seq<Step>, after: seq<Step>, limits: Limits, p: PlaneId)
    requires Runs(Initial(), before, limits) && Enabled(Final(Initial(), before, limits), Spawn(p))
    requires Runs(Do(Final(Initial(), before, limits), Spawn(p), limits), after, limits)
    ensures var t, w := Final(Initial(), before, limits).now, Final(Do(Final(Initial(), before, limits), Spawn(p), limits), after, limits);
      && p in w.place
      && (!w.shutdown && w.now < t + limits.grace ==> w.place[p].Waiting?)
      && (!w.shutdown && w.now < t + limits.grace + limits.extension && LeasesOn(w.leases, p) != {} ==> !w.place[p].Stopped?)
  {
    InitialInv(limits);
    RunKeeps(Initial(), before, limits);
    var w := Final(Initial(), before, limits);
    StepKeeps(w, Spawn(p), limits);
    RunKeeps(Do(w, Spawn(p), limits), after, limits);
    HandedOverOverRuns(Do(w, Spawn(p), limits), after, limits, p, w.now);
    assert PlaceOk(Final(Do(w, Spawn(p), limits), after, limits), p, limits);
  }

  lemma RunOne(w: World, step: Step, rest: seq<Step>, limits: Limits)
    requires Enabled(w, step) && Runs(Do(w, step, limits), rest, limits)
    ensures Runs(w, [step] + rest, limits) && Final(w, [step] + rest, limits) == Final(Do(w, step, limits), rest, limits)
  {
    assert ([step] + rest)[1..] == rest;
  }

  lemma RunThree(w: World, a: Step, b: Step, c: Step, rest: seq<Step>, limits: Limits)
    requires Enabled(w, a) && Enabled(Do(w, a, limits), b) && Enabled(Do(Do(w, a, limits), b, limits), c)
    requires Runs(Do(Do(Do(w, a, limits), b, limits), c, limits), rest, limits)
    ensures var steps := [a] + ([b] + ([c] + rest));
      Runs(w, steps, limits) && Final(w, steps, limits) == Final(Do(Do(Do(w, a, limits), b, limits), c, limits), rest, limits)
  {
    RunOne(Do(Do(w, a, limits), b, limits), c, rest, limits);
    RunOne(Do(w, a, limits), b, [c] + rest, limits);
    RunOne(w, a, [b] + ([c] + rest), limits);
  }

  /** Class `c` has been moved onto a new plane `p`. */
  function MovedOnto(w: World, c: Name, p: PlaneId): World {
    w.(routes := w.routes[c := p], active := w.active[c := p], counter := w.counter[p := 0],
       place := if c in w.active then w.place[w.active[c] := Outgoing][p := Current] else w.place[p := Current])
  }

  lemma OneEntry(w: World, c: Name, p: PlaneId)
    ensures map[c := p].Values == {p}
    ensures Former(w, map[c := p]) == if c in w.active then {w.active[c]} else {}
  {
    var m := map[c := p];
    assert c in m && m[c] == p;
    assert p in m.Values;
  }

  lemma MoveOnto(w: World, c: Name, p: PlaneId, rest: seq<Step>, limits: Limits)
    requires w.listening && p !in w.place && Lookup(w.routes, c) == Lookup(w.active, c)
    requires c in w.active ==> w.active[c] in w.place
    requires Runs(MovedOnto(w, c, p), rest, limits)
    ensures var steps := [Stage(p)] + ([Replace(c, p)] + ([FlipRoute(c)] + rest));
      Runs(w, steps, limits) && Final(w, steps, limits) == Final(MovedOnto(w, c, p), rest, limits)
  {
    var w1 := Do(w, Stage(p), limits);
    var w2 := Do(w1, Replace(c, p), limits);
    OneEntry(w1, c, p);
    assert w2.place == MovedOnto(w, c, p).place;
    assert Do(w2, FlipRoute(c), limits) == MovedOnto(w, c, p);
    RunThree(w, Stage(p), Replace(c, p), FlipRoute(c), rest, limits);
  }

  /** A cancellation between publication and hand-over really drops a path in use: one
      client is connected when its class moves on, and its path stops at once, without
      grace, hard cap or shutdown. */
  lemma CancellationDropsLeasedPath(c: Name, conn: ConnId, limits: Limits)
    ensures var again := [Stage(1)] + ([Replace(c, 1)] + ([FlipRoute(c)] + ([Cancel(0)] + [])));
      var steps := [Stage(0)] + ([Replace(c, 0)] + ([FlipRoute(c)] + ([Accept(conn, c)] + again)));
      && Runs(Initial(), steps, limits)
      && var w := Final(Initial(), steps, limits);
         At(w, 0) == Some(Stopped(Dropped)) && w.leases == map[conn := 0] && !w.shutdown && w.now == 0
  {
    var again := [Stage(1)] + ([Replace(c, 1)] + ([FlipRoute(c)] + ([Cancel(0)] + [])));
    var w1 := MovedOnto(Initial(), c, 0);
    var w2 := Do(w1, Accept(conn, c), limits);
    var w3 := MovedOnto(w2, c, 1);
    assert At(w3, 0) == Some(Outgoing) && !Routed(w3, 0);
    RunOne(w3, Cancel(0), [], limits);
    MoveOnto(w2, c, 1, [Cancel(0)] + [], limits);
    RunOne(w1, Accept(conn, c), again, limits);
    MoveOnto(Initial(), c, 0, [Accept(conn, c)] + again, limits);
  }
}
