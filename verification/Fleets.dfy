/** Data planes and who owns them (src/supervisor.rs): every started plane is staged for a
    class, serving one, retiring, or stopped, and a class route names the addresses of the
    checked plane that serves it. Each operation is a function on the fleet. */
module Fleets {
  import opened Base
  import opened Manifests
  import opened Publication

  function NextGeneration(g: nat): nat {
    (g + 1) % GENERATIONS
  }

  /** One generation on: the counter is 64 bits wide and starts again after its last value. */
  predicate OneOn(before: nat, after: nat) {
    after == if before + 1 == GENERATIONS then 0 else before + 1
  }

  lemma NextIsOneOn(g: nat)
    requires g < GENERATIONS
    ensures OneOn(g, NextGeneration(g)) && NextGeneration(g) < GENERATIONS
  {}

  /** `gs` are the generations of successive publications. */
  predicate Successive(gs: seq<nat>) {
    && (forall i | 0 <= i < |gs| :: gs[i] < GENERATIONS)
    && (forall i | 0 <= i < |gs| - 1 :: OneOn(gs[i], gs[i + 1]))
  }

  lemma {:induction false} GenerationsCount(gs: seq<nat>, i: nat)
    requires Successive(gs) && i < |gs|
    ensures gs[i] == (gs[0] + i) % GENERATIONS
  {
    if i > 0 {
      GenerationsCount(gs, i - 1);
      assert OneOn(gs[i - 1], gs[i - 1 + 1]);
    }
  }

  /** The generation counts publications modulo 2^64, so two of them agree exactly when a multiple
      of 2^64 publications lies between them: fewer than that many are pairwise different. */
  lemma GenerationsRepeatExactly(gs: seq<nat>, i: nat, j: nat)
    requires Successive(gs) && i < j < |gs|
    ensures gs[i] == gs[j] <==> (j - i) % GENERATIONS == 0
    ensures |gs| <= GENERATIONS ==> gs[i] != gs[j]
  {
    GenerationsCount(gs, i);
    GenerationsCount(gs, j);
    SameRemainder(gs[0] + i, gs[0] + j);
  }

  lemma SameRemainder(a: nat, b: nat)
    requires a <= b
    ensures a % GENERATIONS == b % GENERATIONS <==> (b - a) % GENERATIONS == 0
  {
    var qa, qb := a / GENERATIONS, b / GENERATIONS;
    assert b - a == (qb - qa) * GENERATIONS + (b % GENERATIONS - a % GENERATIONS);
  }

  datatype Plane = Plane(id: nat, node: Node, socks: nat, http: nat)

  /** What a listener sees. `path` is the plane whose connection counter it hands out. */
  datatype Route = Route(
    socks: Option<nat>, http: Option<nat>, node: Name, generation: nat, path: Option<nat>, traffic: Name)

  datatype ClassRt = ClassRt(name: Name, active: Option<Plane>, route: Route, healthFailures: nat, recoveryFailures: nat)

  datatype Owner = Staging(index: nat) | Serving(index: nat) | Retiring | Stopped

  /** The plane passed its pre-check against the target of this class. */
  datatype Check = Check(plane: nat, className: Name)

  datatype Fleet = Fleet(
    next: nat, classes: seq<ClassRt>, staged: seq<Plane>, draining: map<nat, Plane>,
    owner: map<nat, Owner>, checked: set<Check>)

  predicate ServesItsPlane(rt: ClassRt, checked: set<Check>) {
    match rt.active
    case None => rt.route.path.None? && rt.route.socks.None? && rt.route.http.None?
    case Some(p) =>
      && rt.route.path == Some(p.id) && rt.route.socks == Some(p.socks) && rt.route.http == Some(p.http)
      && rt.route.node == p.node.name && Check(p.id, rt.name) in checked
  }

  predicate OwnerOk(f: Fleet, id: nat) {
    && (id in f.owner <==> id < f.next)
    && (id in f.owner ==>
          match f.owner[id]
          case Staging(k) => k < |f.staged| && f.staged[k].id == id
          case Serving(c) => c < |f.classes| && f.classes[c].active.Some? && f.classes[c].active.value.id == id
          case Retiring => id in f.draining
          case Stopped => true)
  }

  predicate ClassOk(f: Fleet, c: nat) {
    c < |f.classes| ==>
      && ServesItsPlane(f.classes[c], f.checked)
      && (f.classes[c].active.Some? ==> Lookup(f.owner, f.classes[c].active.value.id) == Some(Serving(c)))
  }

  predicate StagedOk(f: Fleet, k: nat) {
    k < |f.staged| ==> Lookup(f.owner, f.staged[k].id) == Some(Staging(k))
  }

  predicate DrainingOk(f: Fleet, id: nat) {
    id in f.draining ==> f.draining[id].id == id && Lookup(f.owner, id) == Some(Retiring)
  }

  predicate ClassesApart(classes: seq<ClassRt>) {
    forall i, j | 0 <= i < j < |classes| :: classes[i].name != classes[j].name
  }

  /** Every plane has exactly one owner, the owners agree, and no class occurs twice. */
  ghost predicate Conserved(f: Fleet) {
    && ClassesApart(f.classes)
    && (forall id :: OwnerOk(f, id))
    && (forall c :: ClassOk(f, c))
    && (forall k :: StagedOk(f, k))
    && (forall id :: DrainingOk(f, id))
  }

  // ---------------------------------------------------------------------------------
  // Operations.

  function Spawned(f: Fleet, p: Plane): Fleet {
    f.(next := f.next + 1, staged := f.staged + [p], owner := f.owner[p.id := Staging(|f.staged|)])
  }

  function LastChecked(f: Fleet, className: Name): Fleet
    requires f.staged != []
  {
    f.(checked := f.checked + {Check(f.staged[|f.staged| - 1].id, className)})
  }

  function LastStopped(f: Fleet): Fleet
    requires f.staged != []
  {
    f.(staged := f.staged[..|f.staged| - 1], owner := f.owner[f.staged[|f.staged| - 1].id := Stopped])
  }

  /** The first `n` staged planes stopped, none forgotten yet. */
  function StopFirst(owner: map<nat, Owner>, staged: seq<Plane>, n: nat): map<nat, Owner>
    requires n <= |staged|
  {
    if n == 0 then owner else StopFirst(owner, staged, n - 1)[staged[n - 1].id := Stopped]
  }

  function StagedStopped(f: Fleet): Fleet {
    f.(staged := [], owner := StopFirst(f.owner, f.staged, |f.staged|))
  }

  function Moved(rt: ClassRt, p: Plane, traffic: Name): ClassRt {
    rt.(active := Some(p),
        route := Route(Some(p.socks), Some(p.http), p.node.name, NextGeneration(rt.route.generation), Some(p.id), traffic),
        healthFailures := 0, recoveryFailures := 0)
  }

  /** A class has taken over a plane: its route leads there one generation on and counts for this
      profile, and its failure streaks are over. */
  predicate TookOver(before: ClassRt, after: ClassRt, p: Plane, profile: Name) {
    && after == ClassRt(before.name, Some(p),
                        Route(Some(p.socks), Some(p.http), p.node.name, after.route.generation, Some(p.id), profile), 0, 0)
    && OneOn(before.route.generation, after.route.generation) && after.route.generation < GENERATIONS
  }

  predicate Fits(classes: seq<ClassRt>) {
    forall c | 0 <= c < |classes| :: classes[c].route.generation < GENERATIONS
  }

  lemma MovedTakesOver(rt: ClassRt, p: Plane, profile: Name)
    requires rt.route.generation < GENERATIONS
    ensures TookOver(rt, Moved(rt, p, profile), p, profile)
  {
    NextIsOneOn(rt.route.generation);
  }

  /** Of these classes only one has taken over a plane. */
  predicate OneTookOver(before: seq<ClassRt>, after: seq<ClassRt>, c: nat, p: Plane, profile: Name)
    requires c < |before|
  {
    && |after| == |before| && TookOver(before[c], after[c], p, profile)
    && forall d | 0 <= d < |before| && d != c :: after[d] == before[d]
  }

  lemma OneMovedTakesOver(classes: seq<ClassRt>, c: nat, p: Plane, profile: Name)
    requires c < |classes| && Fits(classes)
    ensures var after := classes[c := Moved(classes[c], p, profile)]; OneTookOver(classes, after, c, p, profile) && Fits(after)
  {
    MovedTakesOver(classes[c], p, profile);
  }

  /** Class `c` takes over the only staged plane; its old plane retires. */
  function Installed(f: Fleet, c: nat, traffic: Name): Fleet
    requires |f.staged| == 1 && c < |f.classes|
  {
    var p, former := f.staged[0], f.classes[c].active;
    f.(classes := f.classes[c := Moved(f.classes[c], p, traffic)], staged := [],
       draining := if former.Some? then f.draining[former.value.id := former.value] else f.draining,
       owner := (if former.Some? then f.owner[former.value.id := Retiring] else f.owner)[p.id := Serving(c)])
  }

  function RetireFirst(draining: map<nat, Plane>, classes: seq<ClassRt>, n: nat): map<nat, Plane>
    requires n <= |classes|
  {
    if n == 0 then draining else
      var before := RetireFirst(draining, classes, n - 1);
      match classes[n - 1].active case None => before case Some(p) => before[p.id := p]
  }

  function MovedAll(classes: seq<ClassRt>, staged: seq<Plane>, traffic: Name): (r: seq<ClassRt>)
    requires |staged| == |classes|
    ensures |r| == |classes|
  {
    seq(|classes|, c requires 0 <= c < |classes| => Moved(classes[c], staged[c], traffic))
  }

  /** Every class takes over the plane staged for it; every old plane retires. */
  function BatchInstalled(f: Fleet, traffic: Name): Fleet
    requires |f.staged| == |f.classes|
  {
    f.(classes := MovedAll(f.classes, f.staged, traffic),
       staged := [],
       draining := RetireFirst(f.draining, f.classes, |f.classes|),
       owner := map id | id in f.owner ::
         match f.owner[id] case Staging(k) => Serving(k) case Serving(_) => Retiring case other => other)
  }

  // ---------------------------------------------------------------------------------
  // Each operation conserves the fleet.

  lemma SpawnConserves(f: Fleet, p: Plane)
    requires Conserved(f) && p.id == f.next
    ensures Conserved(Spawned(f, p))
  {
    var g := Spawned(f, p);
    forall id ensures OwnerOk(g, id) && DrainingOk(g, id) {
      assert OwnerOk(f, id) && DrainingOk(f, id);
    }
    forall c ensures ClassOk(g, c) && StagedOk(g, c) {
      assert ClassOk(f, c) && StagedOk(f, c) && OwnerOk(f, p.id);
    }
  }

  lemma CheckConserves(f: Fleet, className: Name)
    requires Conserved(f) && f.staged != []
    ensures Conserved(LastChecked(f, className))
  {
    var g := LastChecked(f, className);
    forall id ensures OwnerOk(g, id) && DrainingOk(g, id) && ClassOk(g, id) && StagedOk(g, id) {
      assert OwnerOk(f, id) && DrainingOk(f, id) && ClassOk(f, id) && StagedOk(f, id);
    }
  }

  lemma StopConserves(f: Fleet)
    requires Conserved(f) && f.staged != []
    ensures Conserved(LastStopped(f))
  {
    var g, last := LastStopped(f), |f.staged| - 1;
    forall id ensures OwnerOk(g, id) && DrainingOk(g, id) && ClassOk(g, id) && StagedOk(g, id) {
      assert OwnerOk(f, id) && DrainingOk(f, id) && ClassOk(f, id) && StagedOk(f, id) && StagedOk(f, last);
    }
    assert OwnerOk(f, f.staged[last].id);
  }

  lemma {:induction false} StopFirstOwners(f: Fleet, n: nat)
    requires Conserved(f) && n <= |f.staged|
    ensures var owner := StopFirst(f.owner, f.staged, n);
      && owner.Keys == f.owner.Keys
      && forall id | id in owner :: owner[id] == if f.owner[id].Staging? && f.owner[id].index < n then Stopped else f.owner[id]
  {
    if n > 0 {
      StopFirstOwners(f, n - 1);
      assert StagedOk(f, n - 1);
      forall id | id in f.owner && f.owner[id] == Staging(n - 1) ensures id == f.staged[n - 1].id { assert OwnerOk(f, id); }
    }
  }

  lemma StagedStopConserves(f: Fleet)
    requires Conserved(f)
    ensures Conserved(StagedStopped(f))
  {
    var g := StagedStopped(f);
    StopFirstOwners(f, |f.staged|);
    forall id ensures OwnerOk(g, id) && DrainingOk(g, id) && ClassOk(g, id) && StagedOk(g, id) {
      assert OwnerOk(f, id) && DrainingOk(f, id) && ClassOk(f, id);
    }
  }

  lemma InstallConserves(f: Fleet, c: nat, traffic: Name)
    requires Conserved(f) && |f.staged| == 1 && c < |f.classes|
    requires Check(f.staged[0].id, f.classes[c].name) in f.checked
    ensures Conserved(Installed(f, c, traffic))
  {
    var g := Installed(f, c, traffic);
    assert StagedOk(f, 0) && ClassOk(f, c);
    assert OwnerOk(f, f.staged[0].id);
    forall id ensures OwnerOk(g, id) && DrainingOk(g, id) && ClassOk(g, id) && StagedOk(g, id) {
      assert OwnerOk(f, id) && DrainingOk(f, id) && ClassOk(f, id);
    }
  }

  lemma {:induction false} RetireFirstDraining(f: Fleet, n: nat)
    requires Conserved(f) && n <= |f.classes|
    ensures var d := RetireFirst(f.draining, f.classes, n);
      forall id :: id in d <==>
        (id in f.draining || (id in f.owner && f.owner[id].Serving? && f.owner[id].index < n))
    ensures forall id | id in RetireFirst(f.draining, f.classes, n) :: RetireFirst(f.draining, f.classes, n)[id].id == id
  {
    if n == 0 {
      forall id | id in f.draining ensures f.draining[id].id == id { assert DrainingOk(f, id); }
    } else {
      RetireFirstDraining(f, n - 1);
      assert ClassOk(f, n - 1);
      forall id | id in f.owner && f.owner[id] == Serving(n - 1)
        ensures f.classes[n - 1].active.Some? && f.classes[n - 1].active.value.id == id
      {
        assert OwnerOk(f, id);
      }
    }
  }

  /** The active planes of these classes joined the draining ones, which stay. */
  predicate Retires(draining: map<nat, Plane>, classes: seq<ClassRt>, after: map<nat, Plane>) {
    && (forall id | id in draining :: Lookup(after, id) == Some(draining[id]))
    && (forall c | 0 <= c < |classes| && classes[c].active.Some? ::
          Lookup(after, classes[c].active.value.id) == Some(classes[c].active.value))
    && (forall id | id in after && id !in draining ::
          exists c :: 0 <= c < |classes| && classes[c].active == Some(after[id]))
  }

  predicate ServedBy(classes: seq<ClassRt>, c: nat, id: nat) {
    c < |classes| && classes[c].active.Some? && classes[c].active.value.id == id
  }

  lemma {:induction false} RetiredPlane(f: Fleet, n: nat, c: nat, id: nat)
    requires Conserved(f) && c < n <= |f.classes| && ServedBy(f.classes, c, id)
    ensures Lookup(RetireFirst(f.draining, f.classes, n), id) == f.classes[c].active
  {
    if c < n - 1 {
      RetiredPlane(f, n - 1, c, id);
      assert ClassOk(f, c) && ClassOk(f, n - 1);
    }
  }

  lemma {:induction false} OthersKeepDraining(f: Fleet, n: nat, id: nat)
    requires n <= |f.classes| && forall c | 0 <= c < n :: !ServedBy(f.classes, c, id)
    ensures Lookup(RetireFirst(f.draining, f.classes, n), id) == Lookup(f.draining, id)
  {
    if n > 0 {
      OthersKeepDraining(f, n - 1, id);
      assert !ServedBy(f.classes, n - 1, id);
    }
  }

  lemma BatchRetires(f: Fleet)
    requires Conserved(f)
    ensures Retires(f.draining, f.classes, RetireFirst(f.draining, f.classes, |f.classes|))
  {
    var n := |f.classes|;
    var after := RetireFirst(f.draining, f.classes, n);
    forall c | 0 <= c < n && f.classes[c].active.Some?
      ensures Lookup(after, f.classes[c].active.value.id) == Some(f.classes[c].active.value)
    {
      RetiredPlane(f, n, c, f.classes[c].active.value.id);
    }
    forall id | id in f.draining ensures Lookup(after, id) == Some(f.draining[id]) {
      assert DrainingOk(f, id);
      forall c | 0 <= c < n ensures !ServedBy(f.classes, c, id) { assert ClassOk(f, c); }
      OthersKeepDraining(f, n, id);
    }
    forall id | id in after && id !in f.draining ensures exists c :: 0 <= c < n && f.classes[c].active == Some(after[id]) {
      if forall c | 0 <= c < n :: !ServedBy(f.classes, c, id) {
        OthersKeepDraining(f, n, id);
      } else {
        var c :| 0 <= c < n && ServedBy(f.classes, c, id);
        RetiredPlane(f, n, c, id);
      }
    }
  }

  /** Every class has taken over its plane, and every former plane retires. */
  predicate AllTakenOver(f: Fleet, g: Fleet, planes: seq<Plane>, profile: Name) {
    && |g.classes| == |f.classes| == |planes| && Fits(g.classes)
    && (forall c | 0 <= c < |f.classes| :: TookOver(f.classes[c], g.classes[c], planes[c], profile))
    && Retires(f.draining, f.classes, g.draining)
  }

  lemma MovedFit(classes: seq<ClassRt>, staged: seq<Plane>, profile: Name)
    requires |staged| == |classes|
    ensures Fits(MovedAll(classes, staged, profile))
  {}

  lemma BatchTakesOver(f: Fleet, profile: Name)
    requires Conserved(f) && Fits(f.classes) && |f.staged| == |f.classes|
    ensures AllTakenOver(f, BatchInstalled(f, profile), f.staged, profile)
  {
    BatchRetires(f);
    forall c | 0 <= c < |f.classes| ensures TookOver(f.classes[c], MovedAll(f.classes, f.staged, profile)[c], f.staged[c], profile) {
      MovedTakesOver(f.classes[c], f.staged[c], profile);
    }
  }

  predicate StagedChecked(f: Fleet, k: nat) {
    k < |f.staged| && k < |f.classes| ==> Check(f.staged[k].id, f.classes[k].name) in f.checked
  }

  /** Every staged plane passed the check of its class. */
  ghost predicate AllChecked(f: Fleet) {
    forall k :: StagedChecked(f, k)
  }

  lemma BatchConserves(f: Fleet, traffic: Name)
    requires Conserved(f) && |f.staged| == |f.classes| && AllChecked(f)
    ensures Conserved(BatchInstalled(f, traffic))
  {
    var g := BatchInstalled(f, traffic);
    RetireFirstDraining(f, |f.classes|);
    forall id ensures OwnerOk(g, id) && DrainingOk(g, id) {
      assert OwnerOk(f, id) && DrainingOk(f, id);
    }
    forall c ensures ClassOk(g, c) && StagedOk(g, c) {
      assert ClassOk(f, c) && StagedOk(f, c) && StagedChecked(f, c);
    }
  }

  /** What conservation means for a started plane: exactly one of the four roles. */
  predicate Staged(f: Fleet, id: nat) { exists k :: 0 <= k < |f.staged| && f.staged[k].id == id }
  predicate Active(f: Fleet, id: nat) {
    exists c :: 0 <= c < |f.classes| && f.classes[c].active.Some? && f.classes[c].active.value.id == id
  }
  predicate Draining(f: Fleet, id: nat) { id in f.draining }
  predicate IsStopped(f: Fleet, id: nat) { id in f.owner && f.owner[id].Stopped? }

  function RolesOf(f: Fleet, id: nat): nat {
    (if Staged(f, id) then 1 else 0) + (if Active(f, id) then 1 else 0) +
    (if Draining(f, id) then 1 else 0) + (if IsStopped(f, id) then 1 else 0)
  }

  lemma EveryPlaneHasOneRole(f: Fleet, id: nat)
    requires Conserved(f)
    ensures RolesOf(f, id) == if id < f.next then 1 else 0
    ensures forall k, k' | 0 <= k < |f.staged| && 0 <= k' < |f.staged| :: f.staged[k].id == f.staged[k'].id ==> k == k'
    ensures forall c, c' | 0 <= c < |f.classes| && 0 <= c' < |f.classes| && f.classes[c].active.Some? && f.classes[c'].active.Some? ::
      f.classes[c].active.value.id == f.classes[c'].active.value.id ==> c == c'
  {
    assert OwnerOk(f, id) && DrainingOk(f, id);
    if Staged(f, id) {
      var k :| 0 <= k < |f.staged| && f.staged[k].id == id;
      assert StagedOk(f, k);
    }
    if Active(f, id) {
      var c :| 0 <= c < |f.classes| && f.classes[c].active.Some? && f.classes[c].active.value.id == id;
      assert ClassOk(f, c);
    }
    forall k, k' | 0 <= k < |f.staged| && 0 <= k' < |f.staged| && f.staged[k].id == f.staged[k'].id ensures k == k' {
      assert StagedOk(f, k) && StagedOk(f, k');
    }
    forall c, c' | 0 <= c < |f.classes| && 0 <= c' < |f.classes| && f.classes[c].active.Some? && f.classes[c'].active.Some?
      && f.classes[c].active.value.id == f.classes[c'].active.value.id ensures c == c'
    {
      assert ClassOk(f, c) && ClassOk(f, c');
    }
  }

  /** A route that names a path names the addresses of an unstopped plane that passed the
      check of this very class. */
  lemma RouteNamesLivePlane(f: Fleet, c: nat)
    requires Conserved(f) && c < |f.classes| && f.classes[c].route.path.Some?
    ensures var r, p := f.classes[c].route, f.classes[c].active;
      && p.Some? && r.path == Some(p.value.id) && r.socks == Some(p.value.socks) && r.http == Some(p.value.http)
      && !IsStopped(f, p.value.id) && !Draining(f, p.value.id) && Check(p.value.id, f.classes[c].name) in f.checked
  {
    assert ClassOk(f, c);
    assert DrainingOk(f, f.classes[c].active.value.id);
  }
}
