/** The operations that move classes between data planes (src/supervisor.rs). Sockets,
    health checks, deadlines and saves have any outcome; whatever it is, the fleet is
    conserved, nothing stays staged, and a failing operation leaves every route alone. */
module Supervision {
  import opened Base
  import opened ProfileState
  import opened StateLaws
  import opened Publication
  import opened Manifests
  import opened Scoring
  import opened Candidates
  import opened Fleets

  const MAX_SWITCH_CANDIDATES: nat := 5

  type St = State<Stats>

  datatype Fetch = Fetched(nodes: seq<Node>, body: string) | FetchFailed(snapshot: seq<Node>)

  datatype SwitchOutcome = SwitchOutcome(installed: Name, fallback: bool)

  /** Why a subscription transaction changed nothing. */
  datatype Abort = Refused | TimedOut | NoCandidate | NotCommitted

  datatype SwitchError = UnknownNode | NotSwitched(lastFailure: Option<Name>)

  /** One pre-check of a candidate for a class. */
  datatype Attempt = Attempt(className: Name, node: Node, passed: bool)

  function AllFailed(className: Name, nodes: seq<Node>): seq<Attempt> {
    seq(|nodes|, i requires 0 <= i < |nodes| => Attempt(className, nodes[i], false))
  }

  /** The attempts of a walk down a plan: the first `failed` fail, and the next one passes if any does. */
  function Walk(className: Name, plan: seq<Node>, failed: nat, passed: bool): seq<Attempt>
    requires failed <= |plan| && (passed ==> failed < |plan|)
  {
    AllFailed(className, plan[..failed]) + if passed then [Attempt(className, plan[failed], true)] else []
  }

  lemma OneMoreAttempt(className: Name, plan: seq<Node>, i: nat)
    requires i < |plan|
    ensures AllFailed(className, plan[..i]) + [Attempt(className, plan[i], false)] == AllFailed(className, plan[..i + 1])
  {}

  /** A second walk goes on where the first ended, or does nothing if that was cut short. */
  lemma WalksCompose(className: Name, first: seq<Node>, done: nat, second: seq<Node>, more: nat, passed: bool)
    requires done <= |first| && more <= |second| && (passed ==> more < |second|)
    requires done == |first| || (more == 0 && !passed)
    ensures Walk(className, first, done, false) + Walk(className, second, more, passed)
         == Walk(className, first + second, done + more, passed)
    ensures (first + second)[..done + more] == first[..done] + second[..more]
    ensures passed ==> (first + second)[done + more] == second[more]
  {
    assert (first + second)[..done + more] == first[..done] + second[..more];
  }

  function Calm(s: Stats): Stats {
    s.(healthFailures := 0)
  }

  function FailureRecorded(s: St, node: Name, alpha: real, now: int): St {
    s.(nodes := s.nodes[node := Recorded(if node in s.nodes then s.nodes[node] else DefaultStats(), Probe(None, now), alpha)])
  }

  /** The state records the move of a class: its entry names node, ports and generation, the node
      is calm again, and nothing else changed. */
  predicate MoveRecorded(s: St, s': St, className: Name, p: Plane, generation: nat) {
    && s' == s.(classes := s.classes[className := ClassState(Some(p.node.name), Some(p.socks), Some(p.http), generation)],
                nodes := s'.nodes, updatedUnix := s'.updatedUnix)
    && s'.nodes.Keys == s.nodes.Keys
    && forall n | n in s.nodes :: s'.nodes[n] == if n == p.node.name then s.nodes[n].(healthFailures := 0) else s.nodes[n]
  }

  /** The state entry of a serving class names the node, ports and generation of its route, and
      its traffic counts for the active profile. */
  predicate Reported(rt: ClassRt, entries: map<Name, ClassState>, profile: Name) {
    rt.active.Some? ==>
      var p := rt.active.value;
      && Lookup(entries, rt.name) == Some(ClassState(Some(p.node.name), Some(p.socks), Some(p.http), rt.route.generation))
      && rt.route.traffic == profile
  }

  predicate AllReported(classes: seq<ClassRt>, entries: map<Name, ClassState>, profile: Name) {
    forall c | 0 <= c < |classes| :: Reported(classes[c], entries, profile)
  }

  function Count(nodes: seq<Node>, n: Name): nat {
    if nodes == [] then 0 else Count(nodes[..|nodes| - 1], n) + if nodes[|nodes| - 1].name == n then 1 else 0
  }

  /** What `k` failed probes make of a node's statistics: each counts, takes the moving average of
      the success rate one step towards zero, and leaves the rest alone. */
  predicate FailedTimes(before: map<Name, Stats>, after: map<Name, Stats>, n: Name, k: nat, alpha: real) {
    if k == 0 then Lookup(after, n) == Lookup(before, n)
    else n in after && FailedOn(if n in before then before[n] else Stats(0.0, None, [], 0, 0, None), after[n], k, Pow(1.0 - alpha, k))
  }

  predicate FailedOn(b: Stats, s: Stats, k: nat, factor: real) {
    && s.lastProbe.Some?
    && s == b.(success := if b.probes == 0 then 0.0 else factor * b.success, probes := b.probes + k, lastProbe := s.lastProbe)
  }

  /** Exactly these failed checks have been recorded. */
  ghost predicate EachFailed(s: St, s': St, failed: seq<Node>, alpha: real) {
    s' == s.(nodes := s'.nodes) && forall n :: FailedTimes(s.nodes, s'.nodes, n, Count(failed, n), alpha)
  }

  lemma NothingFailed(s: St, none: seq<Node>, alpha: real)
    requires none == []
    ensures EachFailed(s, s, none, alpha)
  {
    forall n ensures FailedTimes(s.nodes, s.nodes, n, Count(none, n), alpha) {}
  }

  lemma FailureBlends(alpha: real, p: real, rate: real)
    ensures Blend(alpha, 0.0, rate) == (1.0 - alpha) * rate
    ensures Blend(alpha, 0.0, p * rate) == ((1.0 - alpha) * p) * rate
  {
    Regroup(1.0 - alpha, p, rate);
  }

  lemma OneMoreTime(before: map<Name, Stats>, after: map<Name, Stats>, n: Name, k: nat, alpha: real, now: int)
    requires FailedTimes(before, after, n, k, alpha)
    ensures FailedTimes(before, after[n := Recorded(if n in after then after[n] else DefaultStats(), Probe(None, now), alpha)], n, k + 1, alpha)
  {
    var b := if n in before then before[n] else Stats(0.0, None, [], 0, 0, None);
    assert Pow(1.0 - alpha, k + 1) == (1.0 - alpha) * Pow(1.0 - alpha, k) && Pow(1.0 - alpha, 0) == 1.0;
    FailureBlends(alpha, Pow(1.0 - alpha, k), b.success);
  }

  lemma OneMoreFailed(s: St, s1: St, candidates: seq<Node>, i: nat, alpha: real, now: int)
    requires i < |candidates| && EachFailed(s, s1, candidates[..i], alpha)
    ensures EachFailed(s, FailureRecorded(s1, candidates[i].name, alpha, now), candidates[..i + 1], alpha)
  {
    var s2, more := FailureRecorded(s1, candidates[i].name, alpha, now), candidates[..i + 1];
    assert more[..i] == candidates[..i];
    forall n ensures FailedTimes(s.nodes, s2.nodes, n, Count(more, n), alpha) {
      assert FailedTimes(s.nodes, s1.nodes, n, Count(candidates[..i], n), alpha);
      if n == candidates[i].name { OneMoreTime(s.nodes, s1.nodes, n, Count(candidates[..i], n), alpha, now); }
    }
  }

  lemma {:induction false} CountAdds(a: seq<Node>, b: seq<Node>, n: Name)
    ensures Count(a + b, n) == Count(a, n) + Count(b, n)
  {
    if b == [] {
      assert a + b == a;
    } else {
      CountAdds(a, b[..|b| - 1], n);
      assert (a + b)[..|a + b| - 1] == a + b[..|b| - 1];
    }
  }

  lemma Grouped(a: real, b: real, c: real)
    ensures a * (b * c) == (a * b) * c
  {}

  lemma {:induction false} PowAdds(x: real, j: nat, k: nat)
    ensures Pow(x, j + k) == Pow(x, k) * Pow(x, j)
  {
    if k == 0 {
      assert Pow(x, 0) == 1.0 && j + k == j;
    } else {
      var rest := Pow(x, k - 1);
      PowAdds(x, j, k - 1);
      assert Pow(x, k) == x * rest && Pow(x, j + k) == x * Pow(x, j + k - 1);
      Grouped(x, rest, Pow(x, j));
    }
  }

  lemma TimesAdd(s: map<Name, Stats>, s1: map<Name, Stats>, s2: map<Name, Stats>, n: Name, j: nat, k: nat, alpha: real)
    requires FailedTimes(s, s1, n, j, alpha) && FailedTimes(s1, s2, n, k, alpha)
    ensures FailedTimes(s, s2, n, j + k, alpha)
  {
    if j > 0 && k > 0 {
      var b := if n in s then s[n] else Stats(0.0, None, [], 0, 0, None);
      RatesMultiply(1.0 - alpha, j, k, b.success);
      FailuresAdd(b, s1[n], s2[n], j, k, Pow(1.0 - alpha, j), Pow(1.0 - alpha, k), Pow(1.0 - alpha, j + k));
    }
  }

  lemma FailuresAdd(b: Stats, s1: Stats, s2: Stats, j: nat, k: nat, fj: real, fk: real, fjk: real)
    requires j > 0 && FailedOn(b, s1, j, fj) && FailedOn(s1, s2, k, fk)
    requires fk * (fj * b.success) == fjk * b.success
    ensures FailedOn(b, s2, j + k, fjk)
  {
    assert fk * 0.0 == 0.0;
  }

  lemma RatesMultiply(x: real, j: nat, k: nat, rate: real)
    ensures Pow(x, k) * (Pow(x, j) * rate) == Pow(x, j + k) * rate
  {
    PowAdds(x, j, k);
    Grouped(Pow(x, k), Pow(x, j), rate);
  }

  lemma FailuresCompose(s: St, s1: St, s2: St, first: seq<Node>, second: seq<Node>, alpha: real)
    requires EachFailed(s, s1, first, alpha) && EachFailed(s1, s2, second, alpha)
    ensures EachFailed(s, s2, first + second, alpha)
  {
    forall n ensures FailedTimes(s.nodes, s2.nodes, n, Count(first + second, n), alpha) {
      CountAdds(first, second, n);
      assert FailedTimes(s.nodes, s1.nodes, n, Count(first, n), alpha) && FailedTimes(s1.nodes, s2.nodes, n, Count(second, n), alpha);
      TimesAdd(s.nodes, s1.nodes, s2.nodes, n, Count(first, n), Count(second, n), alpha);
    }
  }

  /** The earlier planes keep their owners. */
  predicate Extends(less: map<nat, Owner>, more: map<nat, Owner>) {
    forall id | id in less :: id in more && more[id] == less[id]
  }

  function NoneStaging(owner: map<nat, Owner>): map<nat, Owner> {
    map id | id in owner :: if owner[id].Staging? then Stopped else owner[id]
  }

  class Supervisor {
    const alpha: real
    const regions: map<Name, seq<string>>
    const ownHealthTarget: set<Name>
    const files: Files

    var nextPlane: nat
    var classes: seq<ClassRt>
    var staged: seq<Plane>
    var draining: map<nat, Plane>
    ghost var owner: map<nat, Owner>
    ghost var checked: set<Check>
    ghost var attempts: seq<Attempt>

    var state: St
    var stateFile: Option<Wire<Stats>>
    var active: Name
    var pool: seq<Node>
    var catalog: map<Name, Source>
    var generation: nat
    var stopping: bool

    ghost function View(): Fleet
      reads this
    {
      Fleet(nextPlane, classes, staged, draining, owner, checked)
    }

    /** Between operations: the fleet is conserved, nothing is staged, every serving path is what
        the status reports and counts for the active profile, and generations are 64 bits wide. */
    ghost predicate Valid()
      reads this
    {
      Conserved(View()) && staged == [] && AllReported(classes, state.classes, active) && InRange()
    }

    predicate InRange()
      reads this
    {
      generation < GENERATIONS && Fits(classes)
    }

    constructor (names: seq<Name>, alpha: real, regions: map<Name, seq<string>>, ownHealthTarget: set<Name>, files: Files,
                 state: St, stateFile: Option<Wire<Stats>>, active: Name, pool: seq<Node>, catalog: map<Name, Source>)
      requires forall i, j | 0 <= i < j < |names| :: names[i] != names[j]
      ensures Valid()
      ensures |classes| == |names| && forall c | 0 <= c < |names| :: classes[c].name == names[c] && classes[c].active == None
      ensures this.state == state && this.stateFile == stateFile && this.active == active
      ensures this.pool == pool && this.catalog == catalog && generation == 0 && this.files == files && attempts == [] && !stopping
    {
      this.alpha, this.regions, this.ownHealthTarget, this.files := alpha, regions, ownHealthTarget, files;
      this.state, this.stateFile, this.active, this.pool := state, stateFile, active, pool;
      this.catalog, this.generation, this.stopping, this.attempts := catalog, 0, false, [];
      this.classes := seq(|names|, c requires 0 <= c < |names| =>
        ClassRt(names[c], None, Route(None, None, "", 0, None, ""), 0, 0));
      this.nextPlane, this.staged, this.draining, this.owner, this.checked := 0, [], map[], map[], {};
    }

    /** Nothing that clients, the operator or a restart can see has changed. */
    twostate predicate LiveSame()
      reads this
    {
      && classes == old(classes) && draining == old(draining)
      && state == old(state) && stateFile == old(stateFile)
      && active == old(active) && pool == old(pool) && catalog == old(catalog) && generation == old(generation)
    }

    /** Planes may have been started and checked; the earlier ones keep their owners. */
    twostate predicate OnlyStarts()
      reads this
    {
      && nextPlane >= old(nextPlane) && old(checked) <= checked && stopping == old(stopping)
      && Extends(old(owner), owner)
    }

    /** No candidate has been tried. */
    twostate predicate NoneTried()
      reads this
    {
      attempts == old(attempts) && stopping == old(stopping)
    }

    /** The latch of the shutdown: once set it stays set. */
    method IsStopping() returns (now: bool)
      requires Valid()
      modifies this`stopping
      ensures Valid() && now == stopping && (old(stopping) ==> stopping)
    {
      var signal: bool := *;
      stopping := stopping || signal;
      return stopping;
    }

    /** Start and pre-check one path; whatever goes wrong, a started plane is stopped. */
    method TryActivate(className: Name, node: Node) returns (ok: bool)
      requires Conserved(View())
      modifies this
      ensures Conserved(View()) && LiveSame() && OnlyStarts()
      ensures !ok ==> staged == old(staged)
      ensures ok ==> |staged| == |old(staged)| + 1 && staged[..|old(staged)|] == old(staged)
      ensures ok ==> var p := staged[|old(staged)|]; p.node == node && p.id == old(nextPlane) && Check(p.id, className) in checked
      ensures attempts == old(attempts) + [Attempt(className, node, ok)]
    {
      ok := StartAndCheck(className, node);
      attempts := attempts + [Attempt(className, node, ok)];
    }

    method StartAndCheck(className: Name, node: Node) returns (ok: bool)
      requires Conserved(View())
      modifies this`nextPlane, this`staged, this`owner, this`checked
      ensures Conserved(View()) && OnlyStarts()
      ensures !ok ==> staged == old(staged)
      ensures ok ==> |staged| == |old(staged)| + 1 && staged[..|old(staged)|] == old(staged)
      ensures ok ==> var p := staged[|old(staged)|]; p.node == node && p.id == old(nextPlane) && Check(p.id, className) in checked
    {
      var reserved, started, passed: bool := *, *, *;
      if !reserved || !started { return false; }
      var socks: nat, http: nat := *, *;
      ghost var f := View();
      assert OwnerOk(f, nextPlane);
      var p := Plane(nextPlane, node, socks, http);
      staged, owner, nextPlane := staged + [p], owner[p.id := Staging(|staged|)], nextPlane + 1;
      SpawnConserves(f, p);
      ghost var g := View();
      if passed {
        checked := checked + {Check(p.id, className)};
        CheckConserves(g, className);
        return true;
      }
      staged, owner := staged[..|staged| - 1], owner[p.id := Stopped];
      StopConserves(g);
      return false;
    }

    method StopStaged()
      requires Conserved(View())
      modifies this
      ensures Conserved(View()) && staged == [] && LiveSame() && NoneTried()
      ensures nextPlane == old(nextPlane) && checked == old(checked) && owner == NoneStaging(old(owner))
    {
      ghost var f := View();
      for k := 0 to |staged|
        invariant View() == f.(owner := StopFirst(f.owner, f.staged, k)) && LiveSame() && NoneTried()
      {
        owner := owner[staged[k].id := Stopped];
      }
      staged := [];
      StagedStopConserves(f);
      StopFirstOwners(f, |f.staged|);
      forall id | id in owner ensures f.owner[id].Staging? ==> f.owner[id].index < |f.staged| { assert OwnerOk(f, id); }
      assert owner == NoneStaging(f.owner);
    }

    method SaveState()
      modifies this`stateFile
      ensures stateFile == old(stateFile) || SavedAs(stateFile, state)
    {
      var written: bool := *;
      match Save(state)
      case Ok(wire) => if written { stateFile := Some(wire); }
      case Err(_) =>
    }

    /** Class `c` has taken over plane `p`, its former plane retires, no other class changed. */
    twostate predicate MovedTo(c: nat, p: Plane)
      reads this
      requires c < |old(classes)|
    {
      && OneTookOver(old(classes), classes, c, p, active)
      && draining == (if old(classes)[c].active.Some?
                      then old(draining)[old(classes)[c].active.value.id := old(classes)[c].active.value] else old(draining))
      && active == old(active) && pool == old(pool) && catalog == old(catalog) && generation == old(generation)
    }

    /** The state and the state file after a move. */
    method RecordInstalled(className: Name, p: Plane, generation': nat)
      modifies this`state, this`stateFile
      ensures MoveRecorded(old(state), state, className, p, generation')
      ensures stateFile == old(stateFile) || SavedAs(stateFile, state)
    {
      var now: int := *;
      state := state.(classes := state.classes[className := ClassState(Some(p.node.name), Some(p.socks), Some(p.http), generation')]);
      if p.node.name in state.nodes {
        state := state.(nodes := state.nodes[p.node.name := Calm(state.nodes[p.node.name])]);
      }
      state := state.(updatedUnix := now);
      SaveState();
    }

    method InstallActive(c: nat)
      requires Conserved(View()) && c < |classes| && AllReported(classes, state.classes, active) && InRange()
      requires |staged| == 1 && Check(staged[0].id, classes[c].name) in checked
      modifies this
      ensures Valid() && MovedTo(c, old(staged)[0]) && checked == old(checked) && nextPlane == old(nextPlane) && NoneTried()
      ensures MoveRecorded(old(state), state, classes[c].name, old(staged)[0], classes[c].route.generation)
      ensures stateFile == old(stateFile) || SavedAs(stateFile, state)
    {
      ghost var f := View();
      var rt := classes[c];
      var p, former := staged[0], rt.active;
      InstallConserves(f, c, active);
      OneMovedTakesOver(classes, c, p, active);
      staged := [];
      var generation' := NextGeneration(rt.route.generation);
      rt := rt.(active := Some(p), recoveryFailures := 0);
      rt := rt.(route := Route(Some(p.socks), Some(p.http), p.node.name, generation', Some(p.id), active));
      classes := classes[c := rt.(healthFailures := 0)];
      RecordInstalled(rt.name, p, generation');
      if former.Some? {
        draining := draining[former.value.id := former.value];
        owner := owner[former.value.id := Retiring];
      }
      owner := owner[p.id := Serving(c)];
      assert View() == Installed(f, c, active);
      InstalledIsReported(f.classes, c, p, active, old(state).classes);
    }

    /** Exactly these failed checks are in the state, none if the class has a health target of
        its own. */
    ghost predicate HasRecorded(before: St, after: St, className: Name, failed: seq<Node>)
    {
      if className in ownHealthTarget then after == before else EachFailed(before, after, failed, alpha)
    }

    lemma RecordedCompose(s: St, s1: St, s2: St, className: Name, first: seq<Node>, second: seq<Node>)
      requires HasRecorded(s, s1, className, first) && HasRecorded(s1, s2, className, second)
      ensures HasRecorded(s, s2, className, first + second)
    {
      if className !in ownHealthTarget { FailuresCompose(s, s1, s2, first, second, alpha); }
    }

    /** What a walk down a plan did: the first `failed` candidates failed their check, each is
        recorded, which gives the state `mid`; then the next one passed and serves the class, or
        none was left, or the shutdown had begun, and the class keeps its path. No other
        candidate has been tried. */
    twostate predicate Walked(c: nat, plan: seq<Node>, failed: nat, installed: bool, new mid: St)
      reads this
      requires c < |old(classes)|
    {
      && (old(stopping) ==> stopping && failed == 0 && !installed)
      && WalkedFrom(old(state), old(attempts), c, plan, failed, installed, mid)
    }

    /** The same, with state and attempts counted from an earlier moment. */
    twostate predicate WalkedFrom(start: St, log: seq<Attempt>, c: nat, plan: seq<Node>, failed: nat, installed: bool, new mid: St)
      reads this
      requires c < |old(classes)|
    {
      && failed <= |plan| && (installed ==> failed < |plan|)
      && attempts == log + Walk(old(classes)[c].name, plan, failed, installed)
      && HasRecorded(start, mid, old(classes)[c].name, plan[..failed])
      && nextPlane >= old(nextPlane)
      && if installed then ServesNew(c, plan[failed], mid)
         else (failed == |plan| || stopping) && KeptPath() && state == mid
    }

    /** Class `c` serves this node on a plane started since; the state was `mid` before that, and
        is saved or not. */
    twostate predicate ServesNew(c: nat, node: Node, new mid: St)
      reads this
      requires c < |old(classes)|
    {
      && |classes| == |old(classes)| && classes[c].active.Some?
      && var p := classes[c].active.value;
         && p.node == node && p.id >= old(nextPlane) && MovedTo(c, p)
         && MoveRecorded(mid, state, classes[c].name, p, classes[c].route.generation)
         && (stateFile == old(stateFile) || SavedAs(stateFile, state))
    }

    /** A switch that did not happen. */
    twostate predicate KeptPath()
      reads this
    {
      && classes == old(classes) && draining == old(draining) && stateFile == old(stateFile)
      && active == old(active) && pool == old(pool) && catalog == old(catalog) && generation == old(generation)
    }

    /** Try one candidate for a class that keeps its path if that fails. */
    method TryOne(c: nat, node: Node) returns (ok: bool)
      requires Valid() && c < |classes|
      modifies this
      ensures Valid() && old(checked) <= checked && nextPlane >= old(nextPlane) && stopping == old(stopping)
      ensures attempts == old(attempts) + [Attempt(old(classes)[c].name, node, ok)]
      ensures if ok then ServesNew(c, node, old(state)) else LiveSame()
    {
      ok := TryActivate(classes[c].name, node);
      if ok {
        assert staged == [staged[0]];
        InstallActive(c);
      }
    }

    /** A failed check says something about the node, unless the class has a health target of its own. */
    method RecordFailure(c: nat, candidates: seq<Node>, i: nat, ghost start: St)
      requires Valid() && c < |classes| && i < |candidates| && HasRecorded(start, state, classes[c].name, candidates[..i])
      modifies this`state
      ensures Valid() && HasRecorded(start, state, classes[c].name, candidates[..i + 1])
    {
      if classes[c].name !in ownHealthTarget {
        var now: int := *;
        OneMoreFailed(start, state, candidates, i, alpha, now);
        state := FailureRecorded(state, candidates[i].name, alpha, now);
      }
    }

    /** Try the candidates in order. */
    method TryCandidates(c: nat, candidates: seq<Node>) returns (r: Result<Node, Option<Name>>, ghost failed: nat, ghost mid: St)
      requires Valid() && c < |classes|
      modifies this
      ensures Valid() && old(checked) <= checked
      ensures Walked(c, candidates, failed, r.Ok?, mid)
      ensures r.Ok? ==> r.value == candidates[failed]
      ensures r.Err? ==> r.error == if failed == 0 then None else Some(candidates[failed - 1].name)
    {
      r, failed, mid := Err(None), 0, state;
      NothingFailed(state, candidates[..0], alpha);
      for i := 0 to |candidates|
        invariant Valid() && r.Err? && KeptPath() && state == mid && failed == i
        invariant HasRecorded(old(state), mid, classes[c].name, candidates[..i])
        invariant old(checked) <= checked && nextPlane >= old(nextPlane)
        invariant attempts == old(attempts) + AllFailed(classes[c].name, candidates[..i])
        invariant old(stopping) ==> stopping && i == 0
        invariant r.error == if i == 0 then None else Some(candidates[i - 1].name)
      {
        var stop := IsStopping();
        if stop { return; }
        OneMoreAttempt(classes[c].name, candidates, i);
        var ok := TryOne(c, candidates[i]);
        if ok {
          r := Ok(candidates[i]);
          return;
        }
        r := Err(Some(candidates[i].name));
        failed := i + 1;
        RecordFailure(c, candidates, i, old(state));
        mid := state;
      }
    }

    /** None of `first` has been installed: go on with the rest of the plan, unless the walk was
        cut short by the shutdown. */
    method TryMore(c: nat, ghost start: St, ghost log: seq<Attempt>, ghost first: seq<Node>, ghost done: nat, second: seq<Node>)
      returns (r: Result<Node, Option<Name>>, ghost failed: nat, ghost mid: St)
      requires Valid() && c < |classes| && done <= |first| && (done == |first| || stopping)
      requires attempts == log + Walk(classes[c].name, first, done, false) && HasRecorded(start, state, classes[c].name, first[..done])
      modifies this
      ensures Valid() && old(checked) <= checked && failed >= done
      ensures WalkedFrom(start, log, c, first + second, failed, r.Ok?, mid)
      ensures r.Ok? ==> failed >= |first| && r.value == (first + second)[failed]
      ensures r.Err? ==> r.error == if failed <= |first| then None else Some((first + second)[failed - 1].name)
      ensures old(stopping) ==> failed == done && r.Err?
    {
      ghost var s1, more := state, 0;
      r, more, mid := TryCandidates(c, second);
      failed := done + more;
      WalksCompose(classes[c].name, first, done, second, more, r.Ok?);
      RecordedCompose(start, s1, mid, classes[c].name, first[..done], second[..more]);
    }

    function RegionsOf(className: Name): seq<string> {
      if className in regions then regions[className] else []
    }

    /** Automatic recovery: the five best probed nodes of the class's regions other than the
        current one, then the current node once more. */
    method SwitchNodeLocked(c: nat)
      returns (switched: bool, ghost alternates: seq<Node>, ghost current: seq<Node>, ghost failed: nat, ghost mid: St)
      requires Valid() && c < |classes|
      modifies this
      ensures Valid()
      ensures alternates == BestOf(old(pool), old(state).nodes,
        if old(classes)[c].name in regions then regions[old(classes)[c].name] else [],
        NodeNames(old(classes)[c].active), MAX_SWITCH_CANDIDATES)
      ensures current == FirstNamed(old(pool), NodeNames(old(classes)[c].active))
      ensures Walked(c, alternates + current, failed, switched, mid)
    {
      var barred := NodeNames(classes[c].active);
      var candidates := BestOf(pool, state.nodes, RegionsOf(classes[c].name), barred, MAX_SWITCH_CANDIDATES);
      var node := FirstNamed(pool, barred);
      alternates, current := candidates, node;
      var first;
      first, failed, mid := TryCandidates(c, candidates);
      PlanGoesOn(classes[c].name, candidates, node, failed, first.Ok?);
      if first.Ok? {
        return true, alternates, current, failed, mid;
      }
      var stop := IsStopping();
      if stop || node == [] {
        return false, alternates, current, failed, mid;
      }
      var last;
      last, failed, mid := TryMore(c, old(state), old(attempts), candidates, failed, node);
      return last.Ok?, alternates, current, failed, mid;
    }

    /** The first path of a class after startup: the recorded node first, then all the others
        of its regions. Failures are not recorded. */
    method ActivateInitial(c: nat) returns (activated: bool, ghost order: seq<Node>, ghost failed: nat)
      requires Valid() && c < |classes|
      modifies this
      ensures Valid() && failed <= |order| && stopping == old(stopping)
      ensures order == CandidateOrder(old(pool), old(state).nodes,
        if old(classes)[c].name in old(state).classes then old(state).classes[old(classes)[c].name].activeNode else None,
        if old(classes)[c].name in regions then regions[old(classes)[c].name] else [])
      ensures activated ==> failed < |order| && ServesNew(c, order[failed], old(state))
      ensures !activated ==> failed == |order| && LiveSame()
      ensures attempts == old(attempts) + Walk(old(classes)[c].name, order, failed, activated)
    {
      var candidates := ProfileCandidates(pool, Some(state.nodes), RecordedNode(state, classes[c].name), RegionsOf(classes[c].name));
      order, failed := candidates, 0;
      for i := 0 to |candidates|
        invariant Valid() && LiveSame() && nextPlane >= old(nextPlane) && failed == i && stopping == old(stopping)
        invariant attempts == old(attempts) + AllFailed(classes[c].name, candidates[..i])
      {
        OneMoreAttempt(classes[c].name, candidates, i);
        var ok := TryOne(c, candidates[i]);
        if ok { return true, candidates, i; }
        failed := i + 1;
      }
      return false, candidates, failed;
    }

    /** A manual switch of a class to a node of the pool that it does not serve yet: the requested
        node, and only after that has failed the five best others. */
    method SwitchTo(c: nat, requested: Name)
      returns (r: Result<SwitchOutcome, SwitchError>, ghost others: seq<Node>, ghost failed: nat, ghost asked: St, ghost mid: St)
      requires Valid() && c < |classes|
      modifies this
      ensures Valid()
      ensures r == Err(UnknownNode) <==> requested !in NamesOf(old(pool))
      ensures r == Err(UnknownNode) || requested in NodeNames(old(classes)[c].active) ==> LiveSame() && NoneTried()
      ensures requested in NamesOf(old(pool)) && requested in NodeNames(old(classes)[c].active) ==> r == Ok(SwitchOutcome(requested, false))
      ensures requested in NamesOf(old(pool)) && requested !in NodeNames(old(classes)[c].active) ==>
        && FirstNamed(old(pool), {requested}) != []
        && var plan := [FirstNamed(old(pool), {requested})[0]] + others;
           && plan[0] in old(pool) && plan[0].name == requested
           && Walked(c, plan, failed, r.Ok?, mid)
           && r == (if r.Ok? then Ok(SwitchOutcome(plan[failed].name, failed > 0))
                    else Err(NotSwitched(if failed == 0 then None else Some(plan[failed - 1].name))))
           && (failed > 0 ==>
                 && HasRecorded(old(state), asked, old(classes)[c].name, [plan[0]])
                 && others == BestOf(old(pool), asked.nodes, [], {requested} + NodeNames(old(classes)[c].active), MAX_SWITCH_CANDIDATES))
    {
      others, failed, asked, mid := [], 0, state, state;
      var found := FirstNamed(pool, {requested});
      FirstNamedIs(pool, {requested});
      if found == [] { return Err(UnknownNode), others, failed, asked, mid; }
      assert found == [found[0]] && found[0].name in NamesOf(pool);
      if requested in NodeNames(classes[c].active) { return Ok(SwitchOutcome(requested, false)), others, failed, asked, mid; }
      var first;
      first, failed, mid := TryCandidates(c, found);
      if first.Ok? {
        assert [found[0]] + others == found;
        return Ok(SwitchOutcome(first.value.name, false)), others, failed, asked, mid;
      }
      asked := state;
      var candidates := BestOf(pool, state.nodes, [], {requested} + NodeNames(classes[c].active), MAX_SWITCH_CANDIDATES);
      others := candidates;
      ghost var done := failed;
      assert done > 0 ==> found[..done] == [found[0]];
      var second;
      second, failed, mid := TryMore(c, old(state), old(attempts), found, done, candidates);
      if second.Ok? { return Ok(SwitchOutcome(second.value.name, true)), others, failed, asked, mid; }
      return Err(NotSwitched(if second.error.Some? then second.error else first.error)), others, failed, asked, mid;
    }

    /** Rebuild the current node after an egress change; any doubt discards the new plane. */
    method RebuildCurrent(c: nat) returns (rebuilt: bool)
      requires Valid() && c < |classes|
      modifies this
      ensures Valid()
      ensures !rebuilt ==> LiveSame()
      ensures rebuilt ==> old(classes)[c].active.Some? && ServesNew(c, old(classes)[c].active.value.node, old(state))
      ensures attempts == old(attempts) || (old(classes)[c].active.Some? && exists passed ::
        attempts == old(attempts) + [Attempt(old(classes)[c].name, old(classes)[c].active.value.node, passed)])
    {
      var excluded: bool := *;
      if excluded || classes[c].active.None? { return false; }
      var ok := TryActivate(classes[c].name, classes[c].active.value.node);
      if !ok { return false; }
      var stillCurrent: bool := *;
      if !stillCurrent {
        StopStaged();
        return false;
      }
      assert staged == [staged[0]];
      InstallActive(c);
      return true;
    }

    // -------------------------------------------------------------------------------
    // The subscription transaction.

    method StagingPlan(rt: ClassRt, nodes: seq<Node>, stats: Option<StatsMap>, refreshed: bool) returns (candidates: seq<Node>)
      ensures candidates == CandidatesFor(rt, nodes, StatsOr(stats), refreshed, regions)
    {
      var all := ProfileCandidates(nodes, stats, PreferredFor(rt, refreshed), RegionsFor(rt, refreshed, regions));
      candidates := FirstOf(all, MAX_SWITCH_CANDIDATES);
    }

    /** Stage one plane for class `k`: the first of its five candidates that passes, unless time
        runs out. */
    method StageClass(k: nat, nodes: seq<Node>, stats: Option<StatsMap>, refreshed: bool)
      returns (ok: bool, timedOut: bool, ghost plan: seq<Node>, ghost failed: nat)
      requires Conserved(View()) && k == |staged| < |classes|
      modifies this
      ensures Conserved(View()) && LiveSame() && OnlyStarts()
      ensures !ok ==> staged == old(staged)
      ensures ok ==> |staged| == k + 1 && staged[..k] == old(staged) && staged[k].id >= old(nextPlane)
      ensures ok ==> Check(staged[k].id, classes[k].name) in checked
      ensures plan == CandidatesFor(classes[k], nodes, StatsOr(stats), refreshed, regions)
      ensures failed <= |plan| && (ok ==> failed < |plan| && staged[k].node == plan[failed])
      ensures !ok && !timedOut ==> failed == |plan|
      ensures attempts == old(attempts) + Walk(classes[k].name, plan, failed, ok)
    {
      var rt := classes[k];
      var candidates := StagingPlan(rt, nodes, stats, refreshed);
      ok, plan, failed := false, candidates, 0;
      for i := 0 to |candidates|
        invariant Conserved(View()) && LiveSame() && OnlyStarts() && staged == old(staged)
        invariant !ok && failed == i && attempts == old(attempts) + AllFailed(classes[k].name, candidates[..i])
      {
        timedOut := *;
        if timedOut { return; }
        OneMoreAttempt(rt.name, candidates, i);
        ok := TryActivate(rt.name, candidates[i]);
        if ok { return; }
        failed := i + 1;
      }
      timedOut := false;
    }

    /** The same, with what the attempts show beside an earlier log. */
    method StageNext(k: nat, nodes: seq<Node>, stats: Option<StatsMap>, refreshed: bool, ghost log: seq<Attempt>)
      returns (ok: bool, timedOut: bool, ghost more: seq<Attempt>)
      requires Conserved(View()) && k == |staged| < |classes|
      modifies this
      ensures Conserved(View()) && LiveSame() && OnlyStarts() && attempts == old(attempts) + more
      ensures !ok ==> staged == old(staged)
      ensures !ok && !timedOut ==> SomeClassHasNone(nodes, StatsOr(stats), refreshed, log + more)
      ensures ok ==> |staged| == k + 1 && staged[..k] == old(staged) && staged[k].id >= old(nextPlane)
      ensures ok ==> StagedFor(staged[k], classes[k], checked, more, nodes, StatsOr(stats), refreshed, regions)
    {
      ghost var plan, failed;
      ok, timedOut, plan, failed := StageClass(k, nodes, stats, refreshed);
      more := Walk(classes[k].name, plan, failed, ok);
      if ok {
        WalkIsChoice(classes[k].name, plan, failed);
      } else if !timedOut {
        WalkLeavesNone(classes[k].name, plan, log, more);
      }
    }

    /** All candidates of some class failed. */
    predicate SomeClassHasNone(nodes: seq<Node>, stats: StatsMap, refreshed: bool, log: seq<Attempt>)
      reads this
    {
      exists k :: 0 <= k < |classes| && AllTried(classes[k].name, CandidatesFor(classes[k], nodes, stats, refreshed, regions), log)
    }

    /** Stage one plane per class, or stop them all again: then the time ran out, or every
        candidate of some class failed. */
    method StageAll(nodes: seq<Node>, stats: Option<StatsMap>, refreshed: bool) returns (ok: bool, timedOut: bool, ghost log: seq<Attempt>)
      requires Valid()
      modifies this
      ensures Conserved(View()) && LiveSame() && OnlyStarts() && attempts == old(attempts) + log
      ensures !ok ==> staged == []
      ensures !ok && !timedOut ==> SomeClassHasNone(nodes, StatsOr(stats), refreshed, log)
      ensures ok ==> |staged| == |classes|
      ensures ok ==> NewlyStaged(staged, classes, checked, log, old(nextPlane), nodes, StatsOr(stats), refreshed, regions)
    {
      NoneStaged(View());
      timedOut, log := false, [];
      for k := 0 to |classes|
        invariant Conserved(View()) && LiveSame() && OnlyStarts() && |staged| == k && attempts == old(attempts) + log
        invariant NewlyStaged(staged, classes, checked, log, old(nextPlane), nodes, StatsOr(stats), refreshed, regions)
      {
        ghost var before, checked0, log0, more := staged, checked, log, [];
        ok, timedOut, more := StageNext(k, nodes, stats, refreshed, log0);
        log := log0 + more;
        if !ok {
          StopStaged();
          return;
        }
        OneMoreStaged(before, staged, classes, checked0, checked, log0, more, old(nextPlane), nodes, StatsOr(stats), refreshed, regions);
      }
      return true, false, log;
    }

    method Reconcile(target: Name, newCatalog: map<Name, Source>, vouched: bool) returns (next: St)
      ensures next == Activated(CatalogApplied(state, catalog, newCatalog, if vouched then Some(target) else None), target)
    {
      var file := new StateFile(state);
      file.ApplySubscriptionCatalog(catalog, newCatalog, if vouched then Some(target) else None);
      var _ := file.ActivateSubscription(target);
      return file.View();
    }

    /** The rest of the state to persist: the target's new slot confirmed, every planned class
        recorded without ports, every planned node calm. */
    method Dress(base: St, target: Name, slot: Option<string>) returns (next: St)
      requires ClassesApart(classes) && |staged| == |classes|
      ensures next == Dressed(base, target, slot, Plans(classes, staged, |classes|), Calm, next.updatedUnix)
    {
      var now: int := *;
      next := base;
      if slot.Some? {
        next := next.(slots := next.slots[target := slot.value]);
      }
      var entries, nodes := DressAll(base.classes, base.nodes);
      next := next.(classes := entries, nodes := nodes, updatedUnix := now);
    }

    method DressAll(entries0: map<Name, ClassState>, nodes0: map<Name, Stats>) returns (entries: map<Name, ClassState>, nodes: map<Name, Stats>)
      requires ClassesApart(classes) && |staged| == |classes|
      ensures entries == PlannedClasses(entries0, Plans(classes, staged, |classes|))
      ensures nodes == Calmed(nodes0, Plans(classes, staged, |classes|), Calm)
    {
      entries, nodes := entries0, nodes0;
      NothingPlanned(entries, nodes);
      for k := 0 to |classes|
        invariant entries == PlannedClasses(entries0, Plans(classes, staged, k))
        invariant nodes == Calmed(nodes0, Plans(classes, staged, k), Calm)
      {
        DressClassStep(entries0, classes, staged, k);
        CalmStep(nodes0, classes, staged, k);
        var plan := PlanFor(classes[k], staged[k]);
        entries := entries[classes[k].name := ClassState(Some(plan.node), None, None, plan.generation)];
        if plan.node in nodes {
          nodes := nodes[plan.node := Calm(nodes[plan.node])];
        }
      }
    }

    /** Every class has taken over its plane, every former plane retires, and the pool is one
        generation on. */
    twostate predicate AllTakeOver(target: Name, planes: seq<Plane>)
      reads this
      requires |planes| == |old(classes)|
    {
      AllTakenOver(old(View()), View(), planes, target) && OneOn(old(generation), generation)
    }

    /** Publication: every route, the state and the pool change hands together. */
    method Publish(target: Name, newCatalog: map<Name, Source>, nodes: seq<Node>, next: St)
      requires Conserved(View()) && InRange() && |staged| == |classes| && AllChecked(View())
      requires AllPlanned(next.classes, classes, staged)
      modifies this
      ensures Valid() && View() == BatchInstalled(old(View()), target) && NoneTried()
      ensures state == WithPorts(next, Plans(old(classes), old(staged), |old(classes)|)) && stateFile == old(stateFile)
      ensures active == target && pool == nodes && catalog == newCatalog && OneOn(old(generation), generation)
    {
      ghost var f := View();
      BatchConserves(f, target);
      BatchIsReported(next.classes, classes, staged, target);
      MovedFit(classes, staged, target);
      var entries := ChangeHands(target, next.classes);
      Adopt(target, newCatalog, nodes, next.(classes := entries));
      assert View() == BatchInstalled(f, target);
    }

    method Adopt(target: Name, newCatalog: map<Name, Source>, nodes: seq<Node>, next: St)
      requires generation < GENERATIONS
      modifies this`state, this`active, this`pool, this`catalog, this`generation
      ensures state == next && active == target && pool == nodes && catalog == newCatalog
      ensures OneOn(old(generation), generation) && generation < GENERATIONS
    {
      NextIsOneOn(generation);
      state, active, pool, catalog, generation := next, target, nodes, newCatalog, NextGeneration(generation);
    }

    /** The fleet's part of a publication, and the class entries with their live ports. */
    method ChangeHands(target: Name, planned: map<Name, ClassState>) returns (entries: map<Name, ClassState>)
      requires ClassesApart(classes) && |staged| == |classes|
      requires AllPlanned(planned, classes, staged)
      modifies this`classes, this`staged, this`draining, this`owner
      ensures View() == BatchInstalled(old(View()), target)
      ensures entries == LiveClasses(planned, Plans(old(classes), old(staged), |old(classes)|))
    {
      ghost var owner' := BatchInstalled(View(), target).owner;
      var former := classes;
      entries := FlipAll(target, planned);
      var retired := RetireAll(former);
      staged, draining, owner := [], retired, owner';
    }

    /** Flip every route and give every class entry its live ports. All route locks are held
        meanwhile, so the flipped classes appear at once. */
    method FlipAll(target: Name, planned: map<Name, ClassState>) returns (entries: map<Name, ClassState>)
      requires ClassesApart(classes) && |staged| == |classes|
      requires AllPlanned(planned, classes, staged)
      modifies this`classes
      ensures classes == MovedAll(old(classes), staged, target)
      ensures entries == LiveClasses(planned, Plans(old(classes), staged, |old(classes)|))
    {
      var flipped: seq<ClassRt>;
      flipped, entries := FlipRoutes(classes, staged, target, planned);
      classes := flipped;
    }

    method FlipRoutes(former: seq<ClassRt>, planes: seq<Plane>, target: Name, planned: map<Name, ClassState>)
      returns (flipped: seq<ClassRt>, entries: map<Name, ClassState>)
      requires ClassesApart(former) && |planes| == |former|
      requires AllPlanned(planned, former, planes)
      ensures flipped == MovedAll(former, planes, target)
      ensures entries == LiveClasses(planned, Plans(former, planes, |former|))
    {
      flipped, entries := former, planned;
      NothingLive(planned);
      for c := 0 to |former|
        invariant Flipped(flipped, former, planes, target, c)
        invariant entries == LiveClasses(planned, Plans(former, planes, c))
      {
        FlipStep(planned, former, planes, c);
        FlipOne(flipped, former, planes, target, c);
        var rt, p := flipped[c], planes[c];
        flipped := flipped[c := Moved(rt, p, target)];
        entries := entries[rt.name := entries[rt.name].(socksPort := Some(p.socks), httpPort := Some(p.http))];
      }
      AllFlipped(flipped, former, planes, target);
    }

    method RetireAll(former: seq<ClassRt>) returns (retired: map<nat, Plane>)
      ensures retired == RetireFirst(draining, former, |former|)
    {
      retired := draining;
      for c := 0 to |former|
        invariant retired == RetireFirst(draining, former, c)
      {
        if former[c].active.Some? {
          retired := retired[former[c].active.value.id := former[c].active.value];
        }
      }
    }

    /** Only a fetched remote manifest has a body to commit. */
    method CommitCache(source: Source, fetch: Fetch, confirmed: Option<string>) returns (ok: bool, slot: Option<string>)
      modifies files
      ensures ok ==> slot == SlotToWrite(source, fetch, confirmed) && SlotHoldsBody(files.content, source, fetch, confirmed)
      ensures OnlySpareSlot(old(files.content), files.content, source, fetch, confirmed)
    {
      var workerDied: bool := *;
      if fetch.FetchFailed? { return !workerDied, None; }
      var pending := if source.Remote? then Some((CachePath(source.cacheFile), fetch.body)) else None;
      var profile := new PreparedProfile(fetch.nodes, pending);
      var r := profile.CommitCacheSlot(confirmed, files);
      return r.Ok? && !workerDied, profile.committedSlot;
    }

    method PersistNext(next: St) returns (ok: bool)
      modifies this`stateFile
      ensures ok ==> Save(next).Ok? && stateFile == Some(Save(next).value)
      ensures !ok ==> stateFile == old(stateFile)
    {
      var written: bool := *;
      match Save(next)
      case Err(_) => return false;
      case Ok(wire) =>
        if written { stateFile := Some(wire); }
        return written;
    }

    /** The state file gets the new selection while every route still serves the old one. */
    method Persist(target: Name, newCatalog: map<Name, Source>, vouched: bool, slot: Option<string>) returns (ok: bool, next: St)
      requires ClassesApart(classes) && |staged| == |classes|
      modifies this`stateFile
      ensures next == NextState(state, catalog, newCatalog, target, vouched, slot, Plans(classes, staged, |classes|), Calm, next.updatedUnix)
      ensures AllPlanned(next.classes, classes, staged)
      ensures if ok then SavedAs(stateFile, next) else stateFile == old(stateFile)
    {
      var base := Reconcile(target, newCatalog, vouched);
      next := Dress(base, target, slot);
      PlansArePlanned(base.classes, classes, staged);
      ok := PersistNext(next);
    }

    /** Every class serves a new plane that passed its check and runs the first of its five
        candidates of the new profile that did. */
    twostate predicate StagedForSwitch(target: Name, newCatalog: map<Name, Source>, fetch: Fetch, planes: seq<Plane>, log: seq<Attempt>)
      reads this
      requires target in newCatalog
    {
      NewlyStaged(planes, old(classes), checked, log, old(nextPlane), NodesOfFetch(fetch),
                  KnownStats(old(state), old(catalog), target, newCatalog[target]), old(active) == target, regions)
    }

    /** The commit: the cache slot, then the state file. */
    method Commit(target: Name, newCatalog: map<Name, Source>, fetch: Fetch) returns (ok: bool, next: St)
      requires target in newCatalog && ClassesApart(classes) && |staged| == |classes|
      modifies this`stateFile, files
      ensures OnlySpareSlot(old(files.content), files.content, newCatalog[target], fetch, Lookup(state.slots, target))
      ensures if ok then SavedAs(stateFile, next) else stateFile == old(stateFile)
      ensures ok ==> SlotHoldsBody(files.content, newCatalog[target], fetch, Lookup(state.slots, target))
      ensures ok ==> next == NextState(state, catalog, newCatalog, target, fetch.Fetched?,
        SlotToWrite(newCatalog[target], fetch, Lookup(state.slots, target)), Plans(classes, staged, |classes|), Calm, next.updatedUnix)
      ensures ok ==> AllPlanned(next.classes, classes, staged)
    {
      next := state;
      var slot: Option<string>;
      ok, slot := CommitCache(newCatalog[target], fetch, Lookup(state.slots, target));
      if ok {
        ok, next := Persist(target, newCatalog, fetch.Fetched?, slot);
      }
    }

    /** Everything is staged and the state file is replaced: publish, and save the ports. */
    method Finish(target: Name, newCatalog: map<Name, Source>, nodes: seq<Node>, next: St)
      requires Conserved(View()) && InRange() && |staged| == |classes| && AllChecked(View())
      requires AllPlanned(next.classes, classes, staged)
      requires SavedAs(stateFile, next)
      modifies this
      ensures Valid() && View() == BatchInstalled(old(View()), target) && NoneTried()
      ensures state == WithPorts(next, Plans(old(classes), old(staged), |old(classes)|))
      ensures SavedAs(stateFile, next) || SavedAs(stateFile, state)
      ensures active == target && pool == nodes && catalog == newCatalog && OneOn(old(generation), generation)
    {
      Publish(target, newCatalog, nodes, next);
      SaveState();
    }

    method CommitOrStop(target: Name, newCatalog: map<Name, Source>, fetch: Fetch) returns (ok: bool, next: St)
      requires Conserved(View()) && target in newCatalog && |staged| == |classes|
      modifies this, files
      ensures OnlySpareSlot(old(files.content), files.content, newCatalog[target], fetch, Lookup(old(state).slots, target))
      ensures ok ==> SlotHoldsBody(files.content, newCatalog[target], fetch, Lookup(old(state).slots, target))
      ensures NoneTried()
      ensures !ok ==> Conserved(View()) && staged == [] && LiveSame()
      ensures !ok ==> nextPlane == old(nextPlane) && checked == old(checked) && owner == NoneStaging(old(owner))
      ensures ok ==> View() == old(View()) && SavedAs(stateFile, next) && state == old(state)
      ensures ok ==> active == old(active) && pool == old(pool) && catalog == old(catalog) && generation == old(generation)
      ensures ok ==> next == NextState(state, catalog, newCatalog, target, fetch.Fetched?,
        SlotToWrite(newCatalog[target], fetch, Lookup(state.slots, target)), Plans(classes, staged, |classes|), Calm, next.updatedUnix)
      ensures ok ==> AllPlanned(next.classes, classes, staged)
    {
      ok, next := Commit(target, newCatalog, fetch);
      if !ok { StopStaged(); }
    }

    /** What a completed commit and publication of the staged planes leave. */
    twostate predicate Completed(target: Name, newCatalog: map<Name, Source>, fetch: Fetch, planes: seq<Plane>, new next: St)
      reads this
      requires target in newCatalog && |planes| == |old(classes)|
    {
      var plans, confirmed := Plans(old(classes), planes, |old(classes)|), Lookup(old(state).slots, target);
      && AllTakeOver(target, planes)
      && next == NextState(old(state), old(catalog), newCatalog, target, fetch.Fetched?,
                           SlotToWrite(newCatalog[target], fetch, confirmed), plans, Calm, next.updatedUnix)
      && state == WithPorts(next, plans)
      && (SavedAs(stateFile, next) || SavedAs(stateFile, state))
      && active == target && pool == NodesOfFetch(fetch) && catalog == newCatalog
    }

    /** Commit and publish what is staged, or stop it. */
    method CommitAndPublish(target: Name, newCatalog: map<Name, Source>, fetch: Fetch) returns (ok: bool, ghost next: St)
      requires Conserved(View()) && InRange() && AllReported(classes, state.classes, active)
      requires target in newCatalog && |staged| == |classes| && AllChecked(View())
      modifies this, files
      ensures Valid() && NoneTried()
      ensures OnlySpareSlot(old(files.content), files.content, newCatalog[target], fetch, Lookup(old(state).slots, target))
      ensures ok ==> SlotHoldsBody(files.content, newCatalog[target], fetch, Lookup(old(state).slots, target))
      ensures ok ==> Completed(target, newCatalog, fetch, old(staged), next) && checked == old(checked)
      ensures !ok ==> LiveSame() && nextPlane == old(nextPlane) && checked == old(checked) && owner == NoneStaging(old(owner))
    {
      ghost var f := View();
      BatchTakesOver(f, target);
      var toSave: St;
      ok, toSave := CommitOrStop(target, newCatalog, fetch);
      next := toSave;
      if ok {
        assert View() == f;
        Finish(target, newCatalog, NodesOfFetch(fetch), toSave);
        assert View() == BatchInstalled(f, target);
      }
    }

    /** Stage, commit, publish. */
    method RunTransaction(target: Name, newCatalog: map<Name, Source>, fetch: Fetch)
      returns (ok: bool, why: Abort, ghost planes: seq<Plane>, ghost log: seq<Attempt>, ghost next: St)
      requires Valid() && target in newCatalog
      modifies this, files
      ensures Valid() && attempts == old(attempts) + log && stopping == old(stopping)
      ensures OnlySpareSlot(old(files.content), files.content, newCatalog[target], fetch, Lookup(old(state).slots, target))
      ensures ok ==> SlotHoldsBody(files.content, newCatalog[target], fetch, Lookup(old(state).slots, target))
      ensures ok ==> |planes| == |old(classes)| && Completed(target, newCatalog, fetch, planes, next) && StagedForSwitch(target, newCatalog, fetch, planes, log)
      ensures !ok ==> LiveSame() && OnlyStarts()
      ensures !ok ==> why != Refused && (why == NoCandidate ==>
        SomeClassHasNone(NodesOfFetch(fetch), KnownStats(state, catalog, target, newCatalog[target]), active == target, log))
    {
      planes, next := [], state;
      var timedOut;
      ok, timedOut, log := StageProfile(target, newCatalog[target], fetch);
      why := if timedOut then TimedOut else NoCandidate;
      if !ok { return; }
      why, planes := NotCommitted, staged;
      ok, next := CommitAndPublish(target, newCatalog, fetch);
    }

    /** Statistics guide the choice only when they belong to the source to be used. */
    method StageProfile(target: Name, source: Source, fetch: Fetch) returns (ok: bool, timedOut: bool, ghost log: seq<Attempt>)
      requires Valid()
      modifies this
      ensures Conserved(View()) && LiveSame() && OnlyStarts() && attempts == old(attempts) + log
      ensures forall id | id in old(owner) :: !old(owner)[id].Staging?
      ensures !ok ==> staged == []
      ensures ok ==> |staged| == |classes| && AllChecked(View())
      ensures ok ==> NewlyStaged(staged, classes, checked, log, old(nextPlane), NodesOfFetch(fetch),
        KnownStats(state, catalog, target, source), active == target, regions)
      ensures !ok && !timedOut ==> SomeClassHasNone(NodesOfFetch(fetch), KnownStats(state, catalog, target, source), active == target, log)
    {
      NoneStaged(View());
      var trusted := SourceIsTrusted(state, target, source) && Lookup(catalog, target) == Some(source);
      var stats := if trusted then NodesFor(state, target) else None;
      ghost var first := nextPlane;
      ok, timedOut, log := StageAll(NodesOfFetch(fetch), stats, active == target);
      if ok { AllStagedChecked(View(), log, first, NodesOfFetch(fetch), StatsOr(stats), active == target, regions); }
    }

    /** Switch to, refresh or reload a profile: all classes or none. */
    method SwitchSubscription(target: Name, newCatalog: map<Name, Source>, allowCached: bool, fetch: Fetch)
      returns (ok: bool, why: Abort, ghost planes: seq<Plane>, ghost log: seq<Attempt>, ghost next: St)
      requires Valid()
      modifies this, files
      ensures Valid()
      ensures !ok ==> LiveSame() && OnlyStarts() && forall id | id in owner && id !in old(owner) :: owner[id].Stopped?
      ensures if target in newCatalog
              then OnlySpareSlot(old(files.content), files.content, newCatalog[target], fetch, Lookup(old(state).slots, target))
              else files.content == old(files.content)
      ensures ok ==> target in newCatalog && SlotHoldsBody(files.content, newCatalog[target], fetch, Lookup(old(state).slots, target))
      ensures ok ==> target in newCatalog && |planes| == |old(classes)| && Completed(target, newCatalog, fetch, planes, next)
      ensures ok ==> StagedForSwitch(target, newCatalog, fetch, planes, log)
      ensures ok && fetch.Fetched? && newCatalog[target].Remote? ==>
        Lookup(next.slots, target) == Some(if Lookup(old(state).slots, target) == Some("a") then "b" else "a")
      ensures attempts == old(attempts) + log && stopping == old(stopping)
      ensures ok ==> MayRun(target, newCatalog, allowCached, fetch, old(state), old(active), old(catalog))
      ensures !ok ==> (why == Refused <==> !MayRun(target, newCatalog, allowCached, fetch, state, active, catalog))
      ensures !ok && why == NoCandidate ==>
        SomeClassHasNone(NodesOfFetch(fetch), KnownStats(state, catalog, target, newCatalog[target]), active == target, log)
    {
      ok, why, planes, log, next := false, Refused, [], [], state;
      if target !in newCatalog { return; }
      var trusted := SourceIsTrusted(state, target, newCatalog[target]) && Lookup(catalog, target) == Some(newCatalog[target]);
      if fetch.FetchFailed? && !(allowCached && active != target && trusted) { return; }
      var nodes, timedOut: bool := NodesOfFetch(fetch), *;
      if nodes == [] || |nodes| > MAX_PROFILE_NODES { return; }
      if timedOut {
        why := TimedOut;
        return;
      }
      ghost var before := View();
      ok, why, planes, log, next := RunTransaction(target, newCatalog, fetch);
      if !ok { NewArePlanesStopped(before, View()); }
    }

    /** Teardown, after the workers and the listeners have been joined: every plane ever
        started is stopped, no class entry shows a port, and nothing else is forgotten: the
        next start finds every node's statistics and the node each class served. */
    method Shutdown()
      requires Valid()
      modifies this
      ensures forall id | id in owner :: owner[id].Stopped?
      ensures owner.Keys == old(owner).Keys && draining == map[]
      ensures |classes| == |old(classes)| && forall c | 0 <= c < |classes| :: classes[c] == old(classes)[c].(active := None)
      ensures state == old(state).(classes := state.classes) && PortsCleared(old(state).classes, state.classes, old(classes), |old(classes)|)
      ensures stateFile == old(stateFile) || SavedAs(stateFile, state)
      ensures active == old(active) && pool == old(pool) && catalog == old(catalog) && generation == old(generation) && NoneTried()
    {
      ghost var f := View();
      StopActive();
      forall id | id in draining ensures id in owner { assert DrainingOk(f, id); }
      forall id | id in owner ensures owner[id].Stopped? || id in draining { assert OwnerOk(f, id); }
      StopDraining();
      SaveState();
    }

    method StopActive()
      requires Valid()
      modifies this`classes, this`owner, this`state
      ensures owner.Keys == old(owner).Keys
      ensures forall id | id in owner :: owner[id] == if old(owner)[id].Serving? then Stopped else old(owner)[id]
      ensures |classes| == |old(classes)| && forall c | 0 <= c < |classes| :: classes[c] == old(classes)[c].(active := None)
      ensures state == old(state).(classes := state.classes) && PortsCleared(old(state).classes, state.classes, old(classes), |old(classes)|)
    {
      ghost var f := View();
      for c := 0 to |classes|
        invariant |classes| == |f.classes| && owner.Keys == f.owner.Keys
        invariant forall j | 0 <= j < c :: classes[j] == f.classes[j].(active := None)
        invariant forall j | c <= j < |classes| :: classes[j] == f.classes[j]
        invariant state == old(state).(classes := state.classes) && PortsCleared(old(state).classes, state.classes, f.classes, c)
        invariant forall id | id in owner ::
          owner[id] == if f.owner[id].Serving? && f.owner[id].index < c then Stopped else f.owner[id]
      {
        OnlyServer(f, c);
        ghost var entries := state.classes;
        var rt := classes[c];
        if rt.active.Some? { owner := owner[rt.active.value.id := Stopped]; }
        classes := classes[c := rt.(active := None)];
        ClearPorts(rt.name);
        OneMoreCleared(old(state).classes, entries, state.classes, f.classes, c);
      }
      forall id | id in owner && f.owner[id].Serving? ensures f.owner[id].index < |classes| { assert OwnerOk(f, id); }
    }

    method ClearPorts(className: Name)
      modifies this`state
      ensures state == old(state).(classes := state.classes)
      ensures LostItsPorts(old(state).classes, state.classes, className)
      ensures state.classes == old(state).classes[className := state.classes[className]]
    {
      var entry := if className in state.classes then state.classes[className] else ClassState(None, None, None, 0);
      state := state.(classes := state.classes[className := entry.(socksPort := None, httpPort := None)]);
    }

    method StopDraining()
      modifies this`draining, this`owner
      requires forall id | id in draining :: id in owner
      ensures draining == map[] && owner.Keys == old(owner).Keys
      ensures forall id | id in owner :: owner[id] == if id in old(draining) then Stopped else old(owner)[id]
    {
      while draining != map[]
        invariant owner.Keys == old(owner).Keys && draining.Keys <= old(draining).Keys
        invariant forall id | id in owner :: owner[id] == if id in old(draining) && id !in draining then Stopped else old(owner)[id]
        decreases |draining|
      {
        var id :| id in draining;
        draining := draining - {id};
        owner := owner[id := Stopped];
      }
    }
  }

  // ---------------------------------------------------------------------------------
  // What a transaction may read and write.

  /** The target is configured, its manifest has some and not too many nodes, and the nodes are
      freshly fetched, or those last trusted of a profile that is not the active one, under the
      source it is still configured with. */
  predicate MayRun(target: Name, newCatalog: map<Name, Source>, allowCached: bool, fetch: Fetch, s: St, active: Name, catalog: map<Name, Source>) {
    && target in newCatalog
    && match fetch
       case Fetched(nodes, _) => 0 < |nodes| <= MAX_PROFILE_NODES
       case FetchFailed(snapshot) =>
         && 0 < |snapshot| <= MAX_PROFILE_NODES && allowCached && target != active
         && target in s.identities && s.identities[target] == newCatalog[target] && target !in s.pending
         && target in catalog && catalog[target] == newCatalog[target]
  }

  function NodesOfFetch(fetch: Fetch): seq<Node> {
    match fetch case Fetched(nodes, _) => nodes case FetchFailed(snapshot) => snapshot
  }

  function CachePath(cacheFile: string): Path {
    Path([], Some(cacheFile))
  }

  function SlotToWrite(source: Source, fetch: Fetch, confirmed: Option<string>): Option<string> {
    if fetch.Fetched? && source.Remote? then Some(NextSlot(confirmed)) else None
  }

  /** No file but the unconfirmed slot of the target has been written. */
  ghost predicate OnlySpareSlot(before: map<Path, string>, after: map<Path, string>, source: Source, fetch: Fetch, confirmed: Option<string>) {
    if fetch.Fetched? && source.Remote? then
      forall p :: Some(p) == CacheSlotPath(CachePath(source.cacheFile), NextSlot(confirmed)) || Lookup(after, p) == Lookup(before, p)
    else after == before
  }

  /** A fetched remote body is in the slot that was not the confirmed one. */
  predicate SlotHoldsBody(after: map<Path, string>, source: Source, fetch: Fetch, confirmed: Option<string>) {
    fetch.Fetched? && source.Remote? ==>
      var path := CacheSlotPath(CachePath(source.cacheFile), if confirmed == Some("a") then "b" else "a");
      path.Some? && Lookup(after, path.value) == Some(fetch.body)
  }

  /** Statistics may guide the choice only when they belong to the source to be used. */
  function KnownStats(s: St, catalog: map<Name, Source>, target: Name, source: Source): StatsMap {
    if SourceIsTrusted(s, target, source) && Lookup(catalog, target) == Some(source) then StatsOr(NodesFor(s, target)) else map[]
  }

  predicate SavedAs(file: Option<Wire<Stats>>, s: St) {
    Save(s).Ok? && file == Some(Save(s).value)
  }

  /** The entry shows no port and still names node and generation. */
  predicate LostItsPorts(before: map<Name, ClassState>, after: map<Name, ClassState>, className: Name) {
    && className in after
    && after[className] == if className in before then before[className].(socksPort := None, httpPort := None)
                           else ClassState(None, None, None, 0)
  }

  /** The first `n` classes have lost their ports, all other entries are as before. */
  ghost predicate PortsCleared(before: map<Name, ClassState>, after: map<Name, ClassState>, classes: seq<ClassRt>, n: nat)
    requires n <= |classes|
  {
    && (forall c | 0 <= c < n :: LostItsPorts(before, after, classes[c].name))
    && (forall name | (forall c | 0 <= c < n :: classes[c].name != name) :: Lookup(after, name) == Lookup(before, name))
  }

  lemma OneMoreCleared(before: map<Name, ClassState>, mid: map<Name, ClassState>, after: map<Name, ClassState>, classes: seq<ClassRt>, n: nat)
    requires ClassesApart(classes) && n < |classes| && PortsCleared(before, mid, classes, n)
    requires LostItsPorts(mid, after, classes[n].name) && after == mid[classes[n].name := after[classes[n].name]]
    ensures PortsCleared(before, after, classes, n + 1)
  {
    forall c | 0 <= c < n ensures classes[c].name != classes[n].name {}
    assert Lookup(mid, classes[n].name) == Lookup(before, classes[n].name);
  }

  predicate HasNoPorts(entries: map<Name, ClassState>, className: Name) {
    className in entries && entries[className].socksPort.None? && entries[className].httpPort.None?
  }

  /** The plane runs the first of the first five that passed. */
  predicate FirstThatPasses(p: Plane, rt: ClassRt, log: seq<Attempt>, order: seq<Node>) {
    exists j :: 0 <= j < |order| && j < MAX_SWITCH_CANDIDATES && order[j] == p.node && AllTried(rt.name, order[..j], log)
  }

  /** What a switch installs are newly started planes on nodes of the new pool: for each class the
      first that passes of five candidates in the order of its statistics. On a refresh the
      class keeps its regions and prefers its current node, else neither. */
  lemma StagedServesNewPool(staged: seq<Plane>, classes: seq<ClassRt>, checked: set<Check>, log: seq<Attempt>, first: nat,
    nodes: seq<Node>, stats: StatsMap, refreshed: bool, regions: map<Name, seq<string>>, k: nat) returns (order: seq<Node>)
    requires Distinct(nodes) && NewlyStaged(staged, classes, checked, log, first, nodes, stats, refreshed, regions) && k < |staged|
    ensures staged[k].node in nodes && staged[k].id >= first && Check(staged[k].id, classes[k].name) in checked
    ensures FirstThatPasses(staged[k], classes[k], log, order)
    ensures order == CandidateOrder(nodes, stats,
      if refreshed && classes[k].active.Some? then Some(classes[k].active.value.node.name) else None,
      if refreshed && classes[k].name in regions then regions[classes[k].name] else [])
  {
    var rt := classes[k];
    CandidateOrderIsFaithful(nodes, stats, PreferredFor(rt, refreshed), RegionsFor(rt, refreshed, regions));
    order := CandidateOrder(nodes, stats, PreferredFor(rt, refreshed), RegionsFor(rt, refreshed, regions));
    assert StagedFor(staged[k], rt, checked, log, nodes, stats, refreshed, regions);
    var five := CandidatesFor(rt, nodes, stats, refreshed, regions);
    var j :| 0 <= j < |five| && five[j] == staged[k].node && AllTried(rt.name, five[..j], log);
    assert order[j] == staged[k].node && order[..j] == five[..j];
  }

  /** Statistics guide the choice exactly when they belong to the source to be used: it is the
      trusted one and the one configured now. */
  lemma KnownStatsExactly(s: St, catalog: map<Name, Source>, target: Name, source: Source)
    ensures var trusted := target in s.identities && s.identities[target] == source && target !in s.pending
                           && target in catalog && catalog[target] == source;
      KnownStats(s, catalog, target, source) ==
        if !trusted then map[] else if s.active == Some(target) then s.nodes else if target in s.inactive then s.inactive[target] else map[]
  {}

  /** What a crash between the save and the publication leaves on disk shows no staged port:
      `base` is the reconciled and activated state. */
  lemma {:induction false} SavedBatchShowsNoPorts(base: St, target: Name, slot: Option<string>, classes: seq<ClassRt>, staged: seq<Plane>, now: int, k: nat)
    requires |classes| == |staged| && ClassesApart(classes) && k < |classes|
    ensures var next := Dressed(base, target, slot, Plans(classes, staged, |classes|), Calm, now);
      Save(next).Ok? ==> Save(next).value.WireV2? && HasNoPorts(Save(next).value.classes, classes[k].name)
  {
    PlansArePlanned(base.classes, classes, staged);
    assert IsPlannedIn(PlannedClasses(base.classes, Plans(classes, staged, |classes|)), classes[k], staged[k]);
  }

  /** With nothing staged and the live fields as before, the planes started since are stopped. */
  lemma NewArePlanesStopped(f: Fleet, g: Fleet)
    requires Conserved(f) && Conserved(g) && g.staged == []
    requires g.classes == f.classes && g.draining == f.draining
    ensures forall id | id in g.owner && id !in f.owner :: g.owner[id].Stopped?
  {
    forall id | id in g.owner && id !in f.owner ensures g.owner[id].Stopped? {
      assert OwnerOk(g, id) && DrainingOk(f, id);
      assert g.owner[id].Serving? ==> ClassOk(f, g.owner[id].index);
    }
  }

  lemma AllStagedChecked(f: Fleet, log: seq<Attempt>, first: nat, nodes: seq<Node>, stats: StatsMap, refreshed: bool, regions: map<Name, seq<string>>)
    requires NewlyStaged(f.staged, f.classes, f.checked, log, first, nodes, stats, refreshed, regions)
    ensures AllChecked(f)
  {
    forall k: nat ensures StagedChecked(f, k) {
      if k < |f.staged| { assert StagedFor(f.staged[k], f.classes[k], f.checked, log, nodes, stats, refreshed, regions); }
    }
  }

  lemma PlansArePlanned(entries: map<Name, ClassState>, classes: seq<ClassRt>, staged: seq<Plane>)
    requires |classes| == |staged| && ClassesApart(classes)
    ensures AllPlanned(PlannedClasses(entries, Plans(classes, staged, |classes|)), classes, staged)
  {
    PlansHaveNames(classes, staged, |classes|);
  }

  // ---------------------------------------------------------------------------------
  // The planned batch.

  function PlanFor(rt: ClassRt, p: Plane): Plan {
    Plan(p.node.name, p.socks, p.http, NextGeneration(rt.route.generation))
  }

  function Plans(classes: seq<ClassRt>, staged: seq<Plane>, n: nat): map<Name, Plan>
    requires n <= |classes| && n <= |staged|
  {
    if n == 0 then map[] else Plans(classes, staged, n - 1)[classes[n - 1].name := PlanFor(classes[n - 1], staged[n - 1])]
  }

  lemma {:induction false} PlansHaveNames(classes: seq<ClassRt>, staged: seq<Plane>, n: nat)
    requires n <= |classes| && n <= |staged| && ClassesApart(classes)
    ensures forall name :: name in Plans(classes, staged, n) <==> exists k :: 0 <= k < n && classes[k].name == name
    ensures forall k | 0 <= k < n :: Plans(classes, staged, n)[classes[k].name] == PlanFor(classes[k], staged[k])
    ensures forall k | n <= k < |classes| :: classes[k].name !in Plans(classes, staged, n)
  {
    if n > 0 { PlansHaveNames(classes, staged, n - 1); }
  }

  lemma PlansStep(classes: seq<ClassRt>, staged: seq<Plane>, k: nat)
    requires k < |classes| && k < |staged| && ClassesApart(classes)
    ensures classes[k].name !in Plans(classes, staged, k)
    ensures Plans(classes, staged, k + 1) == Plans(classes, staged, k)[classes[k].name := PlanFor(classes[k], staged[k])]
  {
    PlansHaveNames(classes, staged, k);
  }

  /** The state has a class entry for this plan, still without ports. */
  predicate IsPlannedIn(entries: map<Name, ClassState>, rt: ClassRt, p: Plane) {
    Lookup(entries, rt.name) == Some(ClassState(Some(p.node.name), None, None, NextGeneration(rt.route.generation)))
  }

  /** Every class is planned for the plane staged for it. */
  predicate AllPlanned(entries: map<Name, ClassState>, classes: seq<ClassRt>, staged: seq<Plane>)
    requires |classes| == |staged|
  {
    forall k | 0 <= k < |classes| :: IsPlannedIn(entries, classes[k], staged[k])
  }

  lemma NothingPlanned(entries: map<Name, ClassState>, nodes: map<Name, Stats>)
    ensures PlannedClasses(entries, map[]) == entries
    ensures Calmed(nodes, map[], Calm) == nodes
  {
    var none: map<Name, Plan> := map[];
    assert forall n :: !IsPlanned(none, n);
    assert Calmed(nodes, none, Calm) == nodes;
    assert PlannedClasses(entries, none) == entries;
  }

  lemma NothingLive(entries: map<Name, ClassState>)
    ensures LiveClasses(entries, map[]) == entries
  {
    var none: map<Name, Plan> := map[];
    assert LiveClasses(entries, none) == entries;
  }

  lemma PlannedOneMore(planned: map<Name, Plan>, c: Name, plan: Plan, n: Name)
    requires c !in planned
    ensures IsPlanned(planned[c := plan], n) <==> IsPlanned(planned, n) || n == plan.node
  {
    var more := planned[c := plan];
    if IsPlanned(planned, n) {
      var x :| x in planned && planned[x].node == n;
      assert x in more && more[x].node == n;
    }
    if n == plan.node { assert c in more && more[c].node == n; }
  }

  lemma CalmedOneMore(nodes: map<Name, Stats>, planned: map<Name, Plan>, c: Name, plan: Plan)
    requires c !in planned
    ensures var d := Calmed(nodes, planned, Calm);
      Calmed(nodes, planned[c := plan], Calm) == if plan.node in d then d[plan.node := Calm(d[plan.node])] else d
  {
    forall n { PlannedOneMore(planned, c, plan, n); }
  }

  lemma DressClassStep(entries: map<Name, ClassState>, classes: seq<ClassRt>, staged: seq<Plane>, k: nat)
    requires k < |classes| && k < |staged| && ClassesApart(classes)
    ensures var plan := PlanFor(classes[k], staged[k]);
      PlannedClasses(entries, Plans(classes, staged, k + 1))
      == PlannedClasses(entries, Plans(classes, staged, k))[classes[k].name := ClassState(Some(plan.node), None, None, plan.generation)]
  {
    PlansStep(classes, staged, k);
    PlannedClassesOneMore(entries, Plans(classes, staged, k), classes[k].name, PlanFor(classes[k], staged[k]));
  }

  lemma PlannedClassesOneMore(entries: map<Name, ClassState>, planned: map<Name, Plan>, c: Name, plan: Plan)
    ensures PlannedClasses(entries, planned[c := plan])
         == PlannedClasses(entries, planned)[c := ClassState(Some(plan.node), None, None, plan.generation)]
  {}

  lemma CalmStep(nodes: map<Name, Stats>, classes: seq<ClassRt>, staged: seq<Plane>, k: nat)
    requires k < |classes| && k < |staged| && ClassesApart(classes)
    ensures var plan, d := PlanFor(classes[k], staged[k]), Calmed(nodes, Plans(classes, staged, k), Calm);
      Calmed(nodes, Plans(classes, staged, k + 1), Calm) == if plan.node in d then d[plan.node := Calm(d[plan.node])] else d
  {
    PlansStep(classes, staged, k);
    CalmedOneMore(nodes, Plans(classes, staged, k), classes[k].name, PlanFor(classes[k], staged[k]));
  }

  /** The first `n` classes have taken over their planes, the others not yet. */
  predicate Flipped(classes: seq<ClassRt>, former: seq<ClassRt>, staged: seq<Plane>, target: Name, n: nat) {
    && |classes| == |former| == |staged| && n <= |former|
    && (forall j | 0 <= j < n :: classes[j] == Moved(former[j], staged[j], target))
    && (forall j | n <= j < |former| :: classes[j] == former[j])
  }

  lemma FlipOne(classes: seq<ClassRt>, former: seq<ClassRt>, staged: seq<Plane>, target: Name, n: nat)
    requires Flipped(classes, former, staged, target, n) && n < |former|
    ensures classes[n] == former[n] && Flipped(classes[n := Moved(classes[n], staged[n], target)], former, staged, target, n + 1)
  {}

  lemma AllFlipped(classes: seq<ClassRt>, former: seq<ClassRt>, staged: seq<Plane>, target: Name)
    requires Flipped(classes, former, staged, target, |former|)
    ensures classes == MovedAll(former, staged, target)
  {}

  lemma FlipStep(entries: map<Name, ClassState>, classes: seq<ClassRt>, staged: seq<Plane>, k: nat)
    requires k < |classes| && k < |staged| && ClassesApart(classes) && IsPlannedIn(entries, classes[k], staged[k])
    ensures var live, name := LiveClasses(entries, Plans(classes, staged, k)), classes[k].name;
      && name in live
      && LiveClasses(entries, Plans(classes, staged, k + 1))
         == live[name := live[name].(socksPort := Some(staged[k].socks), httpPort := Some(staged[k].http))]
  {
    PlansStep(classes, staged, k);
  }

  lemma InstalledIsReported(classes: seq<ClassRt>, c: nat, p: Plane, profile: Name, entries: map<Name, ClassState>)
    requires c < |classes| && ClassesApart(classes) && AllReported(classes, entries, profile)
    ensures var rt := Moved(classes[c], p, profile);
      AllReported(classes[c := rt],
        entries[rt.name := ClassState(Some(p.node.name), Some(p.socks), Some(p.http), rt.route.generation)], profile)
  {
    forall d | 0 <= d < |classes| && d != c ensures classes[d].name != classes[c].name && Reported(classes[d], entries, profile) {}
  }

  lemma BatchIsReported(entries: map<Name, ClassState>, classes: seq<ClassRt>, staged: seq<Plane>, profile: Name)
    requires |classes| == |staged| && ClassesApart(classes)
    ensures AllReported(MovedAll(classes, staged, profile), LiveClasses(entries, Plans(classes, staged, |classes|)), profile)
  {
    PlansHaveNames(classes, staged, |classes|);
  }

  // ---------------------------------------------------------------------------------
  // Which nodes may be tried.

  function RecordedNode(s: St, className: Name): Option<Name> {
    if className in s.classes then s.classes[className].activeNode else None
  }

  function StatsOr(stats: Option<StatsMap>): StatsMap {
    if stats.Some? then stats.value else map[]
  }

  /** A refresh prefers the current node and stays in the class's regions; a switch to
      another profile does neither. */
  function PreferredFor(rt: ClassRt, refreshed: bool): Option<Name> {
    if refreshed then CurrentName(rt.active) else None
  }

  function RegionsFor(rt: ClassRt, refreshed: bool, regions: map<Name, seq<string>>): seq<string> {
    if refreshed && rt.name in regions then regions[rt.name] else []
  }

  function CandidatesFor(rt: ClassRt, nodes: seq<Node>, stats: StatsMap, refreshed: bool, regions: map<Name, seq<string>>): seq<Node> {
    FirstOf(CandidateOrder(nodes, stats, PreferredFor(rt, refreshed), RegionsFor(rt, refreshed, regions)), MAX_SWITCH_CANDIDATES)
  }

  function CurrentName(active: Option<Plane>): Option<Name> {
    if active.Some? then Some(active.value.node.name) else None
  }

  function NodeNames(active: Option<Plane>): (names: set<Name>)
    ensures forall n :: n in names <==> active.Some? && active.value.node.name == n
  {
    if active.Some? then {active.value.node.name} else {}
  }

  function AnyOf(names: set<Name>): Node -> bool { (n: Node) => n.name in names }

  /** The first node of the pool that has one of the names. */
  function FirstNamed(pool: seq<Node>, names: set<Name>): seq<Node> {
    FirstOf(Filter(pool, AnyOf(names)), 1)
  }

  predicate IsTheNamed(found: seq<Node>, pool: seq<Node>, names: set<Name>) {
    && (found == [] <==> forall n | n in names :: n !in NamesOf(pool))
    && (found != [] ==> found == [found[0]] && found[0] in pool && found[0].name in names)
  }

  lemma FirstNamedIs(pool: seq<Node>, names: set<Name>)
    ensures IsTheNamed(FirstNamed(pool, names), pool, names)
  {
    var found := Filter(pool, AnyOf(names));
    FilterKeeps(pool, AnyOf(names));
    if found != [] {
      assert found[0] in found && found[0].name in NamesOf(pool);
    } else {
      forall n | n in NamesOf(pool) ensures n !in names {
        var i :| 0 <= i < |pool| && pool[i].name == n;
        assert pool[i] !in found;
      }
    }
  }

  /** A walk that stops inside the first part of a longer plan. */
  lemma PlanGoesOn(className: Name, plan: seq<Node>, more: seq<Node>, failed: nat, passed: bool)
    requires failed <= |plan| && (passed ==> failed < |plan|)
    ensures (plan + more)[..failed] == plan[..failed] && (passed ==> (plan + more)[failed] == plan[failed])
    ensures Walk(className, plan + more, failed, passed) == Walk(className, plan, failed, passed)
  {}

  /** The first of the candidates that passed: those before it failed. */
  predicate ChosenFrom(node: Node, candidates: seq<Node>, className: Name, log: seq<Attempt>) {
    exists j :: 0 <= j < |candidates| && candidates[j] == node && AllTried(className, candidates[..j], log)
  }

  predicate AllTried(className: Name, nodes: seq<Node>, log: seq<Attempt>) {
    forall i | 0 <= i < |nodes| :: Attempt(className, nodes[i], false) in log
  }

  lemma FailuresAreTried(className: Name, nodes: seq<Node>)
    ensures AllTried(className, nodes, AllFailed(className, nodes))
  {
    forall i | 0 <= i < |nodes| ensures Attempt(className, nodes[i], false) in AllFailed(className, nodes) {
      assert AllFailed(className, nodes)[i] == Attempt(className, nodes[i], false);
    }
  }

  lemma WalkIsChoice(className: Name, candidates: seq<Node>, i: nat)
    requires i < |candidates|
    ensures ChosenFrom(candidates[i], candidates, className, Walk(className, candidates, i, true))
  {
    FailuresAreTried(className, candidates[..i]);
    assert AllTried(className, candidates[..i], Walk(className, candidates, i, true));
  }

  lemma WalkLeavesNone(className: Name, candidates: seq<Node>, before: seq<Attempt>, more: seq<Attempt>)
    requires more == Walk(className, candidates, |candidates|, false)
    ensures AllTried(className, candidates, before + more)
  {
    assert candidates[..|candidates|] == candidates && more == AllFailed(className, candidates);
    FailuresAreTried(className, candidates);
  }

  /** The plane staged for a class passed the check of that class and runs the first of its
      candidates of the new profile that did. */
  predicate StagedFor(p: Plane, rt: ClassRt, checked: set<Check>, log: seq<Attempt>,
    nodes: seq<Node>, stats: StatsMap, refreshed: bool, regions: map<Name, seq<string>>)
  {
    Check(p.id, rt.name) in checked && ChosenFrom(p.node, CandidatesFor(rt, nodes, stats, refreshed, regions), rt.name, log)
  }

  lemma LongerLog(p: Plane, rt: ClassRt, checked: set<Check>, checked': set<Check>, log: seq<Attempt>, log': seq<Attempt>,
    nodes: seq<Node>, stats: StatsMap, refreshed: bool, regions: map<Name, seq<string>>)
    requires StagedFor(p, rt, checked, log, nodes, stats, refreshed, regions)
    requires checked <= checked' && forall a | a in log :: a in log'
    ensures StagedFor(p, rt, checked', log', nodes, stats, refreshed, regions)
  {
    var candidates := CandidatesFor(rt, nodes, stats, refreshed, regions);
    var j :| 0 <= j < |candidates| && candidates[j] == p.node && AllTried(rt.name, candidates[..j], log);
    assert AllTried(rt.name, candidates[..j], log');
  }

  ghost predicate NewlyStaged(staged: seq<Plane>, classes: seq<ClassRt>, checked: set<Check>, log: seq<Attempt>, first: nat,
    nodes: seq<Node>, stats: StatsMap, refreshed: bool, regions: map<Name, seq<string>>)
  {
    |staged| <= |classes| &&
    forall k | 0 <= k < |staged| ::
      first <= staged[k].id && StagedFor(staged[k], classes[k], checked, log, nodes, stats, refreshed, regions)
  }

  lemma OneMoreStaged(before: seq<Plane>, after: seq<Plane>, classes: seq<ClassRt>, checked: set<Check>, checked': set<Check>,
    log: seq<Attempt>, more: seq<Attempt>, first: nat,
    nodes: seq<Node>, stats: StatsMap, refreshed: bool, regions: map<Name, seq<string>>)
    requires NewlyStaged(before, classes, checked, log, first, nodes, stats, refreshed, regions) && checked <= checked'
    requires |after| == |before| + 1 <= |classes| && after[..|before|] == before && first <= after[|before|].id
    requires StagedFor(after[|before|], classes[|before|], checked', more, nodes, stats, refreshed, regions)
    ensures NewlyStaged(after, classes, checked', log + more, first, nodes, stats, refreshed, regions)
  {
    forall k | 0 <= k < |after|
      ensures first <= after[k].id && StagedFor(after[k], classes[k], checked', log + more, nodes, stats, refreshed, regions)
    {
      if k < |before| {
        assert after[k] == before[k];
        LongerLog(after[k], classes[k], checked, checked', log, log + more, nodes, stats, refreshed, regions);
      } else {
        LongerLog(after[k], classes[k], checked', checked', more, log + more, nodes, stats, refreshed, regions);
      }
    }
  }

  lemma OnlyServer(f: Fleet, c: nat)
    requires Conserved(f) && c < |f.classes|
    ensures forall id | id in f.owner :: f.owner[id] == Serving(c) <==> (f.classes[c].active.Some? && f.classes[c].active.value.id == id)
    ensures f.classes[c].active.Some? ==> f.classes[c].active.value.id in f.owner
  {
    assert ClassOk(f, c);
    forall id | id in f.owner ensures f.owner[id] == Serving(c) <==> (f.classes[c].active.Some? && f.classes[c].active.value.id == id) {
      assert OwnerOk(f, id);
    }
  }

  lemma NoneStaged(f: Fleet)
    requires Conserved(f) && f.staged == []
    ensures forall id | id in f.owner :: !f.owner[id].Staging?
  {
    forall id | id in f.owner ensures !f.owner[id].Staging? { assert OwnerOk(f, id); }
  }
}
