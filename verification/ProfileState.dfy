/** The persistent state of the daemon (src/state.rs): a flat view of the active
    profile's statistics beside the statistics of the inactive profiles, and for each
    profile the confirmed cache slot and the identity of its source.

    `State` is the value; `StateFile` is the object whose methods update it in place.
    `S` is the type of one node's statistics, which these operations never inspect. */
module ProfileState {
  import opened Base

  const LEGACY_STATE_VERSION: nat := 1
  const STATE_VERSION: nat := 2
  const CACHE_SLOT_A := "a"
  const CACHE_SLOT_B := "b"

  datatype ClassState = ClassState(
    activeNode: Option<Name>, socksPort: Option<nat>, httpPort: Option<nat>, generation: nat)

  datatype State<S> = State(
    version: nat,
    updatedUnix: int,
    active: Option<Name>,
    classes: map<Name, ClassState>,
    nodes: map<Name, S>,
    slots: map<Name, string>,
    identities: map<Name, Source>,
    pending: map<Name, Source>,
    inactive: map<Name, map<Name, S>>,
    verdicts: map<Name, map<Name, string>>)

  function DefaultState<S>(): State<S> {
    State(STATE_VERSION, 0, None, map[], map[], map[], map[], map[], map[], map[])
  }

  /** The active profile is served from the flat view, the others from the map. */
  function NodesFor<S>(s: State<S>, profile: Name): Option<map<Name, S>> {
    if s.active == Some(profile) then Some(s.nodes) else Lookup(s.inactive, profile)
  }

  predicate SourceIsTrusted<S>(s: State<S>, profile: Name, identity: Source) {
    Lookup(s.identities, profile) == Some(identity) && profile !in s.pending
  }

  /** Every profile that owns an entry in one of the four per-profile maps. */
  function Known<S>(s: State<S>): set<Name> {
    s.inactive.Keys + s.slots.Keys + s.identities.Keys + s.pending.Keys
  }

  // ---------------------------------------------------------------------------------
  // Closed forms. Each describes the effect of a whole batch of profiles at once, so
  // it says nothing about the order in which a loop visits them.

  function Removed<S>(s: State<S>, gone: set<Name>): State<S> {
    var orphaned := s.active.Some? && s.active.value in gone;
    s.(active := if orphaned then None else s.active,
       nodes := if orphaned then map[] else s.nodes,
       slots := s.slots - gone,
       identities := s.identities - gone,
       pending := s.pending - gone,
       inactive := s.inactive - gone)
  }

  /** `m` with the given names bound as `to` binds them. */
  function Bound(m: map<Name, Source>, names: set<Name>, to: map<Name, Source>): map<Name, Source>
    requires names <= to.Keys
  {
    map p | p in m.Keys + names :: if p in names then to[p] else m[p]
  }

  /** The parked statistics that survive an invalidation of `names`. */
  function StatsKept<S>(inactive: map<Name, map<Name, S>>, active: Option<Name>, names: set<Name>): map<Name, map<Name, S>> {
    map p | p in inactive && (p !in names || active == Some(p)) :: inactive[p]
  }

  function Invalidated<S>(s: State<S>, names: set<Name>, to: map<Name, Source>): State<S>
    requires names <= to.Keys
  {
    s.(nodes := if s.active.Some? && s.active.value in names then map[] else s.nodes,
       slots := s.slots - names,
       identities := s.identities - names,
       pending := Bound(s.pending, names, to),
       inactive := StatsKept(s.inactive, s.active, names))
  }

  function Trusted<S>(s: State<S>, names: set<Name>, to: map<Name, Source>): State<S>
    requires names <= to.Keys
  {
    s.(pending := s.pending - names, identities := Bound(s.identities, names, to))
  }

  predicate Differs(m: map<Name, Source>, name: Name, identity: Source) {
    name in m && m[name] != identity
  }

  /** The profiles a catalog reload must re-establish: new, changed, or recorded under
      another identity. */
  function Changed<S>(s: State<S>, previous: map<Name, Source>, next: map<Name, Source>): set<Name> {
    set n | n in next &&
      (Lookup(previous, n) != Some(next[n]) || Differs(s.identities, n, next[n]) || Differs(s.pending, n, next[n]))
  }

  function Mismatched<S>(s: State<S>, current: map<Name, Source>): set<Name> {
    set n | n in current && (Differs(s.identities, n, current[n]) || Differs(s.pending, n, current[n]))
  }

  function VouchedNames(vouched: Option<Name>): set<Name> {
    if vouched.Some? then {vouched.value} else {}
  }

  /** The whole of `apply_subscription_catalog`. */
  function CatalogApplied<S>(
    s: State<S>, previous: map<Name, Source>, next: map<Name, Source>, vouched: Option<Name>): State<S>
  {
    Trusted(
      Invalidated(Removed(s, Known(s) - next.Keys), Changed(s, previous, next), next),
      VouchedNames(vouched) * next.Keys, next)
  }

  /** The whole of `reconcile_startup_sources`: what differs becomes pending, and every
      other configured profile without a pending marker is trusted. */
  function Reconciled<S>(s: State<S>, current: map<Name, Source>): State<S> {
    var quarantined := Invalidated(Removed(s, Known(s) - current.Keys), Mismatched(s, current), current);
    Trusted(quarantined, current.Keys - quarantined.pending.Keys, current)
  }

  function Activated<S>(s: State<S>, name: Name): State<S> {
    if s.version == LEGACY_STATE_VERSION then s.(version := STATE_VERSION, active := Some(name))
    else if s.active == Some(name) then s
    else
      var parked := if s.active.Some? then s.inactive[s.active.value := s.nodes] else s.inactive;
      s.(active := Some(name),
         nodes := if name in parked then parked[name] else map[],
         inactive := parked - {name})
  }

  // ---------------------------------------------------------------------------------
  // The object.

  class StateFile<S> {
    var version: nat
    var updatedUnix: int
    var active: Option<Name>
    var classes: map<Name, ClassState>
    var nodes: map<Name, S>
    var slots: map<Name, string>
    var identities: map<Name, Source>
    var pending: map<Name, Source>
    var inactive: map<Name, map<Name, S>>
    var verdicts: map<Name, map<Name, string>>

    function View(): State<S>
      reads this
    {
      State(version, updatedUnix, active, classes, nodes, slots, identities, pending, inactive, verdicts)
    }

    constructor (s: State<S>)
      ensures View() == s
    {
      version, updatedUnix, active, classes, nodes := s.version, s.updatedUnix, s.active, s.classes, s.nodes;
      slots, identities, pending, inactive, verdicts := s.slots, s.identities, s.pending, s.inactive, s.verdicts;
    }

    method RemoveSubscription(name: Name)
      modifies this
      ensures View() == Removed(old(View()), {name})
    {
      if active == Some(name) {
        nodes := map[];
        active := None;
      }
      inactive := inactive - {name};
      slots := slots - {name};
      identities := identities - {name};
      pending := pending - {name};
    }

    method InvalidateSubscriptionSource(name: Name, identity: Source)
      modifies this
      ensures View() == Invalidated(old(View()), {name}, map[name := identity])
    {
      if active == Some(name) {
        nodes := map[];
        assert inactive == StatsKept(inactive, active, {name});
      } else {
        inactive := inactive - {name};
        assert inactive == StatsKept(old(inactive), active, {name});
      }
      assert pending[name := identity] == Bound(pending, {name}, map[name := identity]);
      slots := slots - {name};
      identities := identities - {name};
      pending := pending[name := identity];
    }

    method TrustSubscriptionSource(name: Name, identity: Source)
      modifies this
      ensures View() == Trusted(old(View()), {name}, map[name := identity])
    {
      assert identities[name := identity] == Bound(identities, {name}, map[name := identity]);
      pending := pending - {name};
      identities := identities[name := identity];
    }

    /** The first loop of both reconciliations: forget every profile the catalog no
        longer lists, in any order. */
    method RemoveUnlisted(current: map<Name, Source>)
      modifies this
      ensures View() == Removed(old(View()), Known(old(View())) - current.Keys)
    {
      ghost var s0 := View();
      var known := inactive.Keys + slots.Keys + identities.Keys + pending.Keys;
      var todo := known - current.Keys;
      ghost var gone := {};
      while todo != {}
        invariant gone + todo == Known(s0) - current.Keys
        invariant View() == Removed(s0, gone)
      {
        var name :| name in todo;
        RemoveSubscription(name);
        RemovedTwice(s0, gone, name);
        todo := todo - {name};
        gone := gone + {name};
      }
    }

    method ApplySubscriptionCatalog(previous: map<Name, Source>, next: map<Name, Source>, vouched: Option<Name>)
      modifies this
      ensures View() == CatalogApplied(old(View()), previous, next, vouched)
    {
      ghost var s0 := View();
      RemoveUnlisted(next);
      var todo := next.Keys;
      CatalogStart(s0, previous, next, vouched);
      while todo != {}
        invariant todo <= next.Keys
        invariant View() == CatalogSoFar(s0, previous, next, vouched, next.Keys - todo)
      {
        var name :| name in todo;
        CatalogStep(s0, previous, next, vouched, next.Keys - todo, name);
        VisitCatalogEntry(previous, next, vouched, name);
        assert next.Keys - (todo - {name}) == next.Keys - todo + {name};
        todo := todo - {name};
      }
      assert next.Keys - todo == next.Keys;
      CatalogEnd(s0, previous, next, vouched);
    }

    method VisitCatalogEntry(previous: map<Name, Source>, next: map<Name, Source>, vouched: Option<Name>, name: Name)
      requires name in next
      modifies this
      ensures View() == CatalogVisit(old(View()), previous, next, vouched, name)
    {
      var identity := next[name];
      var changed := Lookup(previous, name) != Some(identity);
      var persistedMismatch := Differs(identities, name, identity);
      var pendingMismatch := Differs(pending, name, identity);
      if changed || persistedMismatch || pendingMismatch {
        InvalidateSubscriptionSource(name, identity);
      }
      if vouched == Some(name) {
        TrustSubscriptionSource(name, identity);
      }
    }

    method ReconcileStartupSources(current: map<Name, Source>)
      modifies this
      ensures View() == Reconciled(old(View()), current)
    {
      RemoveUnlisted(current);
      QuarantineMismatched(current);
      AdoptUnmarked(current);
      ReconciledInSteps(old(View()), current);
    }

    method QuarantineMismatched(current: map<Name, Source>)
      modifies this
      ensures View() == Invalidated(old(View()), Mismatched(old(View()), current), current)
    {
      ghost var s := View();
      var todo := current.Keys;
      assert Mismatched(s, current) * (current.Keys - todo) == {};
      NothingInvalidated(s, current);
      while todo != {}
        invariant todo <= current.Keys
        invariant View() == Invalidated(s, Mismatched(s, current) * (current.Keys - todo), current)
      {
        var name :| name in todo;
        QuarantineStep(s, current, current.Keys - todo, name);
        QuarantineEntry(name, current[name]);
        assert current.Keys - (todo - {name}) == current.Keys - todo + {name};
        todo := todo - {name};
      }
      assert Mismatched(s, current) * (current.Keys - todo) == Mismatched(s, current);
    }

    method QuarantineEntry(name: Name, identity: Source)
      modifies this
      ensures View() == if Differs(old(identities), name, identity) || Differs(old(pending), name, identity)
                        then Invalidated(old(View()), {name}, map[name := identity]) else old(View())
    {
      if Differs(identities, name, identity) || Differs(pending, name, identity) {
        InvalidateSubscriptionSource(name, identity);
      }
    }

    /** In its caller no stored identity differs from the configured one any more. */
    method AdoptUnmarked(current: map<Name, Source>)
      requires forall n | n in current && n in identities && n !in pending :: identities[n] == current[n]
      modifies this
      ensures View() == Trusted(old(View()), current.Keys - old(pending).Keys, current)
    {
      ghost var s := View();
      var todo := current.Keys;
      assert current.Keys - todo - s.pending.Keys == {};
      NothingTrusted(s, current);
      while todo != {}
        invariant todo <= current.Keys
        invariant View() == Trusted(s, current.Keys - todo - s.pending.Keys, current)
      {
        var name :| name in todo;
        AdoptStep(s, current, current.Keys - todo, name);
        AdoptEntry(name, current[name]);
        assert current.Keys - (todo - {name}) == current.Keys - todo + {name};
        todo := todo - {name};
      }
      assert current.Keys - todo - s.pending.Keys == current.Keys - s.pending.Keys;
    }

    /** The arm of the source for a stored identity that differs is dead: the earlier loop
        has already turned every such profile into a pending one. */
    method AdoptEntry(name: Name, identity: Source)
      requires name in pending || !Differs(identities, name, identity)
      modifies this
      ensures View() == if name in old(pending) || name in old(identities) then old(View())
                        else Trusted(old(View()), {name}, map[name := identity])
    {
      if name in pending { return; }
      match Lookup(identities, name)
      case Some(stored) =>
        if stored != identity { assert false; }
      case None =>
        TrustSubscriptionSource(name, identity);
    }

    method MigrateForSubscription(selected: Name) returns (migrated: bool)
      modifies this
      ensures migrated == (old(version) == LEGACY_STATE_VERSION)
      ensures View() == if migrated then old(View()).(version := STATE_VERSION, active := Some(selected)) else old(View())
    {
      if version != LEGACY_STATE_VERSION { return false; }
      version := STATE_VERSION;
      active := Some(selected);
      return true;
    }

    method ActivateSubscription(name: Name) returns (changed: bool)
      modifies this
      ensures View() == Activated(old(View()), name)
      ensures changed == (old(version) == LEGACY_STATE_VERSION || old(active) != Some(name))
    {
      var migrated := MigrateForSubscription(name);
      if migrated { return true; }
      if active == Some(name) { return false; }
      if active.Some? {
        var outgoing := nodes;
        nodes := map[];
        inactive := inactive[active.value := outgoing];
      }
      active := Some(name);
      nodes := if name in inactive then inactive[name] else map[];
      inactive := inactive - {name};
      return true;
    }
  }

  // ---------------------------------------------------------------------------------
  // How the closed forms compose, one profile at a time.

  lemma RemovedTwice<S>(s: State<S>, gone: set<Name>, name: Name)
    ensures Removed(Removed(s, gone), {name}) == Removed(s, gone + {name})
  {
    assert s.slots - gone - {name} == s.slots - (gone + {name});
    assert s.identities - gone - {name} == s.identities - (gone + {name});
    assert s.pending - gone - {name} == s.pending - (gone + {name});
    assert s.inactive - gone - {name} == s.inactive - (gone + {name});
  }

  lemma BoundTwice(m: map<Name, Source>, names: set<Name>, name: Name, to: map<Name, Source>)
    requires names <= to.Keys && name in to
    ensures Bound(Bound(m, names, to), {name}, map[name := to[name]]) == Bound(m, names + {name}, to)
  {}

  lemma StatsKeptTwice<S>(inactive: map<Name, map<Name, S>>, active: Option<Name>, names: set<Name>, name: Name)
    ensures StatsKept(StatsKept(inactive, active, names), active, {name}) == StatsKept(inactive, active, names + {name})
  {}

  lemma MinusTwice<V>(m: map<Name, V>, names: set<Name>, name: Name)
    ensures m - names - {name} == m - (names + {name})
  {}

  lemma InvalidatedTwice<S>(s: State<S>, names: set<Name>, name: Name, to: map<Name, Source>)
    requires names <= to.Keys && name in to
    ensures Invalidated(Invalidated(s, names, to), {name}, map[name := to[name]]) == Invalidated(s, names + {name}, to)
  {
    BoundTwice(s.pending, names, name, to);
    StatsKeptTwice(s.inactive, s.active, names, name);
    MinusTwice(s.slots, names, name);
    MinusTwice(s.identities, names, name);
  }

  lemma TrustedTwice<S>(s: State<S>, names: set<Name>, name: Name, to: map<Name, Source>)
    requires names <= to.Keys && name in to
    ensures Trusted(Trusted(s, names, to), {name}, map[name := to[name]]) == Trusted(s, names + {name}, to)
  {
    BoundTwice(s.identities, names, name, to);
    MinusTwice(s.pending, names, name);
  }

  lemma TrustedAgain<S>(s: State<S>, names: set<Name>, name: Name, to: map<Name, Source>)
    requires names <= to.Keys && name in to && name !in s.pending
    requires Lookup(s.identities, name) == Some(to[name])
    ensures Trusted(s, names, to) == Trusted(s, names + {name}, to)
  {
    assert s.pending - names == s.pending - (names + {name});
    assert Bound(s.identities, names, to) == Bound(s.identities, names + {name}, to);
  }

  lemma InvalidateAfterTrust<S>(s: State<S>, names: set<Name>, name: Name, to: map<Name, Source>)
    requires names <= to.Keys && name in to && name !in names
    ensures Invalidated(Trusted(s, names, to), {name}, map[name := to[name]])
         == Trusted(Invalidated(s, {name}, map[name := to[name]]), names, to)
  {
    var one := map[name := to[name]];
    assert Bound(s.identities, names, to) - {name} == Bound(s.identities - {name}, names, to);
    assert Bound(s.pending - names, {name}, one) == Bound(s.pending, {name}, one) - names;
  }

  lemma NothingInvalidated<S>(s: State<S>, to: map<Name, Source>)
    ensures Invalidated(s, {}, to) == s
  {
    assert s.slots - {} == s.slots;
    assert s.identities - {} == s.identities;
    assert Bound(s.pending, {}, to) == s.pending;
    assert StatsKept(s.inactive, s.active, {}) == s.inactive;
  }

  lemma NothingTrusted<S>(s: State<S>, to: map<Name, Source>)
    ensures Trusted(s, {}, to) == s
  {
    assert s.pending - {} == s.pending;
    assert Bound(s.identities, {}, to) == s.identities;
  }

  lemma UntouchedByInvalidation<S>(s: State<S>, names: set<Name>, name: Name, to: map<Name, Source>)
    requires names <= to.Keys && name !in names
    ensures Lookup(Invalidated(s, names, to).identities, name) == Lookup(s.identities, name)
    ensures Lookup(Invalidated(s, names, to).pending, name) == Lookup(s.pending, name)
  {}

  lemma UntouchedByTrust<S>(s: State<S>, names: set<Name>, name: Name, to: map<Name, Source>)
    requires names <= to.Keys && name !in names
    ensures Lookup(Trusted(s, names, to).identities, name) == Lookup(s.identities, name)
    ensures Lookup(Trusted(s, names, to).pending, name) == Lookup(s.pending, name)
  {}

  lemma QuarantineStep<S>(s: State<S>, current: map<Name, Source>, done: set<Name>, name: Name)
    requires done <= current.Keys && name in current && name !in done
    ensures var before := Invalidated(s, Mismatched(s, current) * done, current);
      Invalidated(s, Mismatched(s, current) * (done + {name}), current)
      == if Differs(before.identities, name, current[name]) || Differs(before.pending, name, current[name])
         then Invalidated(before, {name}, map[name := current[name]]) else before
  {
    var moved := Mismatched(s, current) * done;
    UntouchedByInvalidation(s, moved, name, current);
    assert Mismatched(s, current) * (done + {name}) == if name in Mismatched(s, current) then moved + {name} else moved;
    InvalidatedTwice(s, moved, name, current);
  }

  lemma AdoptStep<S>(s: State<S>, current: map<Name, Source>, done: set<Name>, name: Name)
    requires done <= current.Keys && name in current && name !in done
    requires forall n | n in current && n in s.identities && n !in s.pending :: s.identities[n] == current[n]
    ensures var before := Trusted(s, done - s.pending.Keys, current);
      && (name in before.pending || !Differs(before.identities, name, current[name]))
      && Trusted(s, done + {name} - s.pending.Keys, current)
         == if name in before.pending || name in before.identities then before
            else Trusted(before, {name}, map[name := current[name]])
  {
    var kept := done - s.pending.Keys;
    UntouchedByTrust(s, kept, name, current);
    assert done + {name} - s.pending.Keys == if name in s.pending then kept else kept + {name};
    if name !in s.pending && name in s.identities {
      TrustedAgain(s, kept, name, current);
    } else if name !in s.pending {
      TrustedTwice(s, kept, name, current);
    }
  }

  lemma ReconciledInSteps<S>(s: State<S>, current: map<Name, Source>)
    ensures var r := Removed(s, Known(s) - current.Keys);
      && Mismatched(r, current) == Mismatched(s, current)
      && var q := Invalidated(r, Mismatched(r, current), current);
         forall n | n in current && n in q.identities && n !in q.pending :: q.identities[n] == current[n]
  {}

  /** The state after the second reload loop has visited `done`. */
  ghost function CatalogSoFar<S>(
    s: State<S>, previous: map<Name, Source>, next: map<Name, Source>, vouched: Option<Name>, done: set<Name>): State<S>
    requires done <= next.Keys
  {
    Trusted(
      Invalidated(Removed(s, Known(s) - next.Keys), Changed(s, previous, next) * done, next),
      VouchedNames(vouched) * done, next)
  }

  /** One visit of the second reload loop. */
  ghost function CatalogVisit<S>(
    s: State<S>, previous: map<Name, Source>, next: map<Name, Source>, vouched: Option<Name>, name: Name): State<S>
    requires name in next
  {
    var one := map[name := next[name]];
    var stale := Lookup(previous, name) != Some(next[name]) || Differs(s.identities, name, next[name]) || Differs(s.pending, name, next[name]);
    var checked := if stale then Invalidated(s, {name}, one) else s;
    if vouched == Some(name) then Trusted(checked, {name}, one) else checked
  }

  lemma CatalogStart<S>(s: State<S>, previous: map<Name, Source>, next: map<Name, Source>, vouched: Option<Name>)
    ensures next.Keys - next.Keys == {}
    ensures CatalogSoFar(s, previous, next, vouched, {}) == Removed(s, Known(s) - next.Keys)
  {
    var r := Removed(s, Known(s) - next.Keys);
    assert Changed(s, previous, next) * {} == {} && VouchedNames(vouched) * {} == {};
    NothingInvalidated(r, next);
    NothingTrusted(r, next);
  }

  lemma CatalogEnd<S>(s: State<S>, previous: map<Name, Source>, next: map<Name, Source>, vouched: Option<Name>)
    ensures CatalogSoFar(s, previous, next, vouched, next.Keys) == CatalogApplied(s, previous, next, vouched)
  {
    assert Changed(s, previous, next) * next.Keys == Changed(s, previous, next);
  }

  /** The first half of a visit: what differs is invalidated, beneath the trust so far. */
  lemma CatalogStepInvalidates<S>(
    s: State<S>, previous: map<Name, Source>, next: map<Name, Source>, trust: set<Name>, done: set<Name>, name: Name)
    requires done <= next.Keys && name in next && name !in done && trust <= done
    ensures var r, changed := Removed(s, Known(s) - next.Keys), Changed(s, previous, next);
      var before := Trusted(Invalidated(r, changed * done, next), trust, next);
      var stale := Lookup(previous, name) != Some(next[name]) || Differs(before.identities, name, next[name]) || Differs(before.pending, name, next[name]);
      (if stale then Invalidated(before, {name}, map[name := next[name]]) else before)
      == Trusted(Invalidated(r, changed * (done + {name}), next), trust, next)
  {
    var r, changed := Removed(s, Known(s) - next.Keys), Changed(s, previous, next);
    var moved := Invalidated(r, changed * done, next);
    UntouchedByInvalidation(r, changed * done, name, next);
    UntouchedByTrust(moved, trust, name, next);
    assert changed * (done + {name}) == if name in changed then changed * done + {name} else changed * done;
    InvalidateAfterTrust(moved, trust, name, next);
    InvalidatedTwice(r, changed * done, name, next);
  }

  lemma CatalogStep<S>(
    s: State<S>, previous: map<Name, Source>, next: map<Name, Source>, vouched: Option<Name>, done: set<Name>, name: Name)
    requires done <= next.Keys && name in next && name !in done
    ensures CatalogVisit(CatalogSoFar(s, previous, next, vouched, done), previous, next, vouched, name)
         == CatalogSoFar(s, previous, next, vouched, done + {name})
  {
    var trust := VouchedNames(vouched) * done;
    CatalogStepInvalidates(s, previous, next, trust, done, name);
    var moved := Invalidated(Removed(s, Known(s) - next.Keys), Changed(s, previous, next) * (done + {name}), next);
    assert VouchedNames(vouched) * (done + {name}) == if vouched == Some(name) then trust + {name} else trust;
    TrustedTwice(moved, trust, name, next);
  }
}
