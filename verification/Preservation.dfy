/** What the operations on the persistent state leave alone: for each profile, exactly when its
    statistics and its confirmed slot survive a startup (src/state.rs), a reload, and a switch
    (src/supervisor.rs). */
module Preservation {
  import opened Base
  import opened ProfileState
  import opened StateLaws
  import opened Publication

  /** The profile has an entry in one of the per-profile maps. */
  predicate HasEntry<S>(s: State<S>, p: Name) {
    p in s.inactive || p in s.slots || p in s.identities || p in s.pending
  }

  /** A trusted or pending source of the profile is not the one configured now. */
  predicate IsStale<S>(s: State<S>, p: Name, source: Source) {
    (p in s.identities && s.identities[p] != source) || (p in s.pending && s.pending[p] != source)
  }

  ghost predicate KeepsEvidence<S>(s: State<S>, r: State<S>, p: Name) {
    NodesFor(r, p) == NodesFor(s, p) && Lookup(r.slots, p) == Lookup(s.slots, p)
  }

  ghost predicate LosesEvidence<S>(r: State<S>, p: Name) {
    (NodesFor(r, p).Some? ==> NodesFor(r, p).value == map[]) && p !in r.slots
  }

  predicate KeepsMarks<S>(s: State<S>, r: State<S>, p: Name) {
    Lookup(r.identities, p) == Lookup(s.identities, p) && Lookup(r.pending, p) == Lookup(s.pending, p)
  }

  ghost predicate Forgotten<S>(s: State<S>, r: State<S>, p: Name) {
    if HasEntry(s, p) then NodesFor(r, p).None? && !HasEntry(r, p) else KeepsEvidence(s, r, p) && KeepsMarks(s, r, p)
  }

  lemma RemovedAt<S>(s: State<S>, gone: set<Name>, p: Name)
    ensures if p in gone then NodesFor(Removed(s, gone), p).None? && !HasEntry(Removed(s, gone), p)
            else KeepsEvidence(s, Removed(s, gone), p) && KeepsMarks(s, Removed(s, gone), p)
  {}

  lemma InvalidatedAt<S>(s: State<S>, names: set<Name>, to: map<Name, Source>, p: Name)
    requires names <= to.Keys
    ensures var r := Invalidated(s, names, to);
      if p in names then LosesEvidence(r, p) && p !in r.identities && Lookup(r.pending, p) == Some(to[p])
      else KeepsEvidence(s, r, p) && KeepsMarks(s, r, p)
  {}

  lemma TrustedAt<S>(s: State<S>, names: set<Name>, to: map<Name, Source>, p: Name)
    requires names <= to.Keys
    ensures var r := Trusted(s, names, to);
      && KeepsEvidence(s, r, p) && (NodesFor(r, p), Lookup(r.slots, p)) == (NodesFor(s, p), Lookup(s.slots, p))
      && if p in names then Lookup(r.identities, p) == Some(to[p]) && p !in r.pending else KeepsMarks(s, r, p)
  {}

  /** The active profile stays, unless it has an entry and is no longer listed. */
  predicate KeepsSelection<S>(s: State<S>, r: State<S>, listed: map<Name, Source>) {
    r.active == if s.active.Some? && s.active.value !in listed && HasEntry(s, s.active.value) then None else s.active
  }

  /** A profile through a startup: forgotten when unlisted, quarantined when its source differs,
      and otherwise it keeps statistics and slot, and is trusted unless it was pending. */
  ghost predicate AfterStartup<S>(s: State<S>, r: State<S>, current: map<Name, Source>, p: Name) {
    if p !in current then Forgotten(s, r, p)
    else if IsStale(s, p, current[p]) then
      LosesEvidence(r, p) && p !in r.identities && Lookup(r.pending, p) == Some(current[p])
    else
      && KeepsEvidence(s, r, p) && Lookup(r.pending, p) == Lookup(s.pending, p)
      && Lookup(r.identities, p) == if p in s.pending then Lookup(s.identities, p) else Some(current[p])
  }

  lemma StartupKeeps<S>(s: State<S>, current: map<Name, Source>)
    ensures var r := Reconciled(s, current);
      && r == s.(active := r.active, nodes := r.nodes, slots := r.slots, identities := r.identities, pending := r.pending, inactive := r.inactive)
      && KeepsSelection(s, r, current) && forall p :: AfterStartup(s, r, current, p)
  {
    var gone, stale := Known(s) - current.Keys, Mismatched(s, current);
    StartupInThreeSteps(s, current);
    forall p ensures AfterStartup(s, Reconciled(s, current), current, p) {
      ThreeSteps(s, gone, stale, current.Keys - (s.pending.Keys - gone + stale), current, p);
      StartupAt(s, Reconciled(s, current), current, p);
    }
  }

  /** Three steps, one profile: removed or not, invalidated or not, trusted or not. */
  ghost predicate StepsTaken<S>(s: State<S>, r: State<S>, gone: set<Name>, stale: set<Name>, trusted: set<Name>, to: map<Name, Source>, p: Name)
    requires stale <= to.Keys && trusted <= to.Keys
  {
    if p in gone then NodesFor(r, p).None? && !HasEntry(r, p)
    else
      && (if p in stale then LosesEvidence(r, p) else KeepsEvidence(s, r, p))
      && (if p in trusted then Lookup(r.identities, p) == Some(to[p]) && p !in r.pending
          else if p in stale then p !in r.identities && Lookup(r.pending, p) == Some(to[p])
          else KeepsMarks(s, r, p))
  }

  lemma ThreeSteps<S>(s: State<S>, gone: set<Name>, stale: set<Name>, trusted: set<Name>, to: map<Name, Source>, p: Name)
    requires stale <= to.Keys && trusted <= to.Keys && (p in gone ==> p !in stale && p !in trusted)
    ensures StepsTaken(s, Trusted(Invalidated(Removed(s, gone), stale, to), trusted, to), gone, stale, trusted, to, p)
  {
    RemovedAt(s, gone, p);
    InvalidatedAt(Removed(s, gone), stale, to, p);
    TrustedAt(Invalidated(Removed(s, gone), stale, to), trusted, to, p);
  }

  lemma StartupInThreeSteps<S>(s: State<S>, current: map<Name, Source>)
    ensures var gone, stale := Known(s) - current.Keys, Mismatched(s, current);
      Reconciled(s, current)
      == Trusted(Invalidated(Removed(s, gone), stale, current), current.Keys - (s.pending.Keys - gone + stale), current)
  {
    var gone, stale := Known(s) - current.Keys, Mismatched(s, current);
    assert Invalidated(Removed(s, gone), stale, current).pending.Keys == s.pending.Keys - gone + stale;
  }

  lemma StartupAt<S>(s: State<S>, r: State<S>, current: map<Name, Source>, p: Name)
    requires var gone, stale := Known(s) - current.Keys, Mismatched(s, current);
      StepsTaken(s, r, gone, stale, current.Keys - (s.pending.Keys - gone + stale), current, p)
    ensures AfterStartup(s, r, current, p)
  {}

  predicate IsChanged<S>(s: State<S>, previous: map<Name, Source>, next: map<Name, Source>, p: Name)
    requires p in next
  {
    p !in previous || previous[p] != next[p] || IsStale(s, p, next[p])
  }

  /** A profile through a reload: forgotten when unlisted, without evidence when new or changed,
      and otherwise it keeps statistics and slot. The vouched one is trusted, a changed one
      pending. */
  ghost predicate AfterReload<S>(
    s: State<S>, r: State<S>, previous: map<Name, Source>, next: map<Name, Source>, vouched: Option<Name>, p: Name)
  {
    if p !in next then Forgotten(s, r, p)
    else
      && (if IsChanged(s, previous, next, p) then LosesEvidence(r, p) else KeepsEvidence(s, r, p))
      && (if vouched == Some(p) then Lookup(r.identities, p) == Some(next[p]) && p !in r.pending
          else if IsChanged(s, previous, next, p) then p !in r.identities && Lookup(r.pending, p) == Some(next[p])
          else KeepsMarks(s, r, p))
  }

  lemma ReloadKeeps<S>(s: State<S>, previous: map<Name, Source>, next: map<Name, Source>, vouched: Option<Name>)
    ensures var r := CatalogApplied(s, previous, next, vouched);
      && r == s.(active := r.active, nodes := r.nodes, slots := r.slots, identities := r.identities, pending := r.pending, inactive := r.inactive)
      && KeepsSelection(s, r, next) && forall p :: AfterReload(s, r, previous, next, vouched, p)
  {
    forall p ensures AfterReload(s, CatalogApplied(s, previous, next, vouched), previous, next, vouched, p) {
      ThreeSteps(s, Known(s) - next.Keys, Changed(s, previous, next), VouchedNames(vouched) * next.Keys, next, p);
      ReloadAt(s, CatalogApplied(s, previous, next, vouched), previous, next, vouched, p);
    }
  }

  lemma ReloadAt<S>(s: State<S>, r: State<S>, previous: map<Name, Source>, next: map<Name, Source>, vouched: Option<Name>, p: Name)
    requires StepsTaken(s, r, Known(s) - next.Keys, Changed(s, previous, next), VouchedNames(vouched) * next.Keys, next, p)
    ensures AfterReload(s, r, previous, next, vouched, p)
  {}

  // ---------------------------------------------------------------------------------
  // A switch.

  lemma ReloadStaysWellFormed<S>(s: State<S>, previous: map<Name, Source>, next: map<Name, Source>, vouched: Option<Name>)
    requires WellFormed(s)
    ensures WellFormed(CatalogApplied(s, previous, next, vouched))
  {}

  lemma ActivationMovesOnlyTarget<S>(s: State<S>, target: Name, p: Name)
    requires WellFormed(s)
    ensures var r := Activated(s, target);
      && r == s.(active := Some(target), nodes := r.nodes, inactive := r.inactive)
      && NodesFor(r, p) == if p == target && NodesFor(s, p).None? then Some(map[]) else NodesFor(s, p)
  {}

  /** These statistics, with the failure streak of every planned node cleared. */
  ghost predicate CalmedFrom<S>(base: map<Name, S>, r: map<Name, S>, planned: map<Name, Plan>, calm: S -> S) {
    && r.Keys == base.Keys
    && forall n | n in base :: r[n] == if exists c | c in planned :: planned[c].node == n then calm(base[n]) else base[n]
  }

  function KnownNodes<S>(s: State<S>, p: Name): map<Name, S> {
    if NodesFor(s, p).Some? then NodesFor(s, p).value else map[]
  }

  /** The planned classes have these entries, the others are as before. */
  predicate ClassesAre(before: map<Name, ClassState>, after: map<Name, ClassState>, planned: map<Name, Plan>, live: bool) {
    && (forall c | c in planned :: Lookup(after, c) == Some(ClassState(Some(planned[c].node),
          if live then Some(planned[c].socks) else None, if live then Some(planned[c].http) else None, planned[c].generation)))
    && (forall c | c in after && c !in planned :: c in before && after[c] == before[c])
    && (forall c | c in before && c !in planned :: c in after)
  }

  /** The target of a switch: its statistics are what they were, calmed, or none if its source is
      new or changed; its slot is the committed one, if there is one. */
  ghost predicate TargetAfterSwitch<S>(s: State<S>, r: State<S>, changed: bool, target: Name, slot: Option<string>, planned: map<Name, Plan>, calm: S -> S) {
    && r.active == Some(target)
    && CalmedFrom(if changed then map[] else KnownNodes(s, target), r.nodes, planned, calm)
    && Lookup(r.slots, target) == if slot.Some? then slot else if changed then None else Lookup(s.slots, target)
  }

  lemma DressedTarget<S>(s: State<S>, target: Name, slot: Option<string>, planned: map<Name, Plan>, calm: S -> S, now: int)
    requires s.active == Some(target)
    ensures var r := Dressed(s, target, slot, planned, calm, now);
      && r == s.(slots := r.slots, classes := r.classes, nodes := r.nodes, updatedUnix := now)
      && TargetAfterSwitch(s, r, false, target, slot, planned, calm) && ClassesAre(s.classes, r.classes, planned, false)
      && forall p | p != target :: KeepsEvidence(s, r, p)
  {}

  lemma SwitchSteps<S>(s: State<S>, previous: map<Name, Source>, next: map<Name, Source>, v: Option<Name>, target: Name)
    requires WellFormed(s)
    ensures var s1 := CatalogApplied(s, previous, next, v);
      var s2 := Activated(s1, target);
      && (forall p :: AfterReload(s, s1, previous, next, v, p))
      && s2 == s.(active := Some(target), nodes := s2.nodes, inactive := s2.inactive,
                  slots := s1.slots, identities := s1.identities, pending := s1.pending)
      && s2 == s1.(active := Some(target), nodes := s2.nodes, inactive := s2.inactive)
      && forall p :: ActivatedAt(s1, s2, target, p)
  {
    var s1 := CatalogApplied(s, previous, next, v);
    ReloadKeeps(s, previous, next, v);
    ReloadStaysWellFormed(s, previous, next, v);
    ActivationMovesOnlyTarget(s1, target, target);
    forall p ensures ActivatedAt(s1, Activated(s1, target), target, p) { ActivationMovesOnlyTarget(s1, target, p); }
  }

  /** The state that a switch saves. The other profiles, the outgoing one among them, are treated
      as by a reload: statistics and slot of every listed profile with an unchanged source are
      kept. The target is active, with its own statistics; the planned classes have entries
      without ports; site verdicts and the other entries stay. */
  ghost predicate AfterSwitch<S>(s: State<S>, r: State<S>, previous: map<Name, Source>, next: map<Name, Source>, target: Name, v: Option<Name>,
    slot: Option<string>, planned: map<Name, Plan>, calm: S -> S)
    requires target in next
  {
    && (forall p | p != target :: AfterReload(s, r, previous, next, v, p))
    && TargetAfterSwitch(s, r, IsChanged(s, previous, next, target), target, slot, planned, calm)
    && (if v == Some(target) then Lookup(r.identities, target) == Some(next[target]) && target !in r.pending
        else IsChanged(s, previous, next, target) || KeepsMarks(s, r, target))
    && r == s.(active := r.active, classes := r.classes, nodes := r.nodes, slots := r.slots, identities := r.identities,
               pending := r.pending, inactive := r.inactive, updatedUnix := r.updatedUnix)
  }

  lemma SwitchKeeps<S>(s: State<S>, previous: map<Name, Source>, next: map<Name, Source>, target: Name, vouched: bool,
    slot: Option<string>, planned: map<Name, Plan>, calm: S -> S, now: int)
    requires WellFormed(s) && target in next
    ensures var r := NextState(s, previous, next, target, vouched, slot, planned, calm, now);
      && AfterSwitch(s, r, previous, next, target, if vouched then Some(target) else None, slot, planned, calm)
      && ClassesAre(s.classes, r.classes, planned, false) && r.updatedUnix == now
  {
    var v := if vouched then Some(target) else None;
    var s1 := CatalogApplied(s, previous, next, v);
    var s2 := Activated(s1, target);
    SwitchSteps(s, previous, next, v, target);
    SwitchEnds(s, s1, s2, previous, next, target, v, slot, planned, calm, now);
  }

  lemma SwitchEnds<S>(s: State<S>, s1: State<S>, s2: State<S>, previous: map<Name, Source>, next: map<Name, Source>, target: Name, v: Option<Name>,
    slot: Option<string>, planned: map<Name, Plan>, calm: S -> S, now: int)
    requires target in next && forall p :: AfterReload(s, s1, previous, next, v, p)
    requires s2 == s.(active := Some(target), nodes := s2.nodes, inactive := s2.inactive,
                      slots := s1.slots, identities := s1.identities, pending := s1.pending)
    requires s2 == s1.(active := Some(target), nodes := s2.nodes, inactive := s2.inactive) && forall p :: ActivatedAt(s1, s2, target, p)
    ensures var r := Dressed(s2, target, slot, planned, calm, now);
      && AfterSwitch(s, r, previous, next, target, v, slot, planned, calm)
      && ClassesAre(s.classes, r.classes, planned, false) && r.updatedUnix == now
  {
    var r := Dressed(s2, target, slot, planned, calm, now);
    DressedTarget(s2, target, slot, planned, calm, now);
    SwitchInSteps(s, s1, s2, r, previous, next, v, target, slot, planned, calm);
    assert AfterReload(s, s1, previous, next, v, target);
  }

  ghost predicate ActivatedAt<S>(s: State<S>, r: State<S>, target: Name, p: Name) {
    NodesFor(r, p) == if p == target && NodesFor(s, p).None? then Some(map[]) else NodesFor(s, p)
  }

  lemma SwitchInSteps<S>(s: State<S>, s1: State<S>, s2: State<S>, r: State<S>,
    previous: map<Name, Source>, next: map<Name, Source>, v: Option<Name>,
    target: Name, slot: Option<string>, planned: map<Name, Plan>, calm: S -> S)
    requires target in next && forall p :: AfterReload(s, s1, previous, next, v, p)
    requires s2 == s1.(active := Some(target), nodes := s2.nodes, inactive := s2.inactive) && forall p :: ActivatedAt(s1, s2, target, p)
    requires r == s2.(slots := r.slots, classes := r.classes, nodes := r.nodes, updatedUnix := r.updatedUnix)
    requires TargetAfterSwitch(s2, r, false, target, slot, planned, calm) && forall p | p != target :: KeepsEvidence(s2, r, p)
    ensures forall p | p != target :: AfterReload(s, r, previous, next, v, p)
    ensures TargetAfterSwitch(s, r, IsChanged(s, previous, next, target), target, slot, planned, calm)
  {
    assert AfterReload(s, s1, previous, next, v, target) && ActivatedAt(s1, s2, target, target);
    TargetThroughSwitch(s, s1, s2, r, previous, next, v, target, slot, planned, calm);
    forall p | p != target ensures AfterReload(s, r, previous, next, v, p) {
      assert AfterReload(s, s1, previous, next, v, p) && ActivatedAt(s1, s2, target, p) && KeepsEvidence(s2, r, p);
      OtherThroughSwitch(s, s1, s2, r, previous, next, v, p);
    }
  }

  lemma OtherThroughSwitch<S>(s: State<S>, s1: State<S>, s2: State<S>, r: State<S>,
    previous: map<Name, Source>, next: map<Name, Source>, v: Option<Name>, p: Name)
    requires AfterReload(s, s1, previous, next, v, p) && r.active.Some? && r.active != Some(p)
    requires KeepsEvidence(s1, s2, p) && KeepsMarks(s1, s2, p) && KeepsEvidence(s2, r, p) && KeepsMarks(s2, r, p)
    ensures AfterReload(s, r, previous, next, v, p)
  {}

  lemma TargetThroughSwitch<S>(s: State<S>, s1: State<S>, s2: State<S>, r: State<S>,
    previous: map<Name, Source>, next: map<Name, Source>, v: Option<Name>,
    target: Name, slot: Option<string>, planned: map<Name, Plan>, calm: S -> S)
    requires target in next && AfterReload(s, s1, previous, next, v, target)
    requires s2.active == Some(target) && s2.slots == s1.slots && s2.nodes == KnownNodes(s1, target)
    requires TargetAfterSwitch(s2, r, false, target, slot, planned, calm)
    ensures TargetAfterSwitch(s, r, IsChanged(s, previous, next, target), target, slot, planned, calm)
  {}

  /** What the publication adds is the ports. */
  lemma PortsAreAll<S>(s: State<S>, planned: map<Name, Plan>)
    ensures var r := WithPorts(s, planned); r == s.(classes := r.classes) && ClassesAre(s.classes, r.classes, planned, true)
  {}
}
