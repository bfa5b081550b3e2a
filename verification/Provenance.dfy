/** Source trust: in every reachable state only a profile with a trusted source has statistics
    or a confirmed slot, and one whose source change is pending has neither. What was measured
    into the statistics is the subject of `Evidence`. */
module Provenance {
  import opened Base
  import opened ProfileState
  import opened StateLaws
  import opened Publication
  import opened Preservation
  import opened Daemon

  /** What holds of one profile: pending and trusted exclude each other, a slot belongs to a
      trusted remote source, and a profile without a trusted source has no statistics. */
  predicate OwnEvidence(s: St, p: Name) {
    && (p in s.pending ==> p !in s.identities)
    && (p in s.slots ==> p in s.identities && s.identities[p].Remote? && IsSlot(s.slots[p]))
    && (NodesFor(s, p).Some? && p !in s.identities ==> NodesFor(s, p).value == map[])
  }

  predicate IsSlot(slot: string) {
    slot == CACHE_SLOT_A || slot == CACHE_SLOT_B
  }

  ghost predicate Clean(s: St) {
    WellFormed(s) && BasesDistinct(s.identities) && forall p :: OwnEvidence(s, p)
  }

  /** The identities a state records for a profile are the configured one. */
  predicate AgreesOn(s: St, cat: Catalog, p: Name) {
    && (p in s.identities ==> p in cat && s.identities[p] == cat[p])
    && (p in s.pending ==> p in cat && s.pending[p] == cat[p])
  }

  ghost predicate Agrees(s: St, cat: Catalog) {
    forall p :: AgreesOn(s, cat, p)
  }

  predicate Marked(s: St, p: Name) {
    p in s.identities || p in s.pending
  }

  /** Every configured profile is either trusted or pending under its configured identity,
      and no other profile is. */
  ghost predicate Covers(s: St, cat: Catalog) {
    Agrees(s, cat) && forall p | p in cat :: Marked(s, p)
  }

  // ---------------------------------------------------------------------------------
  // Operations on a clean state.

  lemma IdentitiesShrink(ids: Catalog, less: Catalog)
    requires BasesDistinct(ids) && less.Keys <= ids.Keys && forall p | p in less :: less[p] == ids[p]
    ensures BasesDistinct(less)
  {
    forall p, q ensures BasesApart(less, p, q) { assert BasesApart(ids, p, q); }
  }

  lemma RemovedIsClean(s: St, gone: set<Name>)
    requires Clean(s)
    ensures Clean(Removed(s, gone))
  {
    var s' := Removed(s, gone);
    IdentitiesShrink(s.identities, s'.identities);
    forall p ensures OwnEvidence(s', p) { assert OwnEvidence(s, p); }
  }

  lemma InvalidatedIsClean(s: St, names: set<Name>, to: Catalog)
    requires Clean(s) && names <= to.Keys
    ensures Clean(Invalidated(s, names, to))
  {
    var s' := Invalidated(s, names, to);
    IdentitiesShrink(s.identities, s'.identities);
    forall p ensures OwnEvidence(s', p) { assert OwnEvidence(s, p); }
  }

  lemma AgreeingBasesDistinct(ids: Catalog, cat: Catalog)
    requires BasesDistinct(cat) && forall p | p in ids :: p in cat && ids[p] == cat[p]
    ensures BasesDistinct(ids)
  {
    forall p, q ensures BasesApart(ids, p, q) { assert BasesApart(cat, p, q); }
  }

  /** Trusting configured profiles is safe: what evidence they have is already under the
      configured identity. */
  lemma TrustedIsClean(s: St, names: set<Name>, cat: Catalog)
    requires Clean(s) && Agrees(s, cat) && BasesDistinct(cat) && names <= cat.Keys
    ensures Clean(Trusted(s, names, cat)) && Agrees(Trusted(s, names, cat), cat)
  {
    var s' := Trusted(s, names, cat);
    forall p ensures AgreesOn(s', cat, p) { assert AgreesOn(s, cat, p); }
    forall p | p in s'.identities ensures p in cat && s'.identities[p] == cat[p] { assert AgreesOn(s', cat, p); }
    AgreeingBasesDistinct(s'.identities, cat);
    forall p ensures OwnEvidence(s', p) {
      assert OwnEvidence(s, p) && AgreesOn(s, cat, p);
    }
  }

  lemma TrustedCovers(s: St, names: set<Name>, cat: Catalog)
    requires names <= cat.Keys && forall p | p in cat && p !in names :: Marked(s, p)
    ensures forall p | p in cat :: Marked(Trusted(s, names, cat), p)
  {
    forall p | p in cat ensures Marked(Trusted(s, names, cat), p) {
      if p !in names { assert Marked(s, p); }
    }
  }

  /** A reload turns a state covering the old configuration into one covering the new. */
  lemma CatalogIsClean(s: St, previous: Catalog, next: Catalog, vouched: Option<Name>)
    requires Clean(s) && Covers(s, previous) && BasesDistinct(next)
    ensures var s' := CatalogApplied(s, previous, next, vouched); Clean(s') && Covers(s', next)
  {
    var r := Removed(s, Known(s) - next.Keys);
    RemovedIsClean(s, Known(s) - next.Keys);
    InvalidatedIsClean(r, Changed(s, previous, next), next);
    QuarantineCovers(s, previous, next);
    var q := Invalidated(r, Changed(s, previous, next), next);
    TrustedIsClean(q, VouchedNames(vouched) * next.Keys, next);
    TrustedCovers(q, VouchedNames(vouched) * next.Keys, next);
  }

  lemma QuarantineCovers(s: St, previous: Catalog, next: Catalog)
    requires Clean(s) && Covers(s, previous)
    ensures Covers(Invalidated(Removed(s, Known(s) - next.Keys), Changed(s, previous, next), next), next)
  {
    var q := Invalidated(Removed(s, Known(s) - next.Keys), Changed(s, previous, next), next);
    forall p ensures AgreesOn(q, next, p) {
      assert AgreesOn(s, previous, p);
    }
    forall p | p in next ensures Marked(q, p) {
      if p !in Changed(s, previous, next) {
        assert Marked(s, p);
      }
    }
  }

  /** Startup reconciliation establishes coverage of whatever configuration it is given. */
  lemma ReconciledIsClean(s: St, cat: Catalog)
    requires Clean(s) && BasesDistinct(cat)
    ensures Clean(Reconciled(s, cat)) && Covers(Reconciled(s, cat), cat)
  {
    var r := Removed(s, Known(s) - cat.Keys);
    var q := Invalidated(r, Mismatched(s, cat), cat);
    RemovedIsClean(s, Known(s) - cat.Keys);
    InvalidatedIsClean(r, Mismatched(s, cat), cat);
    MismatchedQuarantineAgrees(s, cat);
    TrustedIsClean(q, cat.Keys - q.pending.Keys, cat);
    TrustedCovers(q, cat.Keys - q.pending.Keys, cat);
  }

  lemma MismatchedQuarantineAgrees(s: St, cat: Catalog)
    ensures var r := Removed(s, Known(s) - cat.Keys);
      Agrees(Invalidated(r, Mismatched(s, cat), cat), cat)
  {
    var r := Removed(s, Known(s) - cat.Keys);
    var q := Invalidated(r, Mismatched(s, cat), cat);
    forall p ensures AgreesOn(q, cat, p) {
      assert p !in cat ==> p !in Known(r);
    }
  }

  lemma ActivatedIsClean(s: St, name: Name)
    requires Clean(s)
    ensures var s' := Activated(s, name);
      && Clean(s') && s'.active == Some(name)
      && s'.identities == s.identities && s'.pending == s.pending && s'.slots == s.slots
  {
    var s' := Activated(s, name);
    ActivateRefines(s, name);
    forall p ensures OwnEvidence(s', p) {
      assert OwnEvidence(s, p);
      ActivationMovesNoStats(s, name, p);
    }
  }

  lemma ActivationMovesNoStats(s: St, name: Name, p: Name)
    requires WellFormed(s)
    ensures var before, after := NodesFor(s, p), NodesFor(Activated(s, name), p);
      after == before || (p == name && before.None? && after == Some(map[]))
  {}

  lemma DressedIsClean(s: St, target: Name, slot: Option<string>, planned: map<Name, Plan>, now: int)
    requires Clean(s) && s.active == Some(target)
    requires slot.Some? ==> target in s.identities && s.identities[target].Remote? && IsSlot(slot.value)
    ensures Clean(Dressed(s, target, slot, planned, Same, now))
  {
    var s' := Dressed(s, target, slot, planned, Same, now);
    assert s'.nodes == s.nodes;
    forall p ensures OwnEvidence(s', p) { assert OwnEvidence(s, p); }
  }

  lemma CoversAfter(s: St, s': St, cat: Catalog)
    requires Covers(s, cat) && s'.identities == s.identities && s'.pending == s.pending
    ensures Covers(s', cat)
  {
    forall p ensures AgreesOn(s', cat, p) { assert AgreesOn(s, cat, p); }
    forall p | p in cat ensures Marked(s', p) { assert Marked(s, p); }
  }

  /** The state a transaction persists is clean, covers the new configuration, and has the
      target active and trusted. */
  lemma NextIsClean(s: St, previous: Catalog, next: Catalog, target: Name, vouched: bool, slot: Option<string>, planned: map<Name, Plan>, now: int)
    requires Clean(s) && Covers(s, previous) && BasesDistinct(next) && target in next
    requires !vouched ==> target in s.identities && Lookup(previous, target) == Some(next[target])
    requires slot.Some? ==> vouched && next[target].Remote? && IsSlot(slot.value)
    ensures var s' := NextState(s, previous, next, target, vouched, slot, planned, Same, now);
      && Clean(s') && Covers(s', next) && s'.active == Some(target) && target in s'.identities
  {
    var v := if vouched then Some(target) else None;
    CatalogIsClean(s, previous, next, v);
    TargetStaysTrusted(s, previous, next, target, v);
    var reconciled := CatalogApplied(s, previous, next, v);
    assert AgreesOn(reconciled, next, target);
    ActivatedIsClean(reconciled, target);
    DressedIsClean(Activated(reconciled, target), target, slot, planned, now);
    CoversAfter(reconciled, Dressed(Activated(reconciled, target), target, slot, planned, Same, now), next);
  }

  lemma TargetStaysTrusted(s: St, previous: Catalog, next: Catalog, target: Name, vouched: Option<Name>)
    requires target in next && (vouched == Some(target) || vouched == None)
    requires Clean(s) && Covers(s, previous)
    requires vouched.None? ==> target in s.identities && Lookup(previous, target) == Some(next[target])
    ensures target in CatalogApplied(s, previous, next, vouched).identities
  {
    if vouched.None? {
      assert AgreesOn(s, previous, target) && OwnEvidence(s, target);
      assert target !in Changed(s, previous, next);
    } else {
      assert target in VouchedNames(vouched) * next.Keys;
    }
  }

  // ---------------------------------------------------------------------------------
  // The invariant of the whole system.

  /** What holds of a transaction in every phase. */
  ghost predicate TxnCore(l: Live, t: Txn) {
    && t.target in t.catalog && BasesDistinct(t.catalog) && t.prepared.manifest.nodes != []
    && (t.reload ==> t.target == l.active)
    && (!t.reload ==> t.catalog == l.catalog)
    && t.confirmed == Lookup(l.mem.slots, t.target)
    && (t.prepared.Fresh? ==> t.prepared.manifest.origin == t.catalog[t.target])
    && (t.prepared.Cached? ==> t.target in l.mem.identities && Lookup(l.catalog, t.target) == Some(t.catalog[t.target]))
  }

  ghost predicate PhaseInv(l: Live, t: Txn)
    requires t.target in t.catalog
  {
    match t.phase
    case Preparing => true
    case Gated => l.orphan.None?
    case Committing => l.orphan.None?
    case Committed(slot) => l.orphan.None? && slot == CommittedSlot(t)
    case Persisted(slot, next, _, planned) =>
      && l.orphan.None? && slot == CommittedSlot(t)
      && Clean(next) && Covers(next, t.catalog) && next.active == Some(t.target) && t.target in next.identities
      && IsNextOf(l, t)
  }

  function CommittedSlot(t: Txn): Option<string>
    requires t.target in t.catalog
  {
    if PendingWrite(t).Some? then Some(NextSlot(t.confirmed)) else None
  }

  ghost predicate TxnInv(l: Live, t: Txn) {
    TxnCore(l, t) && PhaseInv(l, t)
  }

  /** The persisted state was computed from the state still in memory: nothing has been
      recorded since the clone. */
  predicate IsNextOf(l: Live, t: Txn)
    requires t.phase.Persisted? && t.target in t.catalog
  {
    t.phase.next == NextState(l.mem, l.catalog, t.catalog, t.target, t.prepared.Fresh?, t.phase.slot,
                              t.phase.planned, Same, t.phase.next.updatedUnix)
  }

  ghost predicate LiveInv(l: Live) {
    && Clean(l.mem) && Covers(l.mem, l.catalog) && BasesDistinct(l.catalog)
    && l.mem.active == Some(l.active) && l.active in l.mem.identities
    && (l.txn.Some? ==> TxnInv(l, l.txn.value))
    && (l.orphan.Some? && l.orphan.value.write.Some? ==>
          var w := l.orphan.value.write.value; w.key.slot == NextSlot(Lookup(l.mem.slots, w.target)))
  }

  ghost predicate DiskInv(disk: Option<Wire<Mark>>) {
    Decoded(disk).Some? && Clean(Decoded(disk).value)
  }

  ghost predicate Inv(sys: Sys) {
    DiskInv(sys.disk) && (sys.live.Some? ==> LiveInv(sys.live.value))
  }

  lemma CleanSavesAndLoads(s: St)
    requires Clean(s)
    ensures Save(s).Ok? && Load(Save(s).value) == Ok(s)
  {
    forall p | p in s.slots ensures IsSlot(s.slots[p]) { assert OwnEvidence(s, p); }
    SaveThenLoad(s);
  }

  lemma StartKeeps(sys: Sys, e: Event)
    requires DiskInv(sys.disk) && e.Start? && CanStart(sys, e)
    ensures LiveInv(Booted(sys, e))
  {
    var st := DiskState(sys).value;
    var reconciled := Reconciled(st, e.catalog);
    var active := BootActive(reconciled, e.catalog, e.default);
    ReconciledIsClean(st, e.catalog);
    ActivatedIsClean(reconciled, active);
    CoversAfter(reconciled, Activated(reconciled, active), e.catalog);
    ServedIsTrusted(Activated(reconciled, active), e.catalog, active);
  }

  /** Startup serves nothing exactly when the active profile's source change is pending. */
  lemma ServedIsTrusted(st: St, cat: Catalog, active: Name)
    requires Clean(st) && Covers(st, cat) && active in cat
    ensures StartupSnapshot(st, cat, active).Quarantined? <==> active in st.pending
    ensures active in st.pending <==> !SourceIsTrusted(st, active, cat[active])
    ensures active !in st.pending ==> active in st.identities
  {
    assert AgreesOn(st, cat, active) && OwnEvidence(st, active) && Marked(st, active);
  }

  lemma RecordKeeps(l: Live, node: Name, pool: Manifest)
    requires LiveInv(l) && CanRecord(l)
    ensures LiveInv(Recorded(l, node, pool))
  {
    var l' := Recorded(l, node, pool);
    forall p ensures OwnEvidence(l'.mem, p) { assert OwnEvidence(l.mem, p); }
    CoversAfter(l.mem, l'.mem, l.catalog);
    if l.txn.Some? { assert TxnCore(l', l.txn.value); }
  }

  lemma ProbesKeep(l: Live, probes: map<nat, OnDemand>)
    requires LiveInv(l)
    ensures LiveInv(l.(probes := probes))
  {
    if l.txn.Some? {
      assert TxnCore(l.(probes := probes), l.txn.value) && PhaseInv(l.(probes := probes), l.txn.value);
    }
  }

  lemma ProbeKeeps(l: Live, step: ProbeStep)
    requires LiveInv(l) && CanProbe(l, step)
    ensures LiveInv(Probed(l, step))
  {
    match step
    case Record(probe, node) => RecordKeeps(l, node, l.probes[probe].pool);
    case _ => ProbesKeep(l, Probed(l, step).probes);
  }

  lemma RewriteKeeps(l: Live, classes: map<Name, ClassState>, verdicts: map<Name, map<Name, string>>)
    requires LiveInv(l) && CanRecord(l)
    ensures LiveInv(Rewritten(l, classes, verdicts))
  {
    var l' := Rewritten(l, classes, verdicts);
    forall p ensures OwnEvidence(l'.mem, p) { assert OwnEvidence(l.mem, p); }
    CoversAfter(l.mem, l'.mem, l.catalog);
    if l.txn.Some? { assert TxnCore(l', l.txn.value); }
  }

  lemma BeginKeeps(sys: Sys, l: Live, e: Event)
    requires LiveInv(l) && e.Begin? && CanBegin(sys, l, e)
    ensures LiveInv(Begun(sys, l, e))
  {
    var l' := Begun(sys, l, e);
    assert TxnCore(l', l'.txn.value);
  }

  /** Only the phase moves. */
  lemma PhaseMoves(l: Live, phase: Phase)
    requires LiveInv(l) && HasTxn(l)
    ensures PhaseInv(l, l.txn.value.(phase := phase)) ==> LiveInv(InPhase(l, phase))
  {
    var l' := InPhase(l, phase);
    assert TxnCore(l', l'.txn.value);
  }

  lemma OrphanEnds(l: Live)
    requires LiveInv(l) && l.orphan.Some?
    ensures LiveInv(l.(orphan := None))
  {
    if l.txn.Some? { assert TxnCore(l.(orphan := None), l.txn.value); }
  }

  lemma WriteKeeps(l: Live, outcome: WriteOutcome)
    requires LiveInv(l) && CanWrite(l)
    ensures LiveInv(WriteReturned(l, outcome))
  {
    if l.orphan.Some? {
      OrphanEnds(l);
    } else {
      PhaseMoves(l, Committed(CommittedSlot(l.txn.value)));
    }
  }

  lemma NextOfCommitted(l: Live, t: Txn, planned: map<Name, Plan>, now: int)
    requires LiveInv(l) && TxnInv(l, t) && t.phase.Committed?
    ensures var next := Next(l, t, planned, now);
      && Clean(next) && Covers(next, t.catalog) && next.active == Some(t.target) && t.target in next.identities
  {
    NextIsClean(l.mem, l.catalog, t.catalog, t.target, t.prepared.Fresh?, t.phase.slot, planned, now);
  }

  lemma PersistKeeps(l: Live, planned: map<Name, Plan>, now: int)
    requires LiveInv(l) && CanPersist(l)
    ensures LiveInv(InPhase(l, PersistedPhase(l, planned, now)))
  {
    PersistedIsPhase(l, planned, now);
    PhaseMoves(l, PersistedPhase(l, planned, now));
  }

  lemma PersistedIsPhase(l: Live, planned: map<Name, Plan>, now: int)
    requires LiveInv(l) && CanPersist(l)
    ensures PhaseInv(l, l.txn.value.(phase := PersistedPhase(l, planned, now)))
  {
    NextOfCommitted(l, l.txn.value, planned, now);
    PersistedIsNext(l, planned, now);
  }

  lemma PersistedIsNext(l: Live, planned: map<Name, Plan>, now: int)
    requires CanPersist(l)
    ensures IsNextOf(l, l.txn.value.(phase := PersistedPhase(l, planned, now)))
  {}

  lemma WithPortsIsClean(s: St, planned: map<Name, Plan>, cat: Catalog)
    requires Clean(s) && Covers(s, cat)
    ensures Clean(WithPorts(s, planned)) && Covers(WithPorts(s, planned), cat)
  {
    forall p ensures OwnEvidence(WithPorts(s, planned), p) { assert OwnEvidence(s, p); }
    CoversAfter(s, WithPorts(s, planned), cat);
  }

  lemma LiveStepKeeps(sys: Sys, e: Event)
    requires Steps(sys, e) && LiveInv(sys.live.value)
    ensures LiveInv(Stepped(sys, e))
  {
    var l := sys.live.value;
    match e
    case RecordProbe(node) => RecordKeeps(l, node, l.pool);
    case OnDemandStep(step) => ProbeKeeps(l, step);
    case Rewrite(classes, verdicts) => RewriteKeeps(l, classes, verdicts);
    case SaveState(_) =>
    case Begin(_, _, _, _) => BeginKeeps(sys, l, e);
    case TakeGate => PhaseMoves(l, Gated);
    case GiveUp =>
    case StartCommit => PhaseMoves(l, Committing);
    case CancelCommit =>
    case CommitWrite(outcome) => WriteKeeps(l, outcome);
    case PersistNext(persisted, planned, now) => if persisted { PersistKeeps(l, planned, now); }
    case Publish => WithPortsIsClean(l.txn.value.phase.next, l.txn.value.phase.planned, l.txn.value.catalog);
  }

  lemma DiskKeeps(sys: Sys, e: Event)
    requires Inv(sys) && Enabled(sys, e)
    ensures DiskInv(DiskAfter(sys, e))
  {
    if e.SaveState? {
      CleanSavesAndLoads(sys.live.value.mem);
    } else if e.PersistNext? {
      var l := sys.live.value;
      NextOfCommitted(l, l.txn.value, e.planned, e.now);
      CleanSavesAndLoads(Next(l, l.txn.value, e.planned, e.now));
    }
  }

  lemma StepKeepsInv(sys: Sys, e: Event)
    requires Inv(sys) && Enabled(sys, e)
    ensures Inv(Do(sys, e))
  {
    DiskKeeps(sys, e);
    if e.Start? {
      StartKeeps(sys, e);
    } else if !e.Crash? {
      LiveStepKeeps(sys, e);
    }
  }

  lemma {:induction false} RunsKeepInv(sys: Sys, es: seq<Event>)
    requires Inv(sys) && Runs(sys, es)
    ensures Inv(Final(sys, es))
    decreases |es|
  {
    if es != [] {
      StepKeepsInv(sys, es[0]);
      RunsKeepInv(Do(sys, es[0]), es[1..]);
    }
  }

  /** A profile has statistics or a slot only while its source is trusted, a slot only of a
      remote source; one whose source change is pending has neither. */
  ghost predicate OnlyTrustedHaveEvidence(s: St) {
    && (forall p | NodesFor(s, p).Some? && NodesFor(s, p).value != map[] :: p in s.identities)
    && (forall p | p in s.slots :: p in s.identities && s.identities[p].Remote?)
    && (forall p | p in s.pending :: p !in s.identities)
  }

  lemma CleanEvidence(s: St)
    requires Clean(s)
    ensures OnlyTrustedHaveEvidence(s)
  {
    forall p | NodesFor(s, p).Some? && NodesFor(s, p).value != map[] ensures p in s.identities { assert OwnEvidence(s, p); }
    forall p | p in s.slots ensures p in s.identities && s.identities[p].Remote? { assert OwnEvidence(s, p); }
    forall p | p in s.pending ensures p !in s.identities { assert OwnEvidence(s, p); }
  }

  /** Over every run of startups, crashes, probes, saves, switches and reloads, failed and
      cancelled ones included, memory and state file hold evidence of trusted sources only. */
  lemma TrustOverRuns(sys: Sys, es: seq<Event>)
    requires Init(sys) && Runs(sys, es)
    ensures DiskState(Final(sys, es)).Some? && OnlyTrustedHaveEvidence(DiskState(Final(sys, es)).value)
    ensures Final(sys, es).live.Some? ==> OnlyTrustedHaveEvidence(Final(sys, es).live.value.mem)
  {
    RunsKeepInv(sys, es);
    CleanEvidence(DiskState(Final(sys, es)).value);
    if Final(sys, es).live.Some? {
      CleanEvidence(Final(sys, es).live.value.mem);
    }
  }

  /** The profile a startup resumes: the one the state file selects, if it is still configured. */
  function Resumed(disk: St, cat: Catalog, default: Name): Name {
    if disk.active.Some? && disk.active.value in cat then disk.active.value else default
  }

  lemma BootResumes(disk: St, cat: Catalog, default: Name)
    ensures BootActive(Reconciled(disk, cat), cat, default) == Resumed(disk, cat, default)
  {
    StartupKeeps(disk, cat);
  }

  /** What startup reconciliation makes of the resumed profile. */
  lemma BootedProfile(disk: St, cat: Catalog, default: Name)
    requires Clean(disk) && default in cat && BasesDistinct(cat)
    ensures var st, active := BootState(disk, cat, default), Resumed(disk, cat, default);
      && st.active == Some(active)
      && (active in st.pending <==> IsStale(disk, active, cat[active]) || active in disk.pending)
      && (active !in st.pending ==> SourceIsTrusted(st, active, cat[active]))
      && (active !in st.pending ==> Lookup(st.slots, active) == Lookup(disk.slots, active))
  {
    var active, r := Resumed(disk, cat, default), Reconciled(disk, cat);
    BootResumes(disk, cat, default);
    StartupKeeps(disk, cat);
    ReconciledIsClean(disk, cat);
    ActivatedIsClean(r, active);
    assert AfterStartup(disk, r, cat, active) && OwnEvidence(disk, active) && OwnEvidence(r, active);
    assert AgreesOn(r, cat, active) && Marked(r, active);
  }

  /** A startup refuses the resumed profile exactly when its source differs from the recorded one
      or its change is still pending, although the slot branch does not look at trust. */
  lemma StartupNeverServesQuarantined(sys: Sys, es: seq<Event>, cat: Catalog, default: Name)
    requires Init(sys) && Runs(sys, es) && BasesDistinct(cat) && default in cat
    ensures DiskState(Final(sys, es)).Some?
    ensures var disk := DiskState(Final(sys, es)).value;
      var active := Resumed(disk, cat, default);
      StartupSnapshot(BootState(disk, cat, default), cat, active).Quarantined?
      <==> (IsStale(disk, active, cat[active]) || active in disk.pending)
  {
    RunsKeepInv(sys, es);
    var disk := DiskState(Final(sys, es)).value;
    var reconciled, active := Reconciled(disk, cat), Resumed(disk, cat, default);
    BootResumes(disk, cat, default);
    BootedProfile(disk, cat, default);
    ReconciledIsClean(disk, cat);
    ActivatedIsClean(reconciled, active);
    CoversAfter(reconciled, Activated(reconciled, active), cat);
    ServedIsTrusted(Activated(reconciled, active), cat, active);
  }

  /** Nothing is recorded between the transaction's clone and its replacement: what a
      publication installs is the transaction applied to the memory it replaces. */
  lemma NoLostUpdate(sys: Sys, es: seq<Event>)
    requires Init(sys) && Runs(sys, es)
    requires Final(sys, es).live.Some? && CanPublish(Final(sys, es).live.value)
    ensures PublishesItsClone(Final(sys, es).live.value)
  {
    RunsKeepInv(sys, es);
  }

  predicate PublishesItsClone(l: Live)
    requires CanPublish(l)
  {
    var t := l.txn.value;
    IsNextOf(l, t) && Published(l).mem == WithPorts(t.phase.next, t.phase.planned)
  }

  /** The commit barrier: while an orphaned worker runs, no later transaction is past its
      gate, so at most one cache writer exists. */
  lemma OneCacheWriter(sys: Sys, es: seq<Event>)
    requires Init(sys) && Runs(sys, es) && Final(sys, es).live.Some?
    ensures var l := Final(sys, es).live.value;
      l.orphan.Some? && l.txn.Some? ==> l.txn.value.phase.Preparing?
  {
    RunsKeepInv(sys, es);
  }
}
