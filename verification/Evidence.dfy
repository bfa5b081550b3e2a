/** What statistics are made of. Every probe measures a node of the pool it drew from: the
    periodic one of the pool in memory, an on-demand one of the pool it read before the era.
    Over every run with safe cache writes the pool in memory comes from the configured source,
    so a periodic measurement is always the profile's own, and an on-demand one exactly when
    no publication between its two reads changed the configured source. */
module Evidence {
  import opened Base
  import opened ProfileState
  import opened StateLaws
  import opened Publication
  import opened Daemon
  import opened Provenance
  import opened CrashConsistency
  import opened CarefulRuns

  // ---------------------------------------------------------------------------------
  // The pool comes from the configured source.

  /** The pool in memory, and the one about to be published, come from their own source. */
  predicate OwnPool(l: Live) {
    && l.active in l.catalog && l.pool.origin == l.catalog[l.active]
    && (HasTxn(l) ==> l.txn.value.prepared.manifest.origin == l.txn.value.catalog[l.txn.value.target])
  }

  /** An on-demand probe drew from a pool of the source configured when it read it; while the
      daemon is still in the era it read, the source configured then is configured now. */
  predicate OnDemandOk(l: Live, probe: nat) {
    probe in l.probes && l.active in l.catalog ==>
      var o := l.probes[probe];
      && o.pool.origin == o.seen
      && (o.SawEra? ==> o.era <= l.generation && (o.era == l.generation ==> o.current == Configured(l)))
  }

  ghost predicate PoolsInv(sys: Sys) {
    sys.live.Some? ==> OwnPool(sys.live.value) && forall probe :: OnDemandOk(sys.live.value, probe)
  }

  lemma StartHasOwnPool(sys: Sys, e: Event)
    requires Inv(sys) && FilesInv(sys) && e.Start? && CanStart(sys, e)
    ensures OwnPool(Booted(sys, e))
  {
    ServedGeneration(sys, e);
    var disk := DiskState(sys).value;
    var reconciled := Reconciled(disk, e.catalog);
    var active := BootActive(reconciled, e.catalog, e.default);
    ReconciledIsClean(disk, e.catalog);
    ActivatedIsClean(reconciled, active);
  }

  lemma BeginHasOwnPool(sys: Sys, l: Live, e: Event)
    requires LiveInv(l) && LiveBacked(l, sys.slotFiles) && OwnPool(l) && e.Begin? && CanBegin(sys, l, e)
    ensures OwnPool(Begun(sys, l, e))
  {
    if e.fetch.FetchFailed? { FallbackGeneration(sys, l, e); }
  }

  lemma OtherStepsKeepOwnPool(sys: Sys, e: Event)
    requires Steps(sys, e) && !e.Begin? && OwnPool(sys.live.value)
    ensures OwnPool(Stepped(sys, e))
  {}

  lemma StepKeepsOnDemand(sys: Sys, e: Event, probe: nat)
    requires Steps(sys, e) && OwnPool(sys.live.value) && OnDemandOk(sys.live.value, probe)
    ensures OnDemandOk(Stepped(sys, e), probe)
  {}

  lemma StepKeepsPools(sys: Sys, e: Event)
    requires Inv(sys) && FilesInv(sys) && PoolsInv(sys) && Enabled(sys, e)
    ensures PoolsInv(Do(sys, e))
  {
    if e.Start? {
      StartHasOwnPool(sys, e);
    } else if !e.Crash? {
      if e.Begin? { BeginHasOwnPool(sys, sys.live.value, e); } else { OtherStepsKeepOwnPool(sys, e); }
      forall probe ensures OnDemandOk(Stepped(sys, e), probe) { StepKeepsOnDemand(sys, e, probe); }
    }
  }

  lemma {:induction false} SafeRunsKeepPools(sys: Sys, es: seq<Event>)
    requires Inv(sys) && FilesInv(sys) && PoolsInv(sys) && Runs(sys, es) && SafeRun(sys, es)
    ensures Inv(Final(sys, es)) && FilesInv(Final(sys, es)) && PoolsInv(Final(sys, es))
    decreases |es|
  {
    if es != [] {
      StepKeepsInv(sys, es[0]);
      StepKeepsFiles(sys, es[0]);
      StepKeepsPools(sys, es[0]);
      SafeRunsKeepPools(Do(sys, es[0]), es[1..]);
    }
  }

  // ---------------------------------------------------------------------------------
  // Statistics made of own measurements.

  predicate OwnMarks(ids: Catalog, p: Name, stats: map<Name, Mark>) {
    if p in ids then forall n | n in stats :: stats[n] <= {ids[p]} else stats == map[]
  }

  /** Everything in a profile's statistics was measured on nodes of the source it is trusted with. */
  predicate OwnStats(s: St, p: Name) {
    NodesFor(s, p).Some? ==> OwnMarks(s.identities, p, NodesFor(s, p).value)
  }

  ghost predicate Pure(s: St) {
    WellFormed(s) && forall p :: OwnStats(s, p)
  }

  /** Invalidating and then trusting profiles moves no statistics under another identity, if what
      is left untouched agrees with the configuration. */
  lemma ReconcilingStaysPure(s: St, gone: set<Name>, names: set<Name>, to: Catalog, trusted: set<Name>)
    requires Pure(s) && names <= to.Keys && trusted <= to.Keys
    requires Agrees(Invalidated(Removed(s, gone), names, to), to)
    ensures Pure(Trusted(Invalidated(Removed(s, gone), names, to), trusted, to))
  {
    var q := Invalidated(Removed(s, gone), names, to);
    var s' := Trusted(q, trusted, to);
    forall p ensures OwnStats(s', p) {
      assert OwnStats(s, p) && AgreesOn(q, to, p);
      assert NodesFor(s', p).Some? ==> NodesFor(s', p).value == map[] || (NodesFor(s', p) == NodesFor(s, p) && p !in gone && p !in names);
    }
  }

  lemma CatalogStaysPure(s: St, previous: Catalog, next: Catalog, vouched: Option<Name>)
    requires Pure(s) && Clean(s) && Covers(s, previous)
    ensures Pure(CatalogApplied(s, previous, next, vouched))
  {
    QuarantineCovers(s, previous, next);
    ReconcilingStaysPure(s, Known(s) - next.Keys, Changed(s, previous, next), next, VouchedNames(vouched) * next.Keys);
  }

  lemma ActivatingStaysPure(s: St, name: Name)
    requires Pure(s)
    ensures Pure(Activated(s, name))
  {
    ActivateRefines(s, name);
    forall p ensures OwnStats(Activated(s, name), p) {
      assert OwnStats(s, p);
      ActivationMovesNoStats(s, name, p);
    }
  }

  lemma SameStatsStayPure(s: St, s': St)
    requires Pure(s) && s'.version == s.version && s'.active == s.active && s'.nodes == s.nodes
    requires s'.inactive == s.inactive && s'.identities == s.identities
    ensures Pure(s')
  {
    forall p ensures OwnStats(s', p) { assert OwnStats(s, p); }
  }

  lemma DressingStaysPure(s: St, target: Name, slot: Option<string>, planned: map<Name, Plan>, now: int)
    requires Pure(s)
    ensures Pure(Dressed(s, target, slot, planned, Same, now))
  {
    assert Calmed(s.nodes, planned, Same) == s.nodes;
    SameStatsStayPure(s, Dressed(s, target, slot, planned, Same, now));
  }

  lemma NextStaysPure(s: St, previous: Catalog, next: Catalog, target: Name, vouched: bool, slot: Option<string>, planned: map<Name, Plan>, now: int)
    requires Pure(s) && Clean(s) && Covers(s, previous)
    ensures Pure(NextState(s, previous, next, target, vouched, slot, planned, Same, now))
  {
    var v := if vouched then Some(target) else None;
    CatalogStaysPure(s, previous, next, v);
    ActivatingStaysPure(CatalogApplied(s, previous, next, v), target);
    DressingStaysPure(Activated(CatalogApplied(s, previous, next, v), target), target, slot, planned, now);
  }

  lemma BootStaysPure(s: St, cat: Catalog, default: Name)
    requires Pure(s)
    ensures Pure(BootState(s, cat, default))
  {
    var q := Invalidated(Removed(s, Known(s) - cat.Keys), Mismatched(s, cat), cat);
    MismatchedQuarantineAgrees(s, cat);
    ReconcilingStaysPure(s, Known(s) - cat.Keys, Mismatched(s, cat), cat, cat.Keys - q.pending.Keys);
    ActivatingStaysPure(Reconciled(s, cat), BootActive(Reconciled(s, cat), cat, default));
  }

  ghost predicate LivePure(l: Live) {
    Pure(l.mem) && (l.txn.Some? && l.txn.value.phase.Persisted? ==> Pure(l.txn.value.phase.next))
  }

  ghost predicate SysPure(sys: Sys) {
    && DiskState(sys).Some? && Pure(DiskState(sys).value)
    && (sys.live.Some? ==> LivePure(sys.live.value))
  }

  /** A record into pure statistics leaves them pure exactly when the pool it was measured on
      comes from the source the active profile is trusted with. */
  lemma RecordStaysPureExactly(l: Live, node: Name, pool: Manifest)
    requires LiveInv(l) && Pure(l.mem)
    ensures Pure(Recorded(l, node, pool).mem) <==> (l.active in l.catalog && pool.origin == Configured(l))
  {
    var s' := Recorded(l, node, pool).mem;
    assert AgreesOn(l.mem, l.catalog, l.active) && OwnStats(l.mem, l.active);
    if pool.origin == Configured(l) {
      assert OwnMarks(s'.identities, l.active, s'.nodes);
      forall p ensures OwnStats(s', p) { assert OwnStats(l.mem, p); }
    } else {
      assert pool.origin in s'.nodes[node] && !OwnStats(s', l.active);
    }
  }

  // ---------------------------------------------------------------------------------
  // Probes in a safe run.

  /** A probe drawn from the pool in memory is the configured source's own. */
  lemma PeriodicProbeIsOwn(sys: Sys, es: seq<Event>, node: Name)
    requires Init(sys) && Runs(sys, es) && SafeRun(sys, es)
    requires Final(sys, es).live.Some? && Enabled(Final(sys, es), RecordProbe(node))
    ensures var l := Final(sys, es).live.value;
      l.pool.origin == Configured(l) && (Pure(l.mem) ==> Pure(Recorded(l, node, l.pool).mem))
  {
    SafeRunsKeepPools(sys, es);
    var l := Final(sys, es).live.value;
    if Pure(l.mem) { RecordStaysPureExactly(l, node, l.pool); }
  }

  /** An on-demand probe that passes its recheck is the configured source's own exactly when
      the source configured at its era read is the one configured at its pool read. (The recheck
      sees the generation modulo 2^64.) */
  lemma OnDemandProbeIsOwnExactly(sys: Sys, es: seq<Event>, probe: nat, node: Name)
    requires Init(sys) && Runs(sys, es) && SafeRun(sys, es)
    requires Final(sys, es).live.Some? && CanRecordOnDemand(Final(sys, es).live.value, probe, node)
    requires var l := Final(sys, es).live.value; l.generation - l.probes[probe].era < GENERATIONS
    ensures var l := Final(sys, es).live.value;
      var o := l.probes[probe];
      && o.era == l.generation && o.current == Configured(l)
      && (o.pool.origin == Configured(l) <==> o.seen == o.current)
      && (Pure(l.mem) ==> (Pure(Recorded(l, node, o.pool).mem) <==> o.seen == o.current))
  {
    SafeRunsKeepPools(sys, es);
    var l := Final(sys, es).live.value;
    var o := l.probes[probe];
    assert OnDemandOk(l, probe);
    SameGeneration(o.era, l.generation);
    if Pure(l.mem) { RecordStaysPureExactly(l, node, o.pool); }
  }

  lemma SameGeneration(a: nat, b: nat)
    requires a <= b < a + GENERATIONS && a % GENERATIONS == b % GENERATIONS
    ensures a == b
  {
    assert b - a == (b / GENERATIONS - a / GENERATIONS) * GENERATIONS;
  }

  // ---------------------------------------------------------------------------------
  // What the two reads see: the run around an on-demand probe.

  predicate IsUp(e: Event) {
    !e.Start? && !e.Crash?
  }

  predicate StaysUp(es: seq<Event>) {
    forall i | 0 <= i < |es| :: IsUp(es[i])
  }

  function Publications(es: seq<Event>): nat {
    if es == [] then 0 else (if es[0].Publish? then 1 else 0) + Publications(es[1..])
  }

  lemma {:induction false} RunSplits(sys: Sys, xs: seq<Event>, ys: seq<Event>)
    requires Runs(sys, xs + ys)
    ensures Runs(sys, xs) && Runs(Final(sys, xs), ys) && Final(sys, xs + ys) == Final(Final(sys, xs), ys)
    decreases |xs|
  {
    if xs == [] {
      assert xs + ys == ys;
    } else {
      assert (xs + ys)[0] == xs[0] && (xs + ys)[1..] == xs[1..] + ys;
      RunSplits(Do(sys, xs[0]), xs[1..], ys);
    }
  }

  lemma StepKeepsReads(sys: Sys, e: Event, probe: nat)
    requires Steps(sys, e) && probe in sys.live.value.probes && e != OnDemandStep(ReadEra(probe))
    ensures probe in Stepped(sys, e).probes && Stepped(sys, e).probes[probe] == sys.live.value.probes[probe]
  {}

  predicate SameEpoch(l: Live, l': Live) {
    l'.generation == l.generation && l'.active == l.active && l'.catalog == l.catalog
  }

  lemma OtherStepsKeepEpoch(sys: Sys, e: Event)
    requires Steps(sys, e) && !e.Publish?
    ensures SameEpoch(sys.live.value, Stepped(sys, e))
  {}

  lemma StepKeepsProbe(sys: Sys, e: Event, probe: nat)
    requires Steps(sys, e) && probe in sys.live.value.probes && e != OnDemandStep(ReadEra(probe))
    ensures var l, l' := sys.live.value, Stepped(sys, e);
      && probe in l'.probes && l'.probes[probe] == l.probes[probe]
      && l'.generation == l.generation + (if e.Publish? then 1 else 0)
      && (!e.Publish? ==> l'.active == l.active && l'.catalog == l.catalog)
  {
    StepKeepsReads(sys, e, probe);
    if !e.Publish? { OtherStepsKeepEpoch(sys, e); }
  }

  predicate NoEraRead(es: seq<Event>, probe: nat) {
    forall i | 0 <= i < |es| :: es[i] != OnDemandStep(ReadEra(probe))
  }

  /** While the daemon stays up a probe's captured reads stay, the generation counts the
      publications, and only a publication changes the active profile or the configuration. */
  lemma {:induction false} ProbeStays(sys: Sys, es: seq<Event>, probe: nat)
    requires Runs(sys, es) && StaysUp(es) && NoEraRead(es, probe)
    requires sys.live.Some? && probe in sys.live.value.probes
    ensures Final(sys, es).live.Some?
    ensures var l, l' := sys.live.value, Final(sys, es).live.value;
      && probe in l'.probes && l'.probes[probe] == l.probes[probe]
      && l'.generation == l.generation + Publications(es)
      && (Publications(es) == 0 ==> l'.active == l.active && l'.catalog == l.catalog)
    decreases |es|
  {
    if es != [] {
      assert IsUp(es[0]) && es[0] != OnDemandStep(ReadEra(probe));
      StepKeepsProbe(sys, es[0], probe);
      assert forall i | 0 <= i < |es[1..]| :: es[1..][i] == es[i + 1];
      ProbeStays(Do(sys, es[0]), es[1..], probe);
    }
  }

  /** An era is read once, since the read changes what the probe is. */
  lemma {:induction false} SawEraStays(sys: Sys, es: seq<Event>, probe: nat)
    requires Runs(sys, es) && StaysUp(es)
    requires sys.live.Some? && probe in sys.live.value.probes && sys.live.value.probes[probe].SawEra?
    ensures NoEraRead(es, probe)
    decreases |es|
  {
    if es != [] {
      assert IsUp(es[0]) && es[0] != OnDemandStep(ReadEra(probe));
      StepKeepsProbe(sys, es[0], probe);
      assert forall i | 0 <= i < |es[1..]| :: es[1..][i] == es[i + 1];
      SawEraStays(Do(sys, es[0]), es[1..], probe);
    }
  }

  lemma {:induction false} EraStillUnread(sys: Sys, es: seq<Event>, probe: nat)
    requires Runs(sys, es) && StaysUp(es) && sys.live.Some? && probe in sys.live.value.probes
    ensures Final(sys, es).live.Some? && CanReadEra(Final(sys, es).live.value, probe) ==> NoEraRead(es, probe)
    decreases |es|
  {
    if es != [] {
      assert IsUp(es[0]);
      var rest := es[1..];
      assert forall i | 0 <= i < |rest| :: rest[i] == es[i + 1];
      if es[0] == OnDemandStep(ReadEra(probe)) {
        SawEraStays(Do(sys, es[0]), rest, probe);
        ProbeStays(Do(sys, es[0]), rest, probe);
      } else {
        StepKeepsProbe(sys, es[0], probe);
        EraStillUnread(Do(sys, es[0]), rest, probe);
      }
    }
  }

  /** The run of one on-demand probe: everything before its pool read, between its two reads,
      and after them. */
  function ProbeRun(before: seq<Event>, probe: nat, between: seq<Event>, after: seq<Event>): seq<Event> {
    before + ([OnDemandStep(ReadPool(probe))] + (between + ([OnDemandStep(ReadEra(probe))] + after)))
  }

  /** The exact condition, read off the run: a record that passes the recheck is foreign
      exactly when the configured source at the era read is not that at the pool read; so a
      publication must have come between them, and one that kept the source did no harm. */
  lemma OnDemandProbeOverRun(sys: Sys, before: seq<Event>, probe: nat, between: seq<Event>, after: seq<Event>, node: Name)
    requires var es := ProbeRun(before, probe, between, after); Init(sys) && Runs(sys, es) && SafeRun(sys, es)
    requires StaysUp(between) && StaysUp(after) && Publications(after) < GENERATIONS
    requires var w := Final(sys, ProbeRun(before, probe, between, after));
      w.live.Some? && CanRecordOnDemand(w.live.value, probe, node)
    ensures Runs(sys, before) && Final(sys, before).live.Some? && CanReadPool(Final(sys, before).live.value, probe)
    ensures var sawPool := Do(Final(sys, before), OnDemandStep(ReadPool(probe)));
      && Runs(sawPool, between) && Final(sawPool, between).live.Some? && CanReadEra(Final(sawPool, between).live.value, probe)
      && var first, second := Configured(Final(sys, before).live.value), Configured(Final(sawPool, between).live.value);
         var l := Final(sys, ProbeRun(before, probe, between, after)).live.value;
         && (l.probes[probe].pool.origin != Configured(l) <==> first != second)
         && (Publications(between) == 0 ==> first == second)
  {
    var es := ProbeRun(before, probe, between, after);
    var sawPool, sawEra := AroundProbe(sys, before, probe, between, after);
    EraStillUnread(sawPool, between, probe);
    ProbeStays(sawPool, between, probe);
    SawEraStays(sawEra, after, probe);
    ProbeStays(sawEra, after, probe);
    OnDemandProbeIsOwnExactly(sys, es, probe, node);
  }

  /** The two reads as steps of that run. */
  lemma AroundProbe(sys: Sys, before: seq<Event>, probe: nat, between: seq<Event>, after: seq<Event>) returns (sawPool: Sys, sawEra: Sys)
    requires Runs(sys, ProbeRun(before, probe, between, after))
    ensures Runs(sys, before) && Enabled(Final(sys, before), OnDemandStep(ReadPool(probe))) && sawPool == Do(Final(sys, before), OnDemandStep(ReadPool(probe)))
    ensures Runs(sawPool, between) && Enabled(Final(sawPool, between), OnDemandStep(ReadEra(probe)))
    ensures sawEra == Do(Final(sawPool, between), OnDemandStep(ReadEra(probe)))
    ensures Runs(sawEra, after) && Final(sys, ProbeRun(before, probe, between, after)) == Final(sawEra, after)
  {
    RunSplits(sys, before, [OnDemandStep(ReadPool(probe))] + (between + ([OnDemandStep(ReadEra(probe))] + after)));
    OneThenRest(Final(sys, before), OnDemandStep(ReadPool(probe)), between + ([OnDemandStep(ReadEra(probe))] + after));
    sawPool := Do(Final(sys, before), OnDemandStep(ReadPool(probe)));
    RunSplits(sawPool, between, [OnDemandStep(ReadEra(probe))] + after);
    OneThenRest(Final(sawPool, between), OnDemandStep(ReadEra(probe)), after);
    sawEra := Do(Final(sawPool, between), OnDemandStep(ReadEra(probe)));
  }

  lemma OneThenRest(sys: Sys, e: Event, rest: seq<Event>)
    requires Runs(sys, [e] + rest)
    ensures Enabled(sys, e) && Runs(Do(sys, e), rest) && Final(sys, [e] + rest) == Final(Do(sys, e), rest)
  {
    assert ([e] + rest)[0] == e && ([e] + rest)[1..] == rest;
  }

  // ---------------------------------------------------------------------------------
  // All evidence of a run.

  /** The reads of an on-demand probe saw the same configured source, and fewer than 2^64
      publications have come since. */
  predicate SteadyRecord(sys: Sys, e: Event) {
    e.OnDemandStep? && e.step.Record? && sys.live.Some? && CanRecordOnDemand(sys.live.value, e.step.probe, e.step.node) ==>
      var o := sys.live.value.probes[e.step.probe];
      o.seen == o.current && sys.live.value.generation - o.era < GENERATIONS
  }

  ghost predicate Steady(sys: Sys, es: seq<Event>)
    requires Runs(sys, es)
    decreases |es|
  {
    es == [] || (SteadyRecord(sys, es[0]) && Steady(Do(sys, es[0]), es[1..]))
  }

  lemma PersistStaysPure(l: Live, planned: map<Name, Plan>, now: int)
    requires LiveInv(l) && LivePure(l) && CanPersist(l)
    ensures LivePure(InPhase(l, PersistedPhase(l, planned, now)))
  {
    var t := l.txn.value;
    NextStaysPure(l.mem, l.catalog, t.catalog, t.target, t.prepared.Fresh?, t.phase.slot, planned, now);
  }

  lemma PublishStaysPure(l: Live)
    requires LivePure(l) && CanPublish(l)
    ensures LivePure(Published(l))
  {
    SameStatsStayPure(l.txn.value.phase.next, WithPorts(l.txn.value.phase.next, l.txn.value.phase.planned));
  }

  lemma RecordStaysPure(l: Live, node: Name, pool: Manifest)
    requires LiveInv(l) && LivePure(l) && CanRecord(l) && pool.origin == Configured(l)
    ensures LivePure(Recorded(l, node, pool))
  {
    RecordStaysPureExactly(l, node, pool);
  }

  lemma SteadyRecordIsOwn(l: Live, probe: nat, node: Name)
    requires OnDemandOk(l, probe) && CanRecordOnDemand(l, probe, node)
    requires l.probes[probe].seen == l.probes[probe].current && l.generation - l.probes[probe].era < GENERATIONS
    ensures l.probes[probe].pool.origin == Configured(l)
  {
    SameGeneration(l.probes[probe].era, l.generation);
  }

  lemma ProbeStaysPure(l: Live, step: ProbeStep)
    requires LiveInv(l) && LivePure(l) && CanProbe(l, step) && OnDemandOk(l, step.probe)
    requires step.Record? ==>
      l.probes[step.probe].seen == l.probes[step.probe].current && l.generation - l.probes[step.probe].era < GENERATIONS
    ensures LivePure(Probed(l, step))
  {
    if step.Record? {
      SteadyRecordIsOwn(l, step.probe, step.node);
      RecordStaysPure(l, step.node, l.probes[step.probe].pool);
    }
  }

  lemma OtherStepsStayPure(sys: Sys, e: Event)
    requires Steps(sys, e) && !e.RecordProbe? && !e.OnDemandStep?
    requires LiveInv(sys.live.value) && LivePure(sys.live.value)
    ensures LivePure(Stepped(sys, e))
  {
    var l := sys.live.value;
    match e
    case Rewrite(classes, verdicts) => SameStatsStayPure(l.mem, Rewritten(l, classes, verdicts).mem);
    case PersistNext(persisted, planned, now) => if persisted { PersistStaysPure(l, planned, now); }
    case Publish => PublishStaysPure(l);
    case _ =>
  }

  lemma DiskStaysPure(sys: Sys, e: Event)
    requires Inv(sys) && SysPure(sys) && Enabled(sys, e)
    ensures Decoded(DiskAfter(sys, e)).Some? && Pure(Decoded(DiskAfter(sys, e)).value)
  {
    if e.SaveState? {
      CleanSavesAndLoads(sys.live.value.mem);
    } else if e.PersistNext? && e.persisted {
      var l := sys.live.value;
      var t := l.txn.value;
      PersistedDisk(sys, e);
      NextStaysPure(l.mem, l.catalog, t.catalog, t.target, t.prepared.Fresh?, t.phase.slot, e.planned, e.now);
    }
  }

  lemma {:induction false} SteadyRunsStayPure(sys: Sys, es: seq<Event>)
    requires Inv(sys) && FilesInv(sys) && PoolsInv(sys) && SysPure(sys)
    requires Runs(sys, es) && SafeRun(sys, es) && Steady(sys, es)
    ensures SysPure(Final(sys, es))
    decreases |es|
  {
    if es != [] {
      StepKeepsInv(sys, es[0]);
      StepKeepsFiles(sys, es[0]);
      StepKeepsPools(sys, es[0]);
      DiskStaysPure(sys, es[0]);
      if es[0].Start? {
        BootStaysPure(DiskState(sys).value, es[0].catalog, es[0].default);
      } else if es[0].RecordProbe? {
        RecordStaysPure(sys.live.value, es[0].node, sys.live.value.pool);
      } else if es[0].OnDemandStep? {
        assert OnDemandOk(sys.live.value, es[0].step.probe);
        ProbeStaysPure(sys.live.value, es[0].step);
      } else if !es[0].Crash? {
        OtherStepsStayPure(sys, es[0]);
      }
      SteadyRunsStayPure(Do(sys, es[0]), es[1..]);
    }
  }

  /** A state's evidence is its own: all statistics were measured on nodes of the trusted source,
      and every confirmed slot holds the manifest published with it, fetched from that source. */
  ghost predicate EvidenceIsOwn(s: St, gens: map<Name, Manifest>, files: map<SlotFile, Manifest>) {
    && (forall p, n | NodesFor(s, p).Some? && n in NodesFor(s, p).value ::
          p in s.identities && NodesFor(s, p).value[n] <= {s.identities[p]})
    && (forall p | p in s.slots ::
          && p in s.identities && s.identities[p].Remote?
          && p in gens && FileOf(s, p) in files && files[FileOf(s, p)] == gens[p] && gens[p].origin == s.identities[p])
    && (forall p | p in s.pending ::
          p !in s.slots && p !in s.identities && (NodesFor(s, p).Some? ==> NodesFor(s, p).value == map[]))
  }

  lemma PureEvidence(s: St, gens: map<Name, Manifest>, files: map<SlotFile, Manifest>)
    requires Clean(s) && Pure(s) && Backed(s, gens, files)
    ensures EvidenceIsOwn(s, gens, files)
  {
    forall p, n | NodesFor(s, p).Some? && n in NodesFor(s, p).value
      ensures p in s.identities && NodesFor(s, p).value[n] <= {s.identities[p]}
    {
      assert OwnStats(s, p);
    }
    forall p | p in s.slots
      ensures p in s.identities && s.identities[p].Remote?
      ensures p in gens && FileOf(s, p) in files && files[FileOf(s, p)] == gens[p] && gens[p].origin == s.identities[p]
    {
      assert OwnEvidence(s, p) && SlotBacked(s, gens, files, p);
    }
    forall p | p in s.pending
      ensures p !in s.slots && p !in s.identities && (NodesFor(s, p).Some? ==> NodesFor(s, p).value == map[])
    {
      assert OwnEvidence(s, p);
    }
  }

  /** Source provenance. After every run from the first start, with any failures, cancellations
      and crashes, whose cache writes are safe and whose on-demand probes were steady, memory and
      state file hold only evidence of the trusted sources. */
  lemma ProvenanceOverRuns(sys: Sys, es: seq<Event>)
    requires Init(sys) && Runs(sys, es) && SafeRun(sys, es) && Steady(sys, es)
    ensures var w := Final(sys, es);
      && DiskState(w).Some? && EvidenceIsOwn(DiskState(w).value, w.diskGens, w.slotFiles)
      && (w.live.Some? ==> EvidenceIsOwn(w.live.value.mem, w.live.value.gens, w.slotFiles))
  {
    SafeRunsKeepFiles(sys, es);
    SteadyRunsStayPure(sys, es);
    var w := Final(sys, es);
    PureEvidence(DiskState(w).value, w.diskGens, w.slotFiles);
    if w.live.Some? { PureEvidence(w.live.value.mem, w.live.value.gens, w.slotFiles); }
  }
}
