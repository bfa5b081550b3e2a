/** The daemon as a transition system over its persistent and live state: startups,
    crashes, probes, state saves, and subscription transactions whose every step can
    fail or be cancelled. A statistics entry is represented by where its measurements came
    from, so provenance is part of the state.

    The state file is its wire form; a save is one atomic replacement. A slot file is
    identified by the configured cache path and the slot. */
module Daemon {
  import opened Base
  import opened ProfileState
  import opened StateLaws
  import opened Publication

  /** A node's statistics: the sources whose nodes were measured into them. */
  type Mark = set<Source>

  type St = State<Mark>
  type Catalog = map<Name, Source>

  /** One fetched manifest: the source it came from, which fetch it was, its nodes. */
  datatype Manifest = Manifest(origin: Source, serial: nat, nodes: seq<Name>)

  datatype SlotFile = SlotFile(base: string, slot: string)

  datatype CacheWrite = CacheWrite(target: Name, key: SlotFile, body: Manifest)

  datatype Prepared = Fresh(manifest: Manifest) | Cached(manifest: Manifest)

  datatype Phase =
    | Preparing                        // before the reconfiguration gate
    | Gated                            // owns the gate and every class lock; staging planes
    | Committing                       // the cache worker owns them
    | Committed(slot: Option<string>)  // the worker is back
    | Persisted(slot: Option<string>, next: St, nextGens: map<Name, Manifest>, planned: map<Name, Plan>)

  datatype Txn = Txn(target: Name, catalog: Catalog, reload: bool, confirmed: Option<string>, prepared: Prepared, phase: Phase)

  /** A cache worker whose transaction was cancelled; it still owns gate and class locks. */
  datatype Orphan = Orphan(write: Option<CacheWrite>)

  /** An on-demand probe run: it has read its pool, and then the era, under two separate
      locks. `seen` and `current` record the source configured at each of the two reads;
      they are history, read by no step. */
  datatype OnDemand =
    | SawPool(pool: Manifest, seen: Source)
    | SawEra(pool: Manifest, seen: Source, era: nat, current: Source)

  /** `gens` records, for every profile with a confirmed slot in `mem`, the manifest that
      was published together with that slot. It is history, read by no step.
      `generation` counts publications; the program sees it modulo 2^64. */
  datatype Live = Live(
    mem: St, gens: map<Name, Manifest>, active: Name, pool: Manifest, catalog: Catalog, generation: nat,
    txn: Option<Txn>, orphan: Option<Orphan>, probes: map<nat, OnDemand>)

  datatype Sys = Sys(
    disk: Option<Wire<Mark>>, diskGens: map<Name, Manifest>,
    slotFiles: map<SlotFile, Manifest>, bareFiles: map<string, seq<Name>>,
    live: Option<Live>)

  datatype Fetch = Fetched(manifest: Manifest) | FetchFailed(localRetry: seq<Name>)

  datatype WriteOutcome = Replaced | ReplacedThenFailed | Untouched

  /** The steps of an on-demand probe run. */
  datatype ProbeStep = ReadPool(probe: nat) | ReadEra(probe: nat) | Record(probe: nat, node: Name)

  datatype Event =
    | Start(catalog: Catalog, default: Name, localRead: seq<Name>)
    | Crash
    | RecordProbe(node: Name)
    | OnDemandStep(step: ProbeStep)
    | Rewrite(classes: map<Name, ClassState>, verdicts: map<Name, map<Name, string>>)  // a switch, a site verdict
    | SaveState(saved: bool)
    | Begin(target: Name, newCatalog: Catalog, reload: bool, fetch: Fetch)
    | TakeGate
    | GiveUp
    | StartCommit
    | CancelCommit
    | CommitWrite(outcome: WriteOutcome)
    | PersistNext(persisted: bool, planned: map<Name, Plan>, now: int)
    | Publish

  // ---------------------------------------------------------------------------------
  // Configuration and startup.

  predicate BasesApart(m: Catalog, p: Name, q: Name) {
    p in m && q in m && p != q && m[p].Remote? && m[q].Remote? ==> m[p].cacheFile != m[q].cacheFile
  }

  /** Two remote profiles of one configuration never share a cache file. */
  ghost predicate BasesDistinct(m: Catalog) {
    forall p, q :: BasesApart(m, p, q)
  }

  datatype Choice = UseSlot(slot: string) | UseUnslotted | Quarantined

  /** `startup_snapshot`; the slot branch does not test trust. */
  function StartupSnapshot(st: St, cat: Catalog, active: Name): Choice {
    if active in st.slots then UseSlot(st.slots[active])
    else if active in cat && SourceIsTrusted(st, active, cat[active]) then UseUnslotted
    else Quarantined
  }

  /** `load_profile_snapshot_from_slot`: a local profile ignores the slot, a remote one
      without a slot reads the cache that predates slots. Local files and that cache are the
      operator's; what they hold counts as the configured source's. */
  function LoadSnapshot(sys: Sys, source: Source, slot: Option<string>, localRead: seq<Name>): Option<Manifest> {
    match source
    case Local(_) => Some(Manifest(source, 0, localRead))
    case Remote(_, base) =>
      if slot.Some? then Lookup(sys.slotFiles, SlotFile(base, slot.value))
      else if base in sys.bareFiles then Some(Manifest(source, 0, sys.bareFiles[base])) else None
  }

  function Decoded(disk: Option<Wire<Mark>>): Option<St> {
    match disk
    case None => Some(DefaultState())
    case Some(w) => if Load(w).Ok? then Some(Load(w).value) else None
  }

  function DiskState(sys: Sys): Option<St> {
    Decoded(sys.disk)
  }

  function BootActive(st: St, cat: Catalog, default: Name): Name {
    if st.active.Some? && st.active.value in cat then st.active.value else default
  }

  function BootState(st: St, cat: Catalog, default: Name): St {
    var st1 := Reconciled(st, cat);
    Activated(st1, BootActive(st1, cat, default))
  }

  function BootPool(sys: Sys, e: Event): Option<Manifest>
    requires e.Start? && e.default in e.catalog && DiskState(sys).Some?
  {
    var active := BootActive(Reconciled(DiskState(sys).value, e.catalog), e.catalog, e.default);
    match StartupSnapshot(BootState(DiskState(sys).value, e.catalog, e.default), e.catalog, active)
    case UseSlot(slot) => LoadSnapshot(sys, e.catalog[active], Some(slot), e.localRead)
    case UseUnslotted => LoadSnapshot(sys, e.catalog[active], None, e.localRead)
    case Quarantined => None
  }

  // ---------------------------------------------------------------------------------
  // Transactions.

  function Prepare(sys: Sys, l: Live, e: Event): Option<Prepared>
    requires e.Begin? && e.target in e.newCatalog
  {
    var source := e.newCatalog[e.target];
    match e.fetch
    case Fetched(m) => if m.origin == source && m.nodes != [] then Some(Fresh(m)) else None
    case FetchFailed(localRetry) =>
      var sourceKept := Lookup(l.catalog, e.target) == Some(source);
      if !e.reload && e.target != l.active && SourceIsTrusted(l.mem, e.target, source) && sourceKept then
        (match LoadSnapshot(sys, source, Lookup(l.mem.slots, e.target), localRetry)
         case None => None
         case Some(m) => if m.nodes != [] then Some(Cached(m)) else None)
      else None
  }

  /** Only a freshly fetched remote manifest has a body to write. */
  function PendingWrite(t: Txn): Option<CacheWrite>
    requires t.target in t.catalog
  {
    if t.prepared.Fresh? && t.catalog[t.target].Remote? then
      Some(CacheWrite(t.target, SlotFile(t.catalog[t.target].cacheFile, NextSlot(t.confirmed)), t.prepared.manifest))
    else None
  }

  function Same(m: Mark): Mark { m }

  function Next(l: Live, t: Txn, planned: map<Name, Plan>, now: int): St
    requires t.phase.Committed?
  {
    NextState(l.mem, l.catalog, t.catalog, t.target, t.prepared.Fresh?, t.phase.slot, planned, Same, now)
  }

  function NextGens(l: Live, t: Txn, next: St): map<Name, Manifest>
    requires t.phase.Committed?
  {
    map p | p in next.slots && (p in l.gens || (p == t.target && t.phase.slot.Some?)) ::
      if p == t.target && t.phase.slot.Some? then t.prepared.manifest else l.gens[p]
  }

  /** The write gate is taken, by a transaction past its gate or by an orphaned worker. */
  predicate GateHeld(l: Live) {
    l.orphan.Some? || (l.txn.Some? && !l.txn.value.phase.Preparing?)
  }

  /** The cache write the running worker is about to make, if it has one. */
  function RunningWrite(l: Live): Option<CacheWrite> {
    if l.orphan.Some? then l.orphan.value.write
    else if l.txn.Some? && l.txn.value.phase.Committing? && l.txn.value.target in l.txn.value.catalog
    then PendingWrite(l.txn.value) else None
  }

  // ---------------------------------------------------------------------------------
  // The steps, each as the condition under which it can happen and its result.

  ghost predicate CanStart(sys: Sys, e: Event)
    requires e.Start?
  {
    && sys.live.None? && e.default in e.catalog && BasesDistinct(e.catalog) && DiskState(sys).Some?
    && BootPool(sys, e).Some? && BootPool(sys, e).value.nodes != []
  }

  function Booted(sys: Sys, e: Event): Live
    requires e.Start? && CanStart(sys, e)
  {
    var st := BootState(DiskState(sys).value, e.catalog, e.default);
    var gens := map p | p in sys.diskGens && p in st.slots :: sys.diskGens[p];
    var active := BootActive(Reconciled(DiskState(sys).value, e.catalog), e.catalog, e.default);
    Live(st, gens, active, BootPool(sys, e).value, e.catalog, 0, None, None, map[])
  }

  predicate CanRecord(l: Live) {
    !GateHeld(l) && l.active in l.catalog
  }

  /** A node of this pool has been measured: its source joins those of the entry. */
  function Recorded(l: Live, node: Name, pool: Manifest): Live {
    l.(mem := l.mem.(nodes := l.mem.nodes[node := {pool.origin} + if node in l.mem.nodes then l.mem.nodes[node] else {}]))
  }

  function Configured(l: Live): Source
    requires l.active in l.catalog
  {
    l.catalog[l.active]
  }

  predicate CanReadPool(l: Live, probe: nat) {
    probe !in l.probes && l.active in l.catalog
  }

  function PoolRead(l: Live, probe: nat): Live
    requires CanReadPool(l, probe)
  {
    l.(probes := l.probes[probe := SawPool(l.pool, Configured(l))])
  }

  predicate CanReadEra(l: Live, probe: nat) {
    probe in l.probes && l.probes[probe].SawPool? && l.active in l.catalog
  }

  function EraRead(l: Live, probe: nat): Live
    requires CanReadEra(l, probe)
  {
    var o := l.probes[probe];
    l.(probes := l.probes[probe := SawEra(o.pool, o.seen, l.generation, Configured(l))])
  }

  /** Under the read gate the era is compared again, the node tested and the result recorded;
      no publication can come in between. */
  predicate CanRecordOnDemand(l: Live, probe: nat, node: Name) {
    && CanRecord(l) && probe in l.probes && l.probes[probe].SawEra?
    && l.probes[probe].era % GENERATIONS == l.generation % GENERATIONS
    && node in l.probes[probe].pool.nodes
  }

  predicate CanProbe(l: Live, step: ProbeStep) {
    match step
    case ReadPool(probe) => CanReadPool(l, probe)
    case ReadEra(probe) => CanReadEra(l, probe)
    case Record(probe, node) => CanRecordOnDemand(l, probe, node)
  }

  function Probed(l: Live, step: ProbeStep): Live
    requires CanProbe(l, step)
  {
    match step
    case ReadPool(probe) => PoolRead(l, probe)
    case ReadEra(probe) => EraRead(l, probe)
    case Record(probe, node) => Recorded(l, node, l.probes[probe].pool)
  }

  /** The other mutators of the shared state; they too run under the read gate. */
  function Rewritten(l: Live, classes: map<Name, ClassState>, verdicts: map<Name, map<Name, string>>): Live {
    l.(mem := l.mem.(classes := classes, verdicts := verdicts))
  }

  ghost predicate CanBegin(sys: Sys, l: Live, e: Event)
    requires e.Begin?
  {
    && l.txn.None?
    && e.target in e.newCatalog && BasesDistinct(e.newCatalog)
    && (if e.reload then e.target == l.active else e.newCatalog == l.catalog)
    && Prepare(sys, l, e).Some?
  }

  function Begun(sys: Sys, l: Live, e: Event): Live
    requires e.Begin? && CanBegin(sys, l, e)
  {
    var t := Txn(e.target, e.newCatalog, e.reload, Lookup(l.mem.slots, e.target), Prepare(sys, l, e).value, Preparing);
    l.(txn := Some(t))
  }

  predicate HasTxn(l: Live) {
    l.txn.Some? && l.txn.value.target in l.txn.value.catalog
  }

  function InPhase(l: Live, phase: Phase): Live
    requires HasTxn(l)
  {
    l.(txn := Some(l.txn.value.(phase := phase)))
  }

  function WithoutTxn(l: Live): Live {
    l.(txn := None)
  }

  predicate CanTakeGate(l: Live) {
    HasTxn(l) && l.txn.value.phase.Preparing? && l.orphan.None?
  }

  /** A failing exit, or a cancellation while no worker runs. */
  predicate CanGiveUp(l: Live) {
    HasTxn(l) && (l.txn.value.phase.Preparing? || l.txn.value.phase.Gated? || l.txn.value.phase.Committed?)
  }

  predicate CanStartCommit(l: Live) {
    HasTxn(l) && l.txn.value.phase.Gated?
  }

  predicate CanCancelCommit(l: Live) {
    HasTxn(l) && l.txn.value.phase.Committing? && l.orphan.None?
  }

  function Orphaned(l: Live): Live
    requires CanCancelCommit(l)
  {
    l.(txn := None, orphan := Some(Orphan(PendingWrite(l.txn.value))))
  }

  predicate CanWrite(l: Live) {
    l.orphan.Some? || (HasTxn(l) && l.txn.value.phase.Committing?)
  }

  function WriteReturned(l: Live, outcome: WriteOutcome): Live
    requires CanWrite(l)
  {
    if l.orphan.Some? then l.(orphan := None)
    else
      match PendingWrite(l.txn.value)
      case None => InPhase(l, Committed(None))
      case Some(write) =>
        if outcome.Replaced? then InPhase(l, Committed(Some(write.key.slot))) else WithoutTxn(l)
  }

  /** A worker that reports failure may still have replaced the file: the directory sync
      after the rename can fail. */
  function FilesAfter(sys: Sys, write: Option<CacheWrite>, outcome: WriteOutcome): map<SlotFile, Manifest> {
    if write.Some? && !outcome.Untouched? then sys.slotFiles[write.value.key := write.value.body] else sys.slotFiles
  }

  /** A state that still needs its migration could not be saved. */
  predicate CanPersist(l: Live) {
    HasTxn(l) && l.txn.value.phase.Committed? && l.mem.version == STATE_VERSION
  }

  lemma NextIsSaved(l: Live, planned: map<Name, Plan>, now: int)
    requires CanPersist(l)
    ensures Save(Next(l, l.txn.value, planned, now)).Ok?
  {}

  function SavedNext(l: Live, planned: map<Name, Plan>, now: int): Wire<Mark>
    requires CanPersist(l)
  {
    NextIsSaved(l, planned, now);
    Save(Next(l, l.txn.value, planned, now)).value
  }

  function PersistedPhase(l: Live, planned: map<Name, Plan>, now: int): Phase
    requires CanPersist(l)
  {
    var next := Next(l, l.txn.value, planned, now);
    Persisted(l.txn.value.phase.slot, next, NextGens(l, l.txn.value, next), planned)
  }

  predicate CanPublish(l: Live) {
    HasTxn(l) && l.txn.value.phase.Persisted?
  }

  function Published(l: Live): Live
    requires CanPublish(l)
  {
    var t := l.txn.value;
    l.(mem := WithPorts(t.phase.next, t.phase.planned), gens := t.phase.nextGens,
       active := t.target, pool := t.prepared.manifest, catalog := t.catalog,
       generation := l.generation + 1, txn := None)
  }

  /** A step of the running daemon. */
  ghost predicate Steps(sys: Sys, e: Event) {
    sys.live.Some? && var l := sys.live.value;
      match e
      case Start(_, _, _) => false
      case Crash => false
      case RecordProbe(node) => CanRecord(l) && node in l.pool.nodes
      case OnDemandStep(step) => CanProbe(l, step)
      case Rewrite(_, _) => CanRecord(l)
      case SaveState(_) => Save(l.mem).Ok?
      case Begin(_, _, _, _) => CanBegin(sys, l, e)
      case TakeGate => CanTakeGate(l)
      case GiveUp => CanGiveUp(l)
      case StartCommit => CanStartCommit(l)
      case CancelCommit => CanCancelCommit(l)
      case CommitWrite(_) => CanWrite(l)
      case PersistNext(_, _, _) => CanPersist(l)
      case Publish => CanPublish(l)
  }

  ghost predicate Enabled(sys: Sys, e: Event) {
    if e.Start? then CanStart(sys, e) else if e.Crash? then true else Steps(sys, e)
  }

  /** The live daemon after a step of a running daemon. */
  function Stepped(sys: Sys, e: Event): Live
    requires Steps(sys, e)
  {
    var l := sys.live.value;
    match e
    case RecordProbe(node) => Recorded(l, node, l.pool)
    case OnDemandStep(step) => Probed(l, step)
    case Rewrite(classes, verdicts) => Rewritten(l, classes, verdicts)
    case SaveState(_) => l
    case Begin(_, _, _, _) => Begun(sys, l, e)
    case TakeGate => InPhase(l, Gated)
    case GiveUp => WithoutTxn(l)
    case StartCommit => InPhase(l, Committing)
    case CancelCommit => Orphaned(l)
    case CommitWrite(outcome) => WriteReturned(l, outcome)
    case PersistNext(persisted, planned, now) =>
      if persisted then InPhase(l, PersistedPhase(l, planned, now)) else WithoutTxn(l)
    case Publish => Published(l)
  }

  /** A save can replace the state file at any moment: several requests save after leaving
      the gate. */
  function DiskAfter(sys: Sys, e: Event): Option<Wire<Mark>>
    requires Enabled(sys, e)
  {
    if e.SaveState? && e.saved then Some(Save(sys.live.value.mem).value)
    else if e.PersistNext? && e.persisted then Some(SavedNext(sys.live.value, e.planned, e.now))
    else sys.disk
  }

  function DiskGensAfter(sys: Sys, e: Event): map<Name, Manifest>
    requires Enabled(sys, e)
  {
    if e.SaveState? && e.saved then sys.live.value.gens
    else if e.PersistNext? && e.persisted then PersistedPhase(sys.live.value, e.planned, e.now).nextGens
    else sys.diskGens
  }

  function Do(sys: Sys, e: Event): Sys
    requires Enabled(sys, e)
  {
    var files := if e.CommitWrite? then FilesAfter(sys, RunningWrite(sys.live.value), e.outcome) else sys.slotFiles;
    var live := if e.Start? then Some(Booted(sys, e)) else if e.Crash? then None else Some(Stepped(sys, e));
    Sys(DiskAfter(sys, e), DiskGensAfter(sys, e), files, sys.bareFiles, live)
  }

  ghost predicate Runs(sys: Sys, es: seq<Event>)
    decreases |es|
  {
    es == [] || (Enabled(sys, es[0]) && Runs(Do(sys, es[0]), es[1..]))
  }

  function Final(sys: Sys, es: seq<Event>): Sys
    requires Runs(sys, es)
    decreases |es|
  {
    if es == [] then sys else Final(Do(sys, es[0]), es[1..])
  }

  /** First run: no state file and no slot files. */
  predicate Init(sys: Sys) {
    sys.disk.None? && sys.diskGens == map[] && sys.slotFiles == map[] && sys.live.None?
  }
}
