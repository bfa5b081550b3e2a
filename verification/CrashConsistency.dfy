/** Crash consistency: a restart loads, for every profile whose slot the state file
    confirms, exactly the manifest that was published together with that state. The source
    promises this for every run; it holds for every run all of whose cache writes are safe,
    and a write of a new body is harmless exactly when it is safe. `CarefulRuns` says what
    makes writes safe, `CrashWitnesses` has a run for each way to break that. */
module CrashConsistency {
  import opened Base
  import opened ProfileState
  import opened Publication
  import opened Preservation
  import opened Daemon
  import opened Provenance

  /** The file holding the manifest a state confirms for a profile. */
  function FileOf(s: St, p: Name): SlotFile
    requires p in s.slots && p in s.identities && s.identities[p].Remote?
  {
    SlotFile(s.identities[p].cacheFile, s.slots[p])
  }

  predicate SlotBacked(s: St, gens: map<Name, Manifest>, files: map<SlotFile, Manifest>, p: Name) {
    p in s.slots && p in s.identities && s.identities[p].Remote? ==>
      && p in gens && FileOf(s, p) in files && files[FileOf(s, p)] == gens[p]
      && gens[p].origin == s.identities[p]
  }

  /** Every confirmed slot holds the manifest published with it, fetched from the trusted source. */
  ghost predicate Backed(s: St, gens: map<Name, Manifest>, files: map<SlotFile, Manifest>) {
    forall p :: SlotBacked(s, gens, files, p)
  }

  ghost predicate TxnBacked(l: Live, files: map<SlotFile, Manifest>) {
    l.txn.Some? ==>
      var t := l.txn.value;
      && (t.phase.Committed? && t.target in t.catalog && PendingWrite(t).Some? ==>
            PendingWrite(t).value.key in files && files[PendingWrite(t).value.key] == t.prepared.manifest)
      && (t.phase.Persisted? ==> Backed(t.phase.next, t.phase.nextGens, files))
  }

  ghost predicate LiveBacked(l: Live, files: map<SlotFile, Manifest>) {
    Backed(l.mem, l.gens, files) && TxnBacked(l, files)
  }

  ghost predicate FilesInv(sys: Sys) {
    && DiskState(sys).Some? && Backed(DiskState(sys).value, sys.diskGens, sys.slotFiles)
    && (sys.live.Some? ==> LiveBacked(sys.live.value, sys.slotFiles))
  }

  // ---------------------------------------------------------------------------------
  // What a write must not meet.

  predicate SameSlot(s: St, s': St, p: Name) {
    Lookup(s.slots, p) == Lookup(s'.slots, p) && (p in s.slots ==> Lookup(s.identities, p) == Lookup(s'.identities, p))
  }

  /** Two states confirm the same slots of the same sources. */
  ghost predicate ConfirmSame(s: St, s': St) {
    forall p :: SameSlot(s, s', p)
  }

  predicate OwnsBase(s: St, p: Name, base: string) {
    p in s.slots && p in s.identities && s.identities[p].Remote? && s.identities[p].cacheFile == base
  }

  /** No profile other than the target still has a confirmed slot beside this cache path. */
  ghost predicate BaseFree(s: St, w: CacheWrite) {
    forall p | p != w.target :: !OwnsBase(s, p, w.key.base)
  }

  /** What a profile of a state must satisfy when its confirmed cache lies beside the path
      about to be written: it is in slot A exactly when slot B is written. */
  predicate Alternates(s: St, w: CacheWrite, p: Name) {
    OwnsBase(s, p, w.key.base) ==> (s.slots[p] == CACHE_SLOT_A <==> w.key.slot == CACHE_SLOT_B)
  }

  ghost predicate Spared(s: St, w: CacheWrite) {
    forall p :: Alternates(s, w, p)
  }

  /** The condition under which the running worker may write: the state file and memory
      both have the other slot confirmed at that path, or none. */
  ghost predicate SafeWrite(sys: Sys, e: Event) {
    e.CommitWrite? && sys.live.Some? && RunningWrite(sys.live.value).Some? && !e.outcome.Untouched? ==>
      && DiskState(sys).Some? && Spared(DiskState(sys).value, RunningWrite(sys.live.value).value)
      && Spared(sys.live.value.mem, RunningWrite(sys.live.value).value)
  }

  ghost predicate SafeRun(sys: Sys, es: seq<Event>)
    requires Runs(sys, es)
    decreases |es|
  {
    es == [] || (SafeWrite(sys, es[0]) && SafeRun(Do(sys, es[0]), es[1..]))
  }

  /** Writing a body that no confirmed slot holds keeps a state backed exactly when that
      state is spared. */
  lemma SparedExactly(s: St, gens: map<Name, Manifest>, files: map<SlotFile, Manifest>, w: CacheWrite)
    requires Clean(s) && Backed(s, gens, files) && IsSlot(w.key.slot)
    ensures Spared(s, w) ==> Backed(s, gens, files[w.key := w.body])
    ensures w.body !in gens.Values && Backed(s, gens, files[w.key := w.body]) ==> Spared(s, w)
  {
    var files' := files[w.key := w.body];
    if Spared(s, w) {
      forall p ensures SlotBacked(s, gens, files', p) {
        assert SlotBacked(s, gens, files, p) && Alternates(s, w, p) && OwnEvidence(s, p);
      }
    }
    if w.body !in gens.Values && Backed(s, gens, files') {
      forall p ensures Alternates(s, w, p) {
        assert SlotBacked(s, gens, files', p) && OwnEvidence(s, p);
      }
    }
  }

  lemma BackedTransfers(s: St, s': St, gens: map<Name, Manifest>, gens': map<Name, Manifest>, files: map<SlotFile, Manifest>)
    requires Backed(s, gens, files)
    requires forall p | p in s'.slots :: SameSlot(s', s, p) && Lookup(gens', p) == Lookup(gens, p)
    ensures Backed(s', gens', files)
  {
    forall p ensures SlotBacked(s', gens', files, p) {
      assert SlotBacked(s, gens, files, p);
      if p in s'.slots { assert SameSlot(s', s, p); }
    }
  }

  lemma RunningWriteHasSlot(l: Live)
    requires LiveInv(l) && RunningWrite(l).Some?
    ensures RunningWrite(l).value.key.slot == NextSlot(Lookup(l.mem.slots, RunningWrite(l).value.target))
  {}

  lemma WriteKeepsFiles(sys: Sys, outcome: WriteOutcome)
    requires Inv(sys) && FilesInv(sys) && Enabled(sys, CommitWrite(outcome)) && SafeWrite(sys, CommitWrite(outcome))
    ensures FilesInv(Do(sys, CommitWrite(outcome)))
  {
    var l := sys.live.value;
    if RunningWrite(l).Some? && !outcome.Untouched? {
      RunningWriteHasSlot(l);
      SparedExactly(l.mem, l.gens, sys.slotFiles, RunningWrite(l).value);
      SparedExactly(DiskState(sys).value, sys.diskGens, sys.slotFiles, RunningWrite(l).value);
    }
    assert Backed(l.mem, l.gens, FilesAfter(sys, RunningWrite(l), outcome));
    WriteKeepsTxn(l, sys.slotFiles, outcome);
  }

  /** A write that replaces the file with a newly fetched body keeps every confirmed slot
      intact exactly when it is safe. */
  lemma WriteKeepsFilesExactly(sys: Sys, outcome: WriteOutcome)
    requires Inv(sys) && FilesInv(sys) && Enabled(sys, CommitWrite(outcome))
    requires RunningWrite(sys.live.value).Some? && !outcome.Untouched?
    requires RunningWrite(sys.live.value).value.body !in sys.diskGens.Values + sys.live.value.gens.Values
    ensures FilesInv(Do(sys, CommitWrite(outcome))) <==> SafeWrite(sys, CommitWrite(outcome))
  {
    var l := sys.live.value;
    if FilesInv(Do(sys, CommitWrite(outcome))) {
      RunningWriteHasSlot(l);
      SparedExactly(l.mem, l.gens, sys.slotFiles, RunningWrite(l).value);
      SparedExactly(DiskState(sys).value, sys.diskGens, sys.slotFiles, RunningWrite(l).value);
    } else if SafeWrite(sys, CommitWrite(outcome)) {
      WriteKeepsFiles(sys, outcome);
    }
  }

  lemma WriteKeepsTxn(l: Live, files: map<SlotFile, Manifest>, outcome: WriteOutcome)
    requires LiveInv(l) && CanWrite(l)
    ensures var w := RunningWrite(l);
      TxnBacked(WriteReturned(l, outcome),
                if w.Some? && !outcome.Untouched? then files[w.value.key := w.value.body] else files)
  {}

  lemma BootKeepsSlots(st: St, cat: Catalog, default: Name, p: Name)
    requires Clean(st) && BasesDistinct(cat) && p in BootState(st, cat, default).slots
    ensures SameSlot(BootState(st, cat, default), st, p)
  {
    var reconciled := Reconciled(st, cat);
    ReconciledIsClean(st, cat);
    ActivatedIsClean(reconciled, BootActive(reconciled, cat, default));
    assert OwnEvidence(reconciled, p) && OwnEvidence(st, p) && AgreesOn(reconciled, cat, p);
    assert p in cat && p !in Mismatched(st, cat);
  }

  lemma StartKeepsFiles(sys: Sys, e: Event)
    requires Inv(sys) && FilesInv(sys) && e.Start? && CanStart(sys, e)
    ensures LiveBacked(Booted(sys, e), sys.slotFiles)
  {
    var l := Booted(sys, e);
    forall p | p in l.mem.slots ensures SameSlot(l.mem, DiskState(sys).value, p) && Lookup(l.gens, p) == Lookup(sys.diskGens, p) {
      BootKeepsSlots(DiskState(sys).value, e.catalog, e.default, p);
    }
    BackedTransfers(DiskState(sys).value, l.mem, sys.diskGens, l.gens, sys.slotFiles);
  }

  lemma CatalogKeepsSlots(s: St, previous: Catalog, next: Catalog, vouched: Option<Name>, p: Name)
    requires Clean(s) && p in CatalogApplied(s, previous, next, vouched).slots
    ensures SameSlot(CatalogApplied(s, previous, next, vouched), s, p)
  {
    assert OwnEvidence(s, p);
    assert p in next && p !in Changed(s, previous, next);
  }

  lemma NextKeepsSlot(l: Live, planned: map<Name, Plan>, now: int, p: Name)
    requires LiveInv(l) && CanPersist(l)
    ensures var t := l.txn.value;
      p in Next(l, t, planned, now).slots && !(p == t.target && t.phase.slot.Some?) ==> SameSlot(Next(l, t, planned, now), l.mem, p)
  {
    var t := l.txn.value;
    var v := if t.prepared.Fresh? then Some(t.target) else None;
    CatalogIsClean(l.mem, l.catalog, t.catalog, v);
    ActivatedIsClean(CatalogApplied(l.mem, l.catalog, t.catalog, v), t.target);
    if p in CatalogApplied(l.mem, l.catalog, t.catalog, v).slots { CatalogKeepsSlots(l.mem, l.catalog, t.catalog, v, p); }
  }

  lemma NextKeepsFiles(l: Live, files: map<SlotFile, Manifest>, planned: map<Name, Plan>, now: int)
    requires LiveInv(l) && LiveBacked(l, files) && CanPersist(l)
    ensures var ph := PersistedPhase(l, planned, now); Backed(ph.next, ph.nextGens, files)
  {
    var t, ph := l.txn.value, PersistedPhase(l, planned, now);
    NextOfCommitted(l, t, planned, now);
    forall p ensures SlotBacked(ph.next, ph.nextGens, files, p) {
      assert AgreesOn(ph.next, t.catalog, p);
      if p in ph.next.slots && !(p == t.target && t.phase.slot.Some?) {
        NextKeepsSlot(l, planned, now, p);
        assert SlotBacked(l.mem, l.gens, files, p);
      }
    }
  }

  lemma StepKeepsFiles(sys: Sys, e: Event)
    requires Inv(sys) && FilesInv(sys) && Enabled(sys, e) && SafeWrite(sys, e)
    ensures FilesInv(Do(sys, e))
  {
    DiskKeeps(sys, e);
    if e.Start? {
      StartKeepsFiles(sys, e);
    } else if !e.Crash? {
      var l := sys.live.value;
      match e
      case RecordProbe(_) => SameSlotsKeepFiles(l, Stepped(sys, e), sys.slotFiles);
      case OnDemandStep(_) => SameSlotsKeepFiles(l, Stepped(sys, e), sys.slotFiles);
      case Rewrite(_, _) => SameSlotsKeepFiles(l, Stepped(sys, e), sys.slotFiles);
      case CommitWrite(outcome) => WriteKeepsFiles(sys, outcome);
      case SaveState(_) => CleanSavesAndLoads(l.mem);
      case PersistNext(persisted, planned, now) => if persisted { PersistKeepsFiles(sys, l, planned, now); }
      case Publish => PublishKeepsFiles(l, sys.slotFiles);
      case _ =>
    }
  }

  lemma SameSlotsKeepFiles(l: Live, l': Live, files: map<SlotFile, Manifest>)
    requires LiveBacked(l, files) && l'.gens == l.gens && l'.txn == l.txn
    requires l'.mem.slots == l.mem.slots && l'.mem.identities == l.mem.identities
    ensures LiveBacked(l', files)
  {
    BackedTransfers(l.mem, l'.mem, l.gens, l'.gens, files);
  }

  lemma PersistKeepsFiles(sys: Sys, l: Live, planned: map<Name, Plan>, now: int)
    requires LiveInv(l) && LiveBacked(l, sys.slotFiles) && CanPersist(l)
    ensures var ph := PersistedPhase(l, planned, now);
      Backed(ph.next, ph.nextGens, sys.slotFiles) && Decoded(Some(SavedNext(l, planned, now))) == Some(ph.next)
  {
    NextKeepsFiles(l, sys.slotFiles, planned, now);
    NextOfCommitted(l, l.txn.value, planned, now);
    CleanSavesAndLoads(Next(l, l.txn.value, planned, now));
  }

  lemma PublishKeepsFiles(l: Live, files: map<SlotFile, Manifest>)
    requires CanPublish(l) && TxnBacked(l, files)
    ensures LiveBacked(Published(l), files)
  {
    var ph := l.txn.value.phase;
    BackedTransfers(ph.next, WithPorts(ph.next, ph.planned), ph.nextGens, ph.nextGens, files);
  }

  lemma {:induction false} SafeRunsKeepFiles(sys: Sys, es: seq<Event>)
    requires Inv(sys) && FilesInv(sys) && Runs(sys, es) && SafeRun(sys, es)
    ensures Inv(Final(sys, es)) && FilesInv(Final(sys, es))
    decreases |es|
  {
    if es != [] {
      StepKeepsInv(sys, es[0]);
      StepKeepsFiles(sys, es[0]);
      SafeRunsKeepFiles(Do(sys, es[0]), es[1..]);
    }
  }

  ghost predicate IsStartup(s: Sys, e: Event) {
    e.Start? && e.default in e.catalog && BasesDistinct(e.catalog) && DiskState(s).Some?
  }

  /** What a startup must serve: nothing of a profile whose source differs from the recorded one or
      whose change is pending; the manifest published with the state file if that confirms a slot;
      else the local files or the cache that predates slots. */
  ghost function ToServe(s: Sys, e: Event): Option<Manifest>
    requires IsStartup(s, e)
  {
    var disk := DiskState(s).value;
    var active := Resumed(disk, e.catalog, e.default);
    if IsStale(disk, active, e.catalog[active]) || active in disk.pending then None
    else if active in disk.slots then Lookup(s.diskGens, active)
    else match e.catalog[active]
         case Local(_) => Some(Manifest(e.catalog[active], 0, e.localRead))
         case Remote(_, base) =>
           if base in s.bareFiles then Some(Manifest(e.catalog[active], 0, s.bareFiles[base])) else None
  }

  /** With no daemon running, a startup succeeds exactly when there is something to serve. Then the
      resumed profile is active, and its pool is that and comes from the source configured now. */
  ghost predicate ServesPublished(s: Sys, e: Event)
    requires IsStartup(s, e)
  {
    var active := Resumed(DiskState(s).value, e.catalog, e.default);
    && (s.live.None? ==> (Enabled(s, e) <==> ToServe(s, e).Some? && ToServe(s, e).value.nodes != []))
    && (active in DiskState(s).value.slots ==> active in s.diskGens)
    && (Enabled(s, e) ==>
          var l := Do(s, e).live.value;
          && l.active == active && l.mem.active == Some(active) && l.catalog == e.catalog
          && Some(l.pool) == ToServe(s, e) && l.pool.origin == e.catalog[active])
  }

  lemma BootPoolIs(s: Sys, e: Event)
    requires Inv(s) && FilesInv(s) && IsStartup(s, e)
    ensures var active := Resumed(DiskState(s).value, e.catalog, e.default);
      && BootPool(s, e) == ToServe(s, e)
      && (active in DiskState(s).value.slots ==> active in s.diskGens)
      && (ToServe(s, e).Some? ==> ToServe(s, e).value.origin == e.catalog[active])
  {
    var disk := DiskState(s).value;
    var active, st := Resumed(disk, e.catalog, e.default), BootState(disk, e.catalog, e.default);
    BootResumes(disk, e.catalog, e.default);
    BootedProfile(disk, e.catalog, e.default);
    ReconciledIsClean(disk, e.catalog);
    ActivatedIsClean(Reconciled(disk, e.catalog), active);
    assert OwnEvidence(st, active) && OwnEvidence(disk, active) && SlotBacked(disk, s.diskGens, s.slotFiles, active);
  }

  lemma ServedGeneration(s: Sys, e: Event)
    requires Inv(s) && FilesInv(s) && IsStartup(s, e)
    ensures ServesPublished(s, e)
  {
    BootPoolIs(s, e);
    BootResumes(DiskState(s).value, e.catalog, e.default);
    BootedProfile(DiskState(s).value, e.catalog, e.default);
  }

  /** The main result. After any safe run, whatever the crashes, failures and cancellations
      in it, a restart resumes the selected profile, and where the state file confirms a slot it
      serves the manifest published with that file. */
  lemma RestartServesPublishedGeneration(sys: Sys, es: seq<Event>, e: Event)
    requires Init(sys) && Runs(sys, es) && SafeRun(sys, es)
    requires IsStartup(Final(sys, es), e)
    ensures ServesPublished(Final(sys, es), e)
  {
    SafeRunsKeepFiles(sys, es);
    ServedGeneration(Final(sys, es), e);
  }

  /** What a cached fallback may serve: the manifest last published for the profile when it has a
      confirmed slot, else its local files or the cache that predates slots. */
  ghost function ToFallBackTo(sys: Sys, l: Live, e: Event): Option<Manifest>
    requires e.Begin? && e.fetch.FetchFailed? && e.target in e.newCatalog
  {
    var source := e.newCatalog[e.target];
    if e.target in l.mem.slots then Lookup(l.gens, e.target)
    else match source
         case Local(_) => Some(Manifest(source, 0, e.fetch.localRetry))
         case Remote(_, base) => if base in sys.bareFiles then Some(Manifest(source, 0, sys.bareFiles[base])) else None
  }

  /** Only a switch to an inactive profile falls back, and only if its source is trusted and still
      the configured one. */
  predicate MayFallBack(l: Live, e: Event)
    requires e.Begin? && e.target in e.newCatalog
  {
    var source := e.newCatalog[e.target];
    && !e.reload && e.target != l.active
    && e.target in l.mem.identities && l.mem.identities[e.target] == source && e.target !in l.mem.pending
    && e.target in l.catalog && l.catalog[e.target] == source
  }

  /** After any safe run a failed fetch is answered from the cache exactly when it may be and the
      cache holds any node, then with just that manifest, whose nodes come from the configured
      source; otherwise the transaction fails. */
  lemma FallbackServesPublishedGeneration(sys: Sys, es: seq<Event>, e: Event)
    requires Init(sys) && Runs(sys, es) && SafeRun(sys, es)
    requires Final(sys, es).live.Some? && e.Begin? && e.fetch.FetchFailed? && e.target in e.newCatalog
    ensures FallsBackExactly(Final(sys, es), Final(sys, es).live.value, e)
  {
    SafeRunsKeepFiles(sys, es);
    FallbackGeneration(Final(sys, es), Final(sys, es).live.value, e);
  }

  ghost predicate FallsBackExactly(sys: Sys, l: Live, e: Event)
    requires e.Begin? && e.fetch.FetchFailed? && e.target in e.newCatalog
  {
    var m := ToFallBackTo(sys, l, e);
    && Prepare(sys, l, e) == (if MayFallBack(l, e) && m.Some? && m.value.nodes != [] then Some(Cached(m.value)) else None)
    && (Prepare(sys, l, e).Some? ==> m.value.origin == e.newCatalog[e.target])
    && (MayFallBack(l, e) && e.target in l.mem.slots ==> m.Some?)
  }

  lemma FallbackGeneration(sys: Sys, l: Live, e: Event)
    requires LiveInv(l) && LiveBacked(l, sys.slotFiles) && e.Begin? && e.fetch.FetchFailed? && e.target in e.newCatalog
    ensures FallsBackExactly(sys, l, e)
  {
    assert OwnEvidence(l.mem, e.target) && AgreesOn(l.mem, l.catalog, e.target);
    assert SlotBacked(l.mem, l.gens, sys.slotFiles, e.target);
  }
}
