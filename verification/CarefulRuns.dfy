/** What makes the cache writes of a run safe: whenever a slot is replaced, the state file is in
    step with memory and no other profile has its confirmed cache at the path. */
module CarefulRuns {
  import opened Base
  import opened ProfileState
  import opened Publication
  import opened Daemon
  import opened Provenance
  import opened CrashConsistency

  /** A write is safe when the state file and memory confirm the same slots and no other
      profile's confirmed cache lies at the target's configured path. */
  lemma InStepWriteIsSafe(disk: St, l: Live)
    requires LiveInv(l) && RunningWrite(l).Some?
    requires ConfirmSame(disk, l.mem) && BaseFree(l.mem, RunningWrite(l).value)
    ensures Spared(disk, RunningWrite(l).value) && Spared(l.mem, RunningWrite(l).value)
  {
    var w := RunningWrite(l).value;
    RunningWriteHasSlot(l);
    forall p ensures Alternates(l.mem, w, p) && Alternates(disk, w, p) {
      assert OwnEvidence(l.mem, p) && SameSlot(disk, l.mem, p);
      if p != w.target { assert !OwnsBase(l.mem, p, w.key.base); }
    }
  }

  /** The state file confirms what memory confirms, or, between a transaction's save and its
      publication, what is about to be published. */
  ghost predicate LiveInStep(disk: St, l: Live) {
    ConfirmSame(disk, ToConfirm(l))
  }

  function ToConfirm(l: Live): St {
    if l.txn.Some? && l.txn.value.phase.Persisted? then l.txn.value.phase.next else l.mem
  }

  ghost predicate InStep(sys: Sys) {
    sys.live.Some? && DiskState(sys).Some? ==> LiveInStep(DiskState(sys).value, sys.live.value)
  }

  /** Whether the state file is known to be in step after an event. Only two events can put it
      out of step: a startup over a changed source of a confirmed profile, and a save of the
      old memory after a transaction has saved the new one. Any later save by a transaction, or
      outside that window, puts it back. */
  ghost predicate StillInStep(sys: Sys, e: Event, inStep: bool) {
    if e.Start? then SourcesUnchanged(sys, e.catalog)
    else if e.Crash? || (e.PersistNext? && e.persisted) then true
    else if e.SaveState? && e.saved then
      !(sys.live.Some? && sys.live.value.txn.Some? && sys.live.value.txn.value.phase.Persisted?)
    else inStep
  }

  /** Every confirmed profile is still configured with the source it was confirmed with. */
  ghost predicate SourcesUnchanged(sys: Sys, cat: Catalog) {
    DiskState(sys).Some? ==>
      forall p | p in DiskState(sys).value.slots :: Lookup(cat, p) == Lookup(DiskState(sys).value.identities, p)
  }

  lemma BootInStep(disk: St, cat: Catalog, default: Name)
    requires Clean(disk) && BasesDistinct(cat)
    ensures ConfirmSame(disk, BootState(disk, cat, default))
       <==> (forall p | p in disk.slots :: Lookup(cat, p) == Lookup(disk.identities, p))
  {
    var reconciled := Reconciled(disk, cat);
    var st := BootState(disk, cat, default);
    ReconciledIsClean(disk, cat);
    ActivatedIsClean(reconciled, BootActive(reconciled, cat, default));
    forall p ensures SameSlot(disk, st, p) <==> (p in disk.slots ==> Lookup(cat, p) == Lookup(disk.identities, p)) {
      assert OwnEvidence(disk, p) && OwnEvidence(reconciled, p) && AgreesOn(reconciled, cat, p);
      if p in st.slots { BootKeepsSlots(disk, cat, default, p); }
    }
  }

  lemma OtherStepsConfirmNothing(sys: Sys, e: Event)
    requires Steps(sys, e) && LiveInv(sys.live.value)
    requires !e.PersistNext? && !e.RecordProbe? && !e.OnDemandStep? && !e.Rewrite? && !e.Publish?
    ensures ToConfirm(Stepped(sys, e)) == ToConfirm(sys.live.value)
  {}

  lemma LiveStaysInStep(sys: Sys, e: Event, disk: St)
    requires Steps(sys, e) && !e.PersistNext? && LiveInv(sys.live.value) && LiveInStep(disk, sys.live.value)
    ensures LiveInStep(disk, Stepped(sys, e))
  {
    var l := sys.live.value;
    if e.RecordProbe? || e.OnDemandStep? || e.Rewrite? || e.Publish? {
      ConfirmSameTransfers(disk, ToConfirm(l), ToConfirm(Stepped(sys, e)));
    } else {
      OtherStepsConfirmNothing(sys, e);
    }
  }

  lemma StepStaysInStep(sys: Sys, e: Event, inStep: bool)
    requires Inv(sys) && (inStep ==> InStep(sys)) && Enabled(sys, e) && StillInStep(sys, e, inStep)
    ensures InStep(Do(sys, e))
  {
    if e.Start? {
      BootInStep(DiskState(sys).value, e.catalog, e.default);
    } else if e.PersistNext? && e.persisted {
      PersistStaysInStep(sys, e);
    } else if e.SaveState? && e.saved {
      CleanSavesAndLoads(sys.live.value.mem);
      SameAsItself(sys.live.value.mem);
    } else if e.PersistNext? {
      WithoutTxnConfirmsMemory(sys.live.value);
    } else if !e.Crash? {
      LiveStaysInStep(sys, e, DiskState(sys).value);
    }
  }

  lemma WithoutTxnConfirmsMemory(l: Live)
    requires HasTxn(l) && l.txn.value.phase.Committed?
    ensures ToConfirm(WithoutTxn(l)) == ToConfirm(l)
  {}

  lemma PersistedDisk(sys: Sys, e: Event)
    requires Inv(sys) && e.PersistNext? && e.persisted && Enabled(sys, e)
    ensures var l := sys.live.value; Decoded(DiskAfter(sys, e)) == Some(Next(l, l.txn.value, e.planned, e.now))
  {
    var l := sys.live.value;
    NextOfCommitted(l, l.txn.value, e.planned, e.now);
    CleanSavesAndLoads(Next(l, l.txn.value, e.planned, e.now));
  }

  lemma PersistStaysInStep(sys: Sys, e: Event)
    requires Inv(sys) && e.PersistNext? && e.persisted && Enabled(sys, e)
    ensures InStep(Do(sys, e))
  {
    var l := sys.live.value;
    PersistedDisk(sys, e);
    SameAsItself(Next(l, l.txn.value, e.planned, e.now));
    PersistedConfirmsNext(l, e.planned, e.now);
  }

  lemma PersistedConfirmsNext(l: Live, planned: map<Name, Plan>, now: int)
    requires CanPersist(l)
    ensures ToConfirm(InPhase(l, PersistedPhase(l, planned, now))) == Next(l, l.txn.value, planned, now)
  {}

  lemma SameAsItself(s: St)
    ensures ConfirmSame(s, s)
  {
    forall p ensures SameSlot(s, s, p) {}
  }

  lemma ConfirmSameTransfers(s: St, s1: St, s2: St)
    requires ConfirmSame(s, s1) && s1.slots == s2.slots && s1.identities == s2.identities
    ensures ConfirmSame(s, s2)
  {
    forall p ensures SameSlot(s, s2, p) { assert SameSlot(s, s1, p); }
  }

  /** No running or future write of this daemon aims at another profile's confirmed cache. */
  ghost predicate BasesFree(l: Live) {
    && (l.orphan.Some? && l.orphan.value.write.Some? ==> BaseFree(l.mem, l.orphan.value.write.value))
    && (l.txn.Some? && l.txn.value.target in l.txn.value.catalog && PendingWrite(l.txn.value).Some? ==>
          BaseFree(l.mem, PendingWrite(l.txn.value).value))
  }

  /** A reload may not give the active profile the cache path of another confirmed profile. */
  ghost predicate HandsOverNothing(sys: Sys, e: Event) {
    e.Begin? && e.reload && sys.live.Some? && e.target in e.newCatalog && e.newCatalog[e.target].Remote? ==>
      forall p | p != e.target :: !OwnsBase(sys.live.value.mem, p, e.newCatalog[e.target].cacheFile)
  }

  lemma BeginFindsBaseFree(sys: Sys, l: Live, e: Event)
    requires LiveInv(l) && BasesFree(l) && e.Begin? && CanBegin(sys, l, e)
    requires sys.live == Some(l) && HandsOverNothing(sys, e)
    ensures BasesFree(Begun(sys, l, e))
  {
    if !e.reload && e.newCatalog[e.target].Remote? {
      forall p | p != e.target ensures !OwnsBase(l.mem, p, e.newCatalog[e.target].cacheFile) {
        assert AgreesOn(l.mem, l.catalog, p) && BasesApart(l.catalog, p, e.target);
      }
    }
  }

  lemma PhasesKeepBasesFree(l: Live, phase: Phase)
    requires HasTxn(l) && BasesFree(l)
    ensures BasesFree(InPhase(l, phase)) && BasesFree(WithoutTxn(l))
  {}

  lemma OtherStepsKeepBasesFree(sys: Sys, e: Event)
    requires Enabled(sys, e) && sys.live.Some? && BasesFree(sys.live.value)
    requires e.SaveState? || e.TakeGate? || e.GiveUp? || e.StartCommit? || e.CancelCommit? || e.CommitWrite?
    ensures BasesFree(Stepped(sys, e))
  {}

  lemma StepKeepsBasesFree(sys: Sys, e: Event)
    requires Steps(sys, e) && HandsOverNothing(sys, e)
    requires LiveInv(sys.live.value) && BasesFree(sys.live.value)
    ensures BasesFree(Stepped(sys, e))
  {
    var l := sys.live.value;
    if e.Begin? {
      BeginFindsBaseFree(sys, l, e);
    } else if e.RecordProbe? || e.OnDemandStep? || e.Rewrite? {
      SameSlotsKeepBasesFree(l, Stepped(sys, e).mem);
    } else if e.PersistNext? {
      PhasesKeepBasesFree(l, if e.persisted then PersistedPhase(l, e.planned, e.now) else l.txn.value.phase);
    } else if !e.Publish? {
      OtherStepsKeepBasesFree(sys, e);
    }
  }

  lemma SameSlotsKeepBasesFree(l: Live, mem: St)
    requires BasesFree(l) && mem.slots == l.mem.slots && mem.identities == l.mem.identities
    ensures BasesFree(l.(mem := mem))
  {
    forall w: CacheWrite | BaseFree(l.mem, w) ensures BaseFree(mem, w) {
      forall p | p != w.target ensures !OwnsBase(mem, p, w.key.base) { assert !OwnsBase(l.mem, p, w.key.base); }
    }
  }

  /** The event replaces a cache slot. */
  predicate Replaces(sys: Sys, e: Event) {
    e.CommitWrite? && sys.live.Some? && RunningWrite(sys.live.value).Some? && !e.outcome.Untouched?
  }

  /** Whenever a cache slot is replaced, the state file is in step and no other profile has its
      confirmed cache at that path. What happens between replacements does not matter. */
  ghost predicate Careful(sys: Sys, es: seq<Event>, inStep: bool)
    requires Runs(sys, es)
    decreases |es|
  {
    es == [] ||
    ((Replaces(sys, es[0]) ==> inStep && BaseFree(sys.live.value.mem, RunningWrite(sys.live.value).value)) &&
     Careful(Do(sys, es[0]), es[1..], StillInStep(sys, es[0], inStep)))
  }

  lemma {:induction false} CarefulRunsAreSafe(sys: Sys, es: seq<Event>, inStep: bool)
    requires Inv(sys) && (inStep ==> InStep(sys))
    requires Runs(sys, es) && Careful(sys, es, inStep)
    ensures SafeRun(sys, es)
    decreases |es|
  {
    if es != [] {
      if Replaces(sys, es[0]) { InStepWriteIsSafe(DiskState(sys).value, sys.live.value); }
      StepKeepsInv(sys, es[0]);
      var inStep' := StillInStep(sys, es[0], inStep);
      if inStep' { StepStaysInStep(sys, es[0], inStep); }
      CarefulRunsAreSafe(Do(sys, es[0]), es[1..], inStep');
    }
  }

  /** A restart after a careful run that finds a slot serves the published manifest. */
  lemma CarefulRestart(sys: Sys, es: seq<Event>, e: Event)
    requires Init(sys) && Runs(sys, es) && Careful(sys, es, true)
    requires IsStartup(Final(sys, es), e)
    ensures ServesPublished(Final(sys, es), e)
  {
    CarefulRunsAreSafe(sys, es, true);
    RestartServesPublishedGeneration(sys, es, e);
  }

  ghost predicate NeverHandsOver(sys: Sys, es: seq<Event>)
    requires Runs(sys, es)
    decreases |es|
  {
    es == [] || (HandsOverNothing(sys, es[0]) && NeverHandsOver(Do(sys, es[0]), es[1..]))
  }

  /** The second half of the condition can be checked when a transaction begins: only a reload
      can aim at another profile's confirmed cache, by giving its path to the active profile. */
  lemma {:induction false} OnlyReloadsHandOver(sys: Sys, es: seq<Event>)
    requires Inv(sys) && (sys.live.Some? ==> BasesFree(sys.live.value))
    requires Runs(sys, es) && NeverHandsOver(sys, es)
    ensures Final(sys, es).live.Some? ==> BasesFree(Final(sys, es).live.value)
    decreases |es|
  {
    if es != [] {
      StepKeepsInv(sys, es[0]);
      if !es[0].Start? && !es[0].Crash? { StepKeepsBasesFree(sys, es[0]); }
      OnlyReloadsHandOver(Do(sys, es[0]), es[1..]);
    }
  }
}
