/** What a restart resumes, and what no run forgets. A startup comes up on the profile that the
    newest save selected; once a transaction has saved its state, a crash at any moment after that
    is as good as its publication; and while the daemon is up, a profile keeps its statistics as
    long as its configured source stays the same. */
module Resumption {
  import opened Base
  import opened ProfileState
  import opened StateLaws
  import opened Publication
  import opened Preservation
  import opened Daemon
  import opened Provenance
  import opened CrashConsistency
  import opened CarefulRuns
  import opened Evidence

  // ---------------------------------------------------------------------------------
  // The selection.

  /** The profile that the state file selects after an event: a save of the transaction selects its
      target, any other save the active profile. */
  ghost function Selects(sys: Sys, e: Event, selected: Option<Name>): Option<Name>
    requires Enabled(sys, e)
  {
    if e.PersistNext? && e.persisted then Some(sys.live.value.txn.value.target)
    else if e.SaveState? && e.saved then Some(sys.live.value.active)
    else selected
  }

  ghost function Selected(sys: Sys, es: seq<Event>, selected: Option<Name>): Option<Name>
    requires Runs(sys, es)
    decreases |es|
  {
    if es == [] then selected else Selected(Do(sys, es[0]), es[1..], Selects(sys, es[0], selected))
  }

  lemma SaveSelects(sys: Sys, e: Event)
    requires Inv(sys) && Enabled(sys, e)
    ensures DiskState(Do(sys, e)).Some?
    ensures DiskState(Do(sys, e)).value.active == Selects(sys, e, DiskState(sys).value.active)
  {
    if e.PersistNext? && e.persisted {
      PersistedDisk(sys, e);
      NextOfCommitted(sys.live.value, sys.live.value.txn.value, e.planned, e.now);
    } else if e.SaveState? && e.saved {
      CleanSavesAndLoads(sys.live.value.mem);
    }
  }

  lemma {:induction false} FileSelects(sys: Sys, es: seq<Event>)
    requires Inv(sys) && Runs(sys, es)
    ensures DiskState(Final(sys, es)).Some?
    ensures DiskState(Final(sys, es)).value.active == Selected(sys, es, DiskState(sys).value.active)
    decreases |es|
  {
    if es != [] {
      SaveSelects(sys, es[0]);
      StepKeepsInv(sys, es[0]);
      FileSelects(Do(sys, es[0]), es[1..]);
    }
  }

  /** After any run, with crashes, failures and cancellations anywhere, a startup resumes the
      profile that the newest save selected, if it is still configured, and else the default. */
  lemma RestartResumes(sys: Sys, es: seq<Event>, e: Event)
    requires Init(sys) && Runs(sys, es) && e.Start? && Enabled(Final(sys, es), e)
    ensures var l, selected := Do(Final(sys, es), e).live.value, Selected(sys, es, None);
      && DiskState(Final(sys, es)).Some? && DiskState(Final(sys, es)).value.active == selected
      && l.active == (if selected.Some? && selected.value in e.catalog then selected.value else e.default)
      && l.mem.active == Some(l.active) && l.catalog == e.catalog
  {
    RunsKeepInv(sys, es);
    FileSelects(sys, es);
    var disk := DiskState(Final(sys, es)).value;
    BootResumes(disk, e.catalog, e.default);
    BootedProfile(disk, e.catalog, e.default);
  }

  // ---------------------------------------------------------------------------------
  // A saved transaction survives.

  predicate SavesNothing(es: seq<Event>) {
    forall i | 0 <= i < |es| :: !(es[i].SaveState? && es[i].saved) && !(es[i].PersistNext? && es[i].persisted)
  }

  lemma {:induction false} FileStays(sys: Sys, es: seq<Event>)
    requires Runs(sys, es) && SavesNothing(es)
    ensures Final(sys, es).disk == sys.disk && Final(sys, es).diskGens == sys.diskGens && Final(sys, es).bareFiles == sys.bareFiles
    decreases |es|
  {
    if es != [] {
      assert forall i | 0 <= i < |es[1..]| :: es[1..][i] == es[i + 1];
      FileStays(Do(sys, es[0]), es[1..]);
    }
  }

  /** The state file selects the transaction's target under its source, and confirms its manifest if
      that was freshly fetched into a slot. */
  ghost predicate IsSavedBy(s: Sys, t: Txn) {
    && DiskState(s).Some?
    && var disk := DiskState(s).value;
       && disk.active == Some(t.target) && t.target in t.catalog
       && Lookup(disk.identities, t.target) == Some(t.catalog[t.target]) && t.target !in disk.pending
       && (t.prepared.Fresh? && t.catalog[t.target].Remote? ==> t.target in disk.slots && Lookup(s.diskGens, t.target) == Some(t.prepared.manifest))
       && t.prepared.manifest.nodes != []
  }

  /** What a transaction's save puts into the state file. */
  lemma SavedTransaction(sys: Sys, e: Event)
    requires Inv(sys) && e.PersistNext? && e.persisted && Enabled(sys, e)
    ensures IsSavedBy(Do(sys, e), sys.live.value.txn.value)
  {
    var l := sys.live.value;
    PersistedDisk(sys, e);
    NextIsSavedState(l, e.planned, e.now);
  }

  lemma NextIsSavedState(l: Live, planned: map<Name, Plan>, now: int)
    requires LiveInv(l) && CanPersist(l)
    ensures var t, next := l.txn.value, Next(l, l.txn.value, planned, now);
      && next.active == Some(t.target) && Lookup(next.identities, t.target) == Some(t.catalog[t.target]) && t.target !in next.pending
      && (t.prepared.Fresh? && t.catalog[t.target].Remote? ==> t.target in next.slots && t.phase.slot.Some?)
      && t.prepared.manifest.nodes != []
  {
    var t, next := l.txn.value, Next(l, l.txn.value, planned, now);
    NextOfCommitted(l, t, planned, now);
    assert AgreesOn(next, t.catalog, t.target) && OwnEvidence(next, t.target);
  }

  /** A startup that still configures the transaction's target under its source. */
  ghost predicate StartsAgain(t: Txn, start: Event) {
    && start.Start? && start.default in start.catalog && BasesDistinct(start.catalog)
    && Lookup(start.catalog, t.target) == Lookup(t.catalog, t.target)
  }

  /** Whatever follows, safe and without another save, once the daemon is down a startup can only
      come up on the target; and if the manifest was freshly fetched into a slot, it does come up,
      and with that very manifest. */
  ghost predicate ComesBack(saved: Sys, t: Txn, after: seq<Event>, start: Event) {
    Runs(saved, after) && SafeRun(saved, after) && SavesNothing(after) && Final(saved, after).live.None? && StartsAgain(t, start) ==>
      && (Enabled(Final(saved, after), start) ==> Do(Final(saved, after), start).live.value.active == t.target)
      && (t.target in t.catalog && t.prepared.Fresh? && t.catalog[t.target].Remote? ==>
            Enabled(Final(saved, after), start) && Do(Final(saved, after), start).live.value.pool == t.prepared.manifest)
  }

  /** Once a transaction has saved its state, a crash at any later moment changes nothing, before or
      after the publication: the daemon comes back on the target. */
  lemma SavedSwitchSurvives(sys: Sys, es: seq<Event>, save: Event)
    requires Init(sys) && Runs(sys, es) && SafeRun(sys, es)
    requires save.PersistNext? && save.persisted && Enabled(Final(sys, es), save)
    ensures Final(sys, es).live.value.txn.value.target in Final(sys, es).live.value.txn.value.catalog
    ensures forall after, start :: ComesBack(Do(Final(sys, es), save), Final(sys, es).live.value.txn.value, after, start)
  {
    SafeFromTheStart(sys, es);
    SavedKeepsFiles(Final(sys, es), save);
    var saved, t := Do(Final(sys, es), save), Final(sys, es).live.value.txn.value;
    forall after, start ensures ComesBack(saved, t, after, start) { QuietThenStart(saved, t, after, start); }
  }

  lemma SafeFromTheStart(sys: Sys, es: seq<Event>)
    requires Init(sys) && Runs(sys, es) && SafeRun(sys, es)
    ensures Inv(Final(sys, es)) && FilesInv(Final(sys, es))
  {
    SafeRunsKeepFiles(sys, es);
  }

  lemma SavedKeepsFiles(sys: Sys, save: Event)
    requires Inv(sys) && FilesInv(sys) && save.PersistNext? && Enabled(sys, save)
    ensures Inv(Do(sys, save)) && FilesInv(Do(sys, save)) && (save.persisted ==> IsSavedBy(Do(sys, save), sys.live.value.txn.value))
  {
    if save.persisted { SavedTransaction(sys, save); }
    StepKeepsInv(sys, save);
    StepKeepsFiles(sys, save);
  }

  lemma QuietThenStart(saved: Sys, t: Txn, after: seq<Event>, start: Event)
    requires Inv(saved) && FilesInv(saved) && IsSavedBy(saved, t)
    ensures ComesBack(saved, t, after, start)
  {
    if Runs(saved, after) && SafeRun(saved, after) && SavesNothing(after) && Final(saved, after).live.None? && StartsAgain(t, start) {
      StartedAgain(saved, t, after, start);
    }
  }

  lemma StartedAgain(saved: Sys, t: Txn, after: seq<Event>, start: Event)
    requires Inv(saved) && FilesInv(saved) && IsSavedBy(saved, t)
    requires Runs(saved, after) && SafeRun(saved, after) && SavesNothing(after) && Final(saved, after).live.None? && StartsAgain(t, start)
    ensures Enabled(Final(saved, after), start) ==> Do(Final(saved, after), start).live.value.active == t.target
    ensures t.prepared.Fresh? && t.catalog[t.target].Remote? ==>
      Enabled(Final(saved, after), start) && Do(Final(saved, after), start).live.value.pool == t.prepared.manifest
  {
    FileStays(saved, after);
    SafeRunsKeepFiles(saved, after);
    SavedFileResumes(Final(saved, after), t, start);
  }

  lemma SavedFileResumes(s: Sys, t: Txn, start: Event)
    requires Inv(s) && FilesInv(s) && IsSavedBy(s, t) && s.live.None? && StartsAgain(t, start)
    ensures Enabled(s, start) ==> Do(s, start).live.value.active == t.target
    ensures t.prepared.Fresh? && t.catalog[t.target].Remote? ==>
      Enabled(s, start) && Do(s, start).live.value.pool == t.prepared.manifest
  {
    ServedGeneration(s, start);
  }

  // ---------------------------------------------------------------------------------
  // Statistics are kept.

  /** Every measurement is still there. */
  predicate Includes(less: map<Name, Mark>, more: map<Name, Mark>) {
    forall n | n in less :: n in more && less[n] <= more[n]
  }

  ghost predicate StatsGrow(s: St, s': St, p: Name) {
    NodesFor(s, p).Some? ==> NodesFor(s', p).Some? && Includes(NodesFor(s, p).value, NodesFor(s', p).value)
  }

  /** The profile is configured, and with the same source, before and after. */
  predicate SourceStays(l: Live, l': Live, p: Name) {
    p in l.catalog && p in l'.catalog && l'.catalog[p] == l.catalog[p]
  }

  lemma SwitchedStatsGrow(s: St, r: St, previous: Catalog, next: Catalog, target: Name, v: Option<Name>, slot: Option<string>, planned: map<Name, Plan>, p: Name)
    requires target in next && AfterSwitch(s, r, previous, next, target, v, slot, planned, Same)
    requires p in next && !IsChanged(s, previous, next, p)
    ensures StatsGrow(s, r, p)
  {
    if p != target { assert AfterReload(s, r, previous, next, v, p); }
  }

  lemma PortsMoveNoStats(s: St, planned: map<Name, Plan>, p: Name)
    ensures NodesFor(WithPorts(s, planned), p) == NodesFor(s, p)
  {}

  lemma StepKeepsStats(sys: Sys, e: Event, p: Name)
    requires Steps(sys, e) && LiveInv(sys.live.value)
    ensures SourceStays(sys.live.value, Stepped(sys, e), p) ==> StatsGrow(sys.live.value.mem, Stepped(sys, e).mem, p)
  {
    var l := sys.live.value;
    if e.Publish? && SourceStays(l, Stepped(sys, e), p) {
      assert AgreesOn(l.mem, l.catalog, p);
      PublishKeepsStats(l, l.txn.value, p);
    }
  }

  /** The persisted state is the transaction applied to memory, and keeps the profile's statistics. */
  lemma PublishKeepsStats(l: Live, t: Txn, p: Name)
    requires WellFormed(l.mem) && t.phase.Persisted? && t.target in t.catalog && IsNextOf(l, t)
    requires AgreesOn(l.mem, l.catalog, p) && p in l.catalog && p in t.catalog && t.catalog[p] == l.catalog[p]
    ensures StatsGrow(l.mem, WithPorts(t.phase.next, t.phase.planned), p)
  {
    var v := if t.prepared.Fresh? then Some(t.target) else None;
    SwitchKeeps(l.mem, l.catalog, t.catalog, t.target, t.prepared.Fresh?, t.phase.slot, t.phase.planned, Same, t.phase.next.updatedUnix);
    SwitchedStatsGrow(l.mem, t.phase.next, l.catalog, t.catalog, t.target, v, t.phase.slot, t.phase.planned, p);
    PortsMoveNoStats(t.phase.next, t.phase.planned, p);
  }

  /** At every step of the run the profile stays configured with the same source. */
  ghost predicate SourceStaysOver(sys: Sys, es: seq<Event>, p: Name)
    requires Runs(sys, es) && sys.live.Some? && StaysUp(es)
    decreases |es|
  {
    es == [] ||
    (IsUp(es[0]) && SourceStays(sys.live.value, Stepped(sys, es[0]), p) &&
     StaysUp(es[1..]) && SourceStaysOver(Do(sys, es[0]), es[1..], p))
  }

  /** While the daemon is up, through switches, refreshes, reloads, failures and cancellations, no
      measurement of a profile is lost as long as its configured source stays the same. */
  lemma {:induction false} NothingIsForgotten(sys: Sys, es: seq<Event>, p: Name)
    requires Inv(sys) && sys.live.Some? && Runs(sys, es) && StaysUp(es)
    ensures Final(sys, es).live.Some?
    ensures SourceStaysOver(sys, es, p) ==> StatsGrow(sys.live.value.mem, Final(sys, es).live.value.mem, p)
    decreases |es|
  {
    if es != [] {
      StepKeepsInv(sys, es[0]);
      StepKeepsStats(sys, es[0], p);
      assert IsUp(es[0]) && forall i | 0 <= i < |es[1..]| :: es[1..][i] == es[i + 1];
      NothingIsForgotten(Do(sys, es[0]), es[1..], p);
    }
  }

  /** And a restart finds what was saved: the statistics and slots of every configured profile whose
      recorded source is still the configured one are those of the state file. */
  lemma RestartKeepsEvidence(sys: Sys, es: seq<Event>, e: Event, p: Name)
    requires Init(sys) && Runs(sys, es) && e.Start? && Enabled(Final(sys, es), e)
    ensures DiskState(Final(sys, es)).Some?
    ensures var disk, mem := DiskState(Final(sys, es)).value, Do(Final(sys, es), e).live.value.mem;
      && mem.verdicts == disk.verdicts && mem.classes == disk.classes
      && (p in e.catalog && !IsStale(disk, p, e.catalog[p]) ==>
            && Lookup(mem.slots, p) == Lookup(disk.slots, p)
            && KnownNodes(mem, p) == KnownNodes(disk, p))
      && (p in e.catalog && IsStale(disk, p, e.catalog[p]) ==> p !in mem.slots && KnownNodes(mem, p) == map[])
  {
    RunsKeepInv(sys, es);
    BootKeeps(DiskState(Final(sys, es)).value, e.catalog, e.default, p);
  }

  lemma BootKeeps(disk: St, cat: Catalog, default: Name, p: Name)
    requires Clean(disk) && BasesDistinct(cat)
    ensures var mem := BootState(disk, cat, default);
      && mem.verdicts == disk.verdicts && mem.classes == disk.classes
      && (p in cat && !IsStale(disk, p, cat[p]) ==> Lookup(mem.slots, p) == Lookup(disk.slots, p) && KnownNodes(mem, p) == KnownNodes(disk, p))
      && (p in cat && IsStale(disk, p, cat[p]) ==> p !in mem.slots && KnownNodes(mem, p) == map[])
  {
    var r := Reconciled(disk, cat);
    StartupKeeps(disk, cat);
    ReconciledIsClean(disk, cat);
    ActivationMovesOnlyTarget(r, BootActive(r, cat, default), p);
    assert AfterStartup(disk, r, cat, p);
  }
}
