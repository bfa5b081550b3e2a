/** Three runs from the first start in which a confirmed slot is overwritten: one with a state
    file left behind by a startup, one with a state file set back by a late save, and one in
    which another profile's confirmed cache lies at the path. */
module CrashWitnesses {
  import opened Base
  import opened ProfileState
  import opened StateLaws
  import opened Publication
  import opened Daemon
  import opened Provenance
  import opened CrashConsistency

  /** What a witness uses: two profiles, two cache paths, two URL files, a node, and the batch
      its transactions stage. */
  datatype World = World(
    p: Name, q: Name, x: string, y: string, u1: string, u2: string, node: Name, batch: map<Name, Plan>)

  predicate Apart(w: World) {
    w.p != w.q && w.x != w.y && w.u1 != w.u2
  }

  function FileA(w: World): SlotFile { SlotFile(w.x, CACHE_SLOT_A) }
  function Source1(w: World): Source { Remote(w.u1, w.x) }
  function Source2(w: World): Source { Remote(w.u2, w.x) }
  function Files(): Source { Local([]) }
  function Body(w: World, origin: Source, serial: nat): Manifest { Manifest(origin, serial, [w.node]) }

  /** Profile `p` is remote and `q` local; then `p` gets another URL; then the cache path of `p`
      goes to `q`. */
  function Original(w: World): Catalog { map[w.p := Source1(w), w.q := Files()] }
  function Changed1(w: World): Catalog { map[w.p := Source2(w), w.q := Files()] }
  function HandedOver(w: World): Catalog { map[w.p := Remote(w.u1, w.y), w.q := Source2(w)] }

  lemma CatalogsDistinct(w: World)
    requires Apart(w)
    ensures BasesDistinct(Original(w)) && BasesDistinct(Changed1(w)) && BasesDistinct(HandedOver(w))
  {
    forall p, q ensures BasesApart(Original(w), p, q) {}
    forall p, q ensures BasesApart(Changed1(w), p, q) {}
    forall p, q ensures BasesApart(HandedOver(w), p, q) {}
  }

  /** Nothing on disk yet. */
  function Blank(): Sys {
    Sys(None, map[], map[], map[], None)
  }

  // ---------------------------------------------------------------------------------
  // Runs, piece by piece.

  lemma RunOne(sys: Sys, e: Event, es: seq<Event>)
    requires Enabled(sys, e) && Runs(Do(sys, e), es)
    ensures Runs(sys, [e] + es) && Final(sys, [e] + es) == Final(Do(sys, e), es)
  {
    assert ([e] + es)[1..] == es;
  }

  lemma FirstOfBoth(es: seq<Event>, fs: seq<Event>)
    requires es != []
    ensures es + fs == [es[0]] + (es[1..] + fs)
  {}

  lemma {:induction false} RunBoth(sys: Sys, es: seq<Event>, fs: seq<Event>)
    requires Runs(sys, es) && Runs(Final(sys, es), fs)
    ensures Runs(sys, es + fs) && Final(sys, es + fs) == Final(Final(sys, es), fs)
    decreases |es|
  {
    if es == [] {
      assert es + fs == fs;
    } else {
      var next := Do(sys, es[0]);
      RunBoth(next, es[1..], fs);
      FirstOfBoth(es, fs);
      RunOne(sys, es[0], es[1..] + fs);
    }
  }

  lemma RunSingle(sys: Sys, e: Event)
    requires Enabled(sys, e)
    ensures Runs(sys, [e]) && Final(sys, [e]) == Do(sys, e)
  {
    RunOne(sys, e, []);
    assert [e] + [] == [e];
  }

  lemma RunTwo(sys: Sys, e: Event, e': Event)
    requires Enabled(sys, e) && Enabled(Do(sys, e), e')
    ensures Runs(sys, [e] + [e']) && Final(sys, [e] + [e']) == Do(Do(sys, e), e')
  {
    RunSingle(Do(sys, e), e');
    RunOne(sys, e, [e']);
  }

  predicate Idle(l: Live) {
    l.txn.None? && l.orphan.None?
  }

  predicate CommitPossible(l: Live, target: Name, cat: Catalog, reload: bool, body: Manifest) {
    && Idle(l) && target in cat
    && (if reload then target == l.active else cat == l.catalog)
    && body.origin == cat[target] && body.nodes != []
  }

  /** A transaction with a newly fetched body, up to the end of its cache commit. */
  function Commit(target: Name, cat: Catalog, reload: bool, body: Manifest): seq<Event> {
    ([Begin(target, cat, reload, Fetched(body))] + [TakeGate]) + ([StartCommit] + [CommitWrite(Replaced)])
  }

  function SlotFor(l: Live, target: Name, cat: Catalog): Option<string>
    requires target in cat
  {
    if cat[target].Remote? then Some(NextSlot(Lookup(l.mem.slots, target))) else None
  }

  function InTxn(l: Live, target: Name, cat: Catalog, reload: bool, body: Manifest, phase: Phase): Live {
    l.(txn := Some(Txn(target, cat, reload, Lookup(l.mem.slots, target), Fresh(body), phase)))
  }

  /** It leaves its body in the slot that memory does not reference. */
  function FilesWith(files: map<SlotFile, Manifest>, l: Live, target: Name, cat: Catalog, body: Manifest): map<SlotFile, Manifest>
    requires target in cat
  {
    if cat[target].Remote? then files[SlotFile(cat[target].cacheFile, NextSlot(Lookup(l.mem.slots, target))) := body] else files
  }

  function AtCommit(sys: Sys, l: Live, target: Name, cat: Catalog, reload: bool, body: Manifest): Sys
    requires target in cat
  {
    sys.(slotFiles := FilesWith(sys.slotFiles, l, target, cat, body),
         live := Some(InTxn(l, target, cat, reload, body, Committed(SlotFor(l, target, cat)))))
  }

  lemma BeginAndGate(sys: Sys, l: Live, target: Name, cat: Catalog, reload: bool, body: Manifest)
    requires sys.live == Some(l) && CommitPossible(l, target, cat, reload, body) && BasesDistinct(cat)
    ensures var es := [Begin(target, cat, reload, Fetched(body))] + [TakeGate];
      Runs(sys, es) && Final(sys, es) == sys.(live := Some(InTxn(l, target, cat, reload, body, Gated)))
  {
    var begin := Begin(target, cat, reload, Fetched(body));
    assert Do(sys, begin) == sys.(live := Some(InTxn(l, target, cat, reload, body, Preparing)));
    RunTwo(sys, begin, TakeGate);
  }

  lemma WorkerWrites(sys: Sys, l: Live, target: Name, cat: Catalog, reload: bool, body: Manifest)
    requires CommitPossible(l, target, cat, reload, body)
    ensures var gated := sys.(live := Some(InTxn(l, target, cat, reload, body, Gated)));
      && Runs(gated, [StartCommit] + [CommitWrite(Replaced)])
      && Final(gated, [StartCommit] + [CommitWrite(Replaced)]) == AtCommit(sys, l, target, cat, reload, body)
  {
    var gated := sys.(live := Some(InTxn(l, target, cat, reload, body, Gated)));
    assert Do(gated, StartCommit) == sys.(live := Some(InTxn(l, target, cat, reload, body, Committing)));
    RunTwo(gated, StartCommit, CommitWrite(Replaced));
  }

  /** A fetched transaction can always be carried to the end of its commit. */
  lemma CommitRuns(sys: Sys, l: Live, target: Name, cat: Catalog, reload: bool, body: Manifest)
    requires sys.live == Some(l) && CommitPossible(l, target, cat, reload, body) && BasesDistinct(cat)
    ensures Runs(sys, Commit(target, cat, reload, body))
    ensures Final(sys, Commit(target, cat, reload, body)) == AtCommit(sys, l, target, cat, reload, body)
  {
    BeginAndGate(sys, l, target, cat, reload, body);
    WorkerWrites(sys, l, target, cat, reload, body);
    RunBoth(sys, [Begin(target, cat, reload, Fetched(body))] + [TakeGate], [StartCommit] + [CommitWrite(Replaced)]);
  }

  /** One more event after the commit, a crash or a failing exit. */
  lemma CommitThen(sys: Sys, l: Live, target: Name, cat: Catalog, reload: bool, body: Manifest, e: Event)
    requires sys.live == Some(l) && CommitPossible(l, target, cat, reload, body) && BasesDistinct(cat)
    requires e == Crash || e == GiveUp
    ensures Runs(sys, Commit(target, cat, reload, body) + [e])
    ensures Final(sys, Commit(target, cat, reload, body) + [e])
         == AtCommit(sys, l, target, cat, reload, body).(live := if e == Crash then None else Some(l))
  {
    CommitRuns(sys, l, target, cat, reload, body);
    RunSingle(AtCommit(sys, l, target, cat, reload, body), e);
    RunBoth(sys, Commit(target, cat, reload, body), [e]);
  }

  // ---------------------------------------------------------------------------------
  // Switches under one configuration.

  /** Every configured profile is trusted, and these slots are confirmed. */
  predicate Confirms(s: St, cat: Catalog, slots: map<Name, string>, active: Name) {
    s.identities == cat && s.pending == map[] && s.slots == slots && s.active == Some(active)
  }

  ghost predicate Settled(sys: Sys, cat: Catalog, slots: map<Name, string>, active: Name) {
    && Inv(sys) && sys.live.Some? && Idle(sys.live.value) && BasesDistinct(cat)
    && sys.live.value.catalog == cat && sys.live.value.active == active
    && Confirms(sys.live.value.mem, cat, slots, active) && sys.live.value.gens.Keys == slots.Keys
  }

  /** The state file confirms the same, with the manifests recorded in memory. */
  predicate OnDisk(sys: Sys, cat: Catalog, slots: map<Name, string>, active: Name) {
    DiskState(sys).Some? && Confirms(DiskState(sys).value, cat, slots, active)
  }

  lemma NothingToReconcile(s: St, cat: Catalog, slots: map<Name, string>, active: Name, target: Name)
    requires Clean(s) && Confirms(s, cat, slots, active) && target in cat
    ensures var r := CatalogApplied(s, cat, cat, Some(target)); r.slots == slots && r.identities == cat && r.pending == map[]
  {
    forall p | p in s.slots ensures p in cat { assert OwnEvidence(s, p); }
    assert Changed(s, cat, cat) == {};
    var r := Removed(s, Known(s) - cat.Keys);
    assert r.slots == s.slots && r.identities == cat && r.pending == map[];
    NothingInvalidated(r, cat);
    assert Bound(cat, VouchedNames(Some(target)) * cat.Keys, cat) == cat;
  }

  lemma NextConfirms(s: St, cat: Catalog, slots: map<Name, string>, active: Name, target: Name, slot: Option<string>, planned: map<Name, Plan>, now: int)
    requires Clean(s) && Covers(s, cat) && BasesDistinct(cat) && Confirms(s, cat, slots, active) && target in cat
    ensures var next := NextState(s, cat, cat, target, true, slot, planned, Same, now);
      Confirms(next, cat, if slot.Some? then slots[target := slot.value] else slots, target)
  {
    NothingToReconcile(s, cat, slots, active, target);
    CatalogIsClean(s, cat, cat, Some(target));
    ActivatedIsClean(CatalogApplied(s, cat, cat, Some(target)), target);
  }

  function SwitchOver(w: World, target: Name, cat: Catalog, body: Manifest): seq<Event> {
    Commit(target, cat, false, body) + ([PersistNext(true, w.batch, 1)] + [Publish])
  }

  /** The state saved at the end of the commit. */
  function ToSave(w: World, sys: Sys, target: Name, cat: Catalog, body: Manifest): St
    requires sys.live.Some? && target in cat
  {
    var l := InTxn(sys.live.value, target, cat, false, body, Committed(SlotFor(sys.live.value, target, cat)));
    Next(l, l.txn.value, w.batch, 1)
  }

  function SlotsWith(l: Live, target: Name, cat: Catalog): map<Name, string>
    requires target in cat
  {
    if cat[target].Remote? then l.mem.slots[target := NextSlot(Lookup(l.mem.slots, target))] else l.mem.slots
  }

  function GensWith(l: Live, target: Name, cat: Catalog, body: Manifest): map<Name, Manifest>
    requires target in cat
  {
    if cat[target].Remote? then l.gens[target := body] else l.gens
  }

  lemma GensOfSave(l: Live, t: Txn, next: St, cat: Catalog)
    requires t.target in cat && t.phase == Committed(SlotFor(l, t.target, cat)) && t.prepared.Fresh?
    requires l.gens.Keys == l.mem.slots.Keys && next.slots == SlotsWith(l, t.target, cat)
    ensures NextGens(l, t, next) == GensWith(l, t.target, cat, t.prepared.manifest)
  {}

  lemma SaveIsPossible(w: World, sys: Sys, target: Name, cat: Catalog, slots: map<Name, string>, active: Name, body: Manifest)
    requires Settled(sys, cat, slots, active) && CommitPossible(sys.live.value, target, cat, false, body)
    ensures var c := AtCommit(sys, sys.live.value, target, cat, false, body);
      var next := ToSave(w, sys, target, cat, body);
      && Inv(c) && CanPersist(c.live.value)
      && Clean(next) && Confirms(next, cat, SlotsWith(sys.live.value, target, cat), target)
  {
    var l := sys.live.value;
    CommitRuns(sys, l, target, cat, false, body);
    RunsKeepInv(sys, Commit(target, cat, false, body));
    var c := AtCommit(sys, l, target, cat, false, body);
    NextOfCommitted(c.live.value, c.live.value.txn.value, w.batch, 1);
    CleanSavesAndLoads(ToSave(w, sys, target, cat, body));
    NextConfirms(l.mem, cat, slots, active, target, SlotFor(l, target, cat), w.batch, 1);
  }

  /** What a whole switch leaves: the target active, its new slot confirmed in memory and on
      disk, its body in the slot file. */
  lemma SwitchRuns(w: World, sys: Sys, target: Name, cat: Catalog, slots: map<Name, string>, active: Name, body: Manifest)
    requires Settled(sys, cat, slots, active) && CommitPossible(sys.live.value, target, cat, false, body)
    ensures Runs(sys, SwitchOver(w, target, cat, body))
    ensures var f := Final(sys, SwitchOver(w, target, cat, body));
      var slots' := SlotsWith(sys.live.value, target, cat);
      && Settled(f, cat, slots', target) && OnDisk(f, cat, slots', target)
      && f.slotFiles == FilesWith(sys.slotFiles, sys.live.value, target, cat, body)
      && f.diskGens == f.live.value.gens == GensWith(sys.live.value, target, cat, body)
  {
    var l := sys.live.value;
    SaveIsPossible(w, sys, target, cat, slots, active, body);
    CommitRuns(sys, l, target, cat, false, body);
    EndRuns(w, sys, target, cat, slots, active, body);
    RunBoth(sys, Commit(target, cat, false, body), [PersistNext(true, w.batch, 1)] + [Publish]);
  }

  /** After the save of `next`, before the publication. */
  function Saved(w: World, sys: Sys, target: Name, cat: Catalog, body: Manifest, next: St): Sys
    requires sys.live.Some? && target in cat && Save(next).Ok?
  {
    var l, gens := sys.live.value, GensWith(sys.live.value, target, cat, body);
    Sys(Some(Save(next).value), gens, FilesWith(sys.slotFiles, l, target, cat, body), sys.bareFiles,
        Some(InTxn(l, target, cat, false, body, Persisted(SlotFor(l, target, cat), next, gens, w.batch))))
  }

  lemma SaveRuns(w: World, sys: Sys, target: Name, cat: Catalog, slots: map<Name, string>, active: Name, body: Manifest)
    requires Settled(sys, cat, slots, active) && CommitPossible(sys.live.value, target, cat, false, body)
    ensures var c, save := AtCommit(sys, sys.live.value, target, cat, false, body), PersistNext(true, w.batch, 1);
      && Inv(c) && Enabled(c, save) && Save(ToSave(w, sys, target, cat, body)).Ok?
      && Do(c, save) == Saved(w, sys, target, cat, body, ToSave(w, sys, target, cat, body)) && Inv(Do(c, save))
  {
    var c, save := AtCommit(sys, sys.live.value, target, cat, false, body), PersistNext(true, w.batch, 1);
    SaveIsPossible(w, sys, target, cat, slots, active, body);
    GensOfSave(c.live.value, c.live.value.txn.value, ToSave(w, sys, target, cat, body), cat);
    StepKeepsInv(c, save);
  }

  /** A publication makes memory what the state file already is. */
  lemma PublicationSettles(saved: Sys, cat: Catalog, slots: map<Name, string>, target: Name)
    requires Inv(saved) && saved.live.Some? && saved.live.value.orphan.None? && CanPublish(saved.live.value) && BasesDistinct(cat)
    requires var t := saved.live.value.txn.value;
      && t.target == target && t.catalog == cat
      && Confirms(t.phase.next, cat, slots, target) && t.phase.nextGens.Keys == slots.Keys
    ensures Enabled(saved, Publish)
    ensures var f := Do(saved, Publish);
      && Settled(f, cat, slots, target)
      && f.disk == saved.disk && f.slotFiles == saved.slotFiles && f.diskGens == saved.diskGens
      && f.live.value.gens == saved.live.value.txn.value.phase.nextGens
  {
    StepKeepsInv(saved, Publish);
  }

  /** Everything is saved and only the publication is missing. */
  ghost predicate ReadyToPublish(saved: Sys, cat: Catalog, slots: map<Name, string>, target: Name, gens: map<Name, Manifest>) {
    && Inv(saved) && BasesDistinct(cat) && saved.live.Some? && saved.live.value.orphan.None? && CanPublish(saved.live.value)
    && (var t := saved.live.value.txn.value;
        && t.target == target && t.catalog == cat
        && Confirms(t.phase.next, cat, slots, target) && t.phase.nextGens == gens && gens.Keys == slots.Keys)
    && OnDisk(saved, cat, slots, target) && saved.diskGens == gens
  }

  lemma {:induction false} OneMore(c: Sys, es: seq<Event>, e: Event)
    requires Runs(c, es) && Enabled(Final(c, es), e)
    ensures Runs(c, es + [e]) && Final(c, es + [e]) == Do(Final(c, es), e)
  {
    RunSingle(Final(c, es), e);
    RunBoth(c, es, [e]);
  }

  lemma SavedIsReady(w: World, sys: Sys, target: Name, cat: Catalog, slots: map<Name, string>, active: Name, body: Manifest, next: St)
    requires Settled(sys, cat, slots, active) && CommitPossible(sys.live.value, target, cat, false, body)
    requires Save(next).Ok? && Clean(next) && Confirms(next, cat, SlotsWith(sys.live.value, target, cat), target)
    requires Inv(Saved(w, sys, target, cat, body, next))
    ensures ReadyToPublish(Saved(w, sys, target, cat, body, next), cat, SlotsWith(sys.live.value, target, cat), target, GensWith(sys.live.value, target, cat, body))
  {
    CleanSavesAndLoads(next);
    assert GensWith(sys.live.value, target, cat, body).Keys == SlotsWith(sys.live.value, target, cat).Keys;
  }

  lemma EndRuns(w: World, sys: Sys, target: Name, cat: Catalog, slots: map<Name, string>, active: Name, body: Manifest)
    requires Settled(sys, cat, slots, active) && CommitPossible(sys.live.value, target, cat, false, body)
    ensures var c, end := AtCommit(sys, sys.live.value, target, cat, false, body), [PersistNext(true, w.batch, 1)] + [Publish];
      var slots' := SlotsWith(sys.live.value, target, cat);
      && Runs(c, end)
      && Settled(Final(c, end), cat, slots', target) && OnDisk(Final(c, end), cat, slots', target)
      && Final(c, end).slotFiles == c.slotFiles
      && Final(c, end).diskGens == Final(c, end).live.value.gens == GensWith(sys.live.value, target, cat, body)
  {
    var l, next := sys.live.value, ToSave(w, sys, target, cat, body);
    SaveIsPossible(w, sys, target, cat, slots, active, body);
    SaveRuns(w, sys, target, cat, slots, active, body);
    SavedIsReady(w, sys, target, cat, slots, active, body, next);
    var c := AtCommit(sys, l, target, cat, false, body);
    RunSingle(c, PersistNext(true, w.batch, 1));
    PublicationSettles(Saved(w, sys, target, cat, body, next), cat, SlotsWith(l, target, cat), target);
    OneMore(c, [PersistNext(true, w.batch, 1)], Publish);
  }

  // ---------------------------------------------------------------------------------
  // The common beginning: first start with `q`, then a switch to `p`.

  function FirstStart(w: World): Event { Start(Original(w), w.q, [w.node]) }

  lemma FirstStartSettles(w: World)
    requires Apart(w)
    ensures Enabled(Blank(), FirstStart(w)) && Settled(Do(Blank(), FirstStart(w)), Original(w), map[], w.q)
    ensures Do(Blank(), FirstStart(w)).slotFiles == map[]
  {
    CatalogsDistinct(w);
    var s := DefaultState<Mark>();
    assert Known(s) == {} && Removed(s, {}) == s && Mismatched(s, Original(w)) == {};
    NothingInvalidated(s, Original(w));
    assert Original(w).Keys - s.pending.Keys == Original(w).Keys;
    assert Bound(s.identities, Original(w).Keys, Original(w)) == Original(w);
    RunsKeepInv(Blank(), []);
    StepKeepsInv(Blank(), FirstStart(w));
  }

  function ToP(w: World): seq<Event> {
    [FirstStart(w)] + SwitchOver(w, w.p, Original(w), Body(w, Source1(w), 1))
  }

  /** Slot A of `p` is confirmed everywhere and holds the first manifest. */
  ghost predicate ConfirmedA(w: World, sys: Sys, active: Name) {
    && Settled(sys, Original(w), map[w.p := CACHE_SLOT_A], active) && OnDisk(sys, Original(w), map[w.p := CACHE_SLOT_A], active)
    && sys.slotFiles == map[FileA(w) := Body(w, Source1(w), 1)]
    && sys.diskGens == sys.live.value.gens == map[w.p := Body(w, Source1(w), 1)]
  }

  lemma ReachP(w: World)
    requires Apart(w)
    ensures Runs(Blank(), ToP(w)) && ConfirmedA(w, Final(Blank(), ToP(w)), w.p)
  {
    FirstStartSettles(w);
    var sys, body := Do(Blank(), FirstStart(w)), Body(w, Source1(w), 1);
    SwitchRuns(w, sys, w.p, Original(w), map[], w.q, body);
    RunOne(Blank(), FirstStart(w), SwitchOver(w, w.p, Original(w), body));
  }

  function BackToQ(w: World): seq<Event> {
    ToP(w) + SwitchOver(w, w.q, Original(w), Body(w, Files(), 1))
  }

  lemma ReachQ(w: World)
    requires Apart(w)
    ensures Runs(Blank(), BackToQ(w)) && ConfirmedA(w, Final(Blank(), BackToQ(w)), w.q)
  {
    ReachP(w);
    var sys, body := Final(Blank(), ToP(w)), Body(w, Files(), 1);
    SwitchRuns(w, sys, w.q, Original(w), map[w.p := CACHE_SLOT_A], w.p, body);
    RunBoth(Blank(), ToP(w), SwitchOver(w, w.q, Original(w), body));
  }

  /** Overwriting slot A while the state file confirms it breaks the promise. */
  lemma OverwrittenIsWrong(w: World, sys: Sys, active: Name, body: Manifest)
    requires Apart(w) && OnDisk(sys, Original(w), map[w.p := CACHE_SLOT_A], active)
    requires sys.diskGens == map[w.p := Body(w, Source1(w), 1)] && body != Body(w, Source1(w), 1)
    requires FileA(w) in sys.slotFiles && sys.slotFiles[FileA(w)] == body
    ensures !FilesInv(sys)
  {
    var s := DiskState(sys).value;
    assert FileOf(s, w.p) == FileA(w);
    assert !SlotBacked(s, sys.diskGens, sys.slotFiles, w.p);
  }

  // ---------------------------------------------------------------------------------
  // One: a startup quarantines a changed source in memory only.

  function EditedStart(w: World): Event { Start(Changed1(w), w.q, [w.node]) }

  function Interrupted(w: World): seq<Event> {
    ([Crash] + [EditedStart(w)]) + (Commit(w.p, Changed1(w), false, Body(w, Source2(w), 2)) + [Crash])
  }

  lemma EditedBoot(w: World, disk: St)
    requires Apart(w) && Clean(disk) && Confirms(disk, Original(w), map[w.p := CACHE_SLOT_A], w.q)
    ensures var st := BootState(disk, Changed1(w), w.q);
      && BootActive(Reconciled(disk, Changed1(w)), Changed1(w), w.q) == w.q
      && w.p !in st.slots && w.q !in st.slots && SourceIsTrusted(st, w.q, Files())
  {
    CatalogsDistinct(w);
    assert w.p in Mismatched(disk, Changed1(w)) && w.q !in Mismatched(disk, Changed1(w));
    ReconciledIsClean(disk, Changed1(w));
    ActivatedIsClean(Reconciled(disk, Changed1(w)), w.q);
  }

  lemma EditedStartForgetsSlot(w: World, sys: Sys)
    requires Apart(w) && Inv(sys) && sys.live.None? && OnDisk(sys, Original(w), map[w.p := CACHE_SLOT_A], w.q)
    ensures Enabled(sys, EditedStart(w))
    ensures var l := Booted(sys, EditedStart(w));
      Idle(l) && l.catalog == Changed1(w) && w.p !in l.mem.slots
  {
    CatalogsDistinct(w);
    EditedBoot(w, DiskState(sys).value);
  }

  /** The daemon restarts with another URL for `p`, and a switch to `p` is interrupted after its
      cache commit: the state file still confirms slot A, which holds the other source's body. */
  lemma UnsavedReconciliationOverwritesConfirmedSlot(w: World)
    requires Apart(w)
    ensures var es := BackToQ(w) + Interrupted(w);
      && Init(Blank()) && Runs(Blank(), es) && !FilesInv(Final(Blank(), es))
      && Final(Blank(), es).live.None? && OnDisk(Final(Blank(), es), Original(w), map[w.p := CACHE_SLOT_A], w.q)
      && Final(Blank(), es).slotFiles == map[FileA(w) := Body(w, Source2(w), 2)]
  {
    ReachQ(w);
    var start := Final(Blank(), BackToQ(w));
    InterruptedRuns(w, start);
    RunBoth(Blank(), BackToQ(w), Interrupted(w));
    OverwrittenIsWrong(w, Final(start, Interrupted(w)), w.q, Body(w, Source2(w), 2));
  }

  lemma Restarts(w: World, sys: Sys)
    requires Apart(w) && ConfirmedA(w, sys, w.q)
    ensures Enabled(sys.(live := None), EditedStart(w))
    ensures var l := Booted(sys.(live := None), EditedStart(w));
      && Idle(l) && l.catalog == Changed1(w) && w.p !in l.mem.slots
      && Runs(sys, [Crash] + [EditedStart(w)])
      && Final(sys, [Crash] + [EditedStart(w)]) == sys.(live := Some(l))
  {
    StepKeepsInv(sys, Crash);
    EditedStartForgetsSlot(w, sys.(live := None));
    RunTwo(sys, Crash, EditedStart(w));
  }

  /** Without a slot in memory the commit goes to slot A. */
  lemma InterruptedCommit(w: World, sys: Sys, l: Live)
    requires Apart(w) && sys.live == Some(l) && Idle(l) && l.catalog == Changed1(w) && w.p !in l.mem.slots
    requires sys.slotFiles == map[FileA(w) := Body(w, Source1(w), 1)]
    ensures var es := Commit(w.p, Changed1(w), false, Body(w, Source2(w), 2)) + [Crash];
      Runs(sys, es) && Final(sys, es) == sys.(live := None, slotFiles := map[FileA(w) := Body(w, Source2(w), 2)])
  {
    CatalogsDistinct(w);
    CommitThen(sys, l, w.p, Changed1(w), false, Body(w, Source2(w), 2), Crash);
    SlotAReplaced(w, sys.slotFiles, l);
  }

  lemma SlotAReplaced(w: World, files: map<SlotFile, Manifest>, l: Live)
    requires Apart(w) && w.p !in l.mem.slots && files == map[FileA(w) := Body(w, Source1(w), 1)]
    ensures FilesWith(files, l, w.p, Changed1(w), Body(w, Source2(w), 2)) == map[FileA(w) := Body(w, Source2(w), 2)]
  {}

  lemma InterruptedRuns(w: World, sys: Sys)
    requires Apart(w) && ConfirmedA(w, sys, w.q)
    ensures Runs(sys, Interrupted(w))
    ensures Final(sys, Interrupted(w)) == sys.(live := None, slotFiles := map[FileA(w) := Body(w, Source2(w), 2)])
  {
    Restarts(w, sys);
    var l := Booted(sys.(live := None), EditedStart(w));
    InterruptedCommit(w, sys.(live := Some(l)), l);
    RunBoth(sys, [Crash] + [EditedStart(w)], Commit(w.p, Changed1(w), false, Body(w, Source2(w), 2)) + [Crash]);
  }

  /** Under the old configuration the daemon then trusts `p` with the old source, and a cached
      fallback serves it the new source's manifest. */
  lemma OverwrittenServesTheOtherSource(w: World)
    requires Apart(w)
    ensures var es := BackToQ(w) + Interrupted(w);
      && Runs(Blank(), es) && Enabled(Final(Blank(), es), FirstStart(w))
      && var up := Do(Final(Blank(), es), FirstStart(w));
         && SourceIsTrusted(up.live.value.mem, w.p, Source1(w))
         && Prepare(up, up.live.value, Begin(w.p, Original(w), false, FetchFailed([w.node])))
            == Some(Cached(Body(w, Source2(w), 2)))
  {
    UnsavedReconciliationOverwritesConfirmedSlot(w);
    var es := BackToQ(w) + Interrupted(w);
    RunsKeepInv(Blank(), es);
    OldStartServes(w, Final(Blank(), es));
  }

  lemma OldStartServes(w: World, sys: Sys)
    requires Apart(w) && Inv(sys) && sys.live.None? && OnDisk(sys, Original(w), map[w.p := CACHE_SLOT_A], w.q)
    requires FileA(w) in sys.slotFiles && sys.slotFiles[FileA(w)] == Body(w, Source2(w), 2)
    ensures Enabled(sys, FirstStart(w))
    ensures var up := Do(sys, FirstStart(w));
      && SourceIsTrusted(up.live.value.mem, w.p, Source1(w))
      && Prepare(up, up.live.value, Begin(w.p, Original(w), false, FetchFailed([w.node]))) == Some(Cached(Body(w, Source2(w), 2)))
  {
    OldStartTrusts(w, sys);
    FallbackServesSlotA(w, Do(sys, FirstStart(w)), Booted(sys, FirstStart(w)));
  }

  lemma OldStartTrusts(w: World, sys: Sys)
    requires Apart(w) && Inv(sys) && sys.live.None? && OnDisk(sys, Original(w), map[w.p := CACHE_SLOT_A], w.q)
    ensures Enabled(sys, FirstStart(w))
    ensures var l := Booted(sys, FirstStart(w));
      && l.active == w.q && l.catalog == Original(w) && Lookup(l.mem.slots, w.p) == Some(CACHE_SLOT_A)
      && SourceIsTrusted(l.mem, w.p, Source1(w))
  {
    CatalogsDistinct(w);
    var disk, cat := DiskState(sys).value, Original(w);
    assert Mismatched(disk, cat) == {};
    var reconciled := Reconciled(disk, cat);
    ReconciledIsClean(disk, cat);
    ActivatedIsClean(reconciled, w.q);
  }

  // ---------------------------------------------------------------------------------
  // Two: the old state is saved between a transaction's save and its publication.

  /** The end of a refresh of `p`, with one save of the superseded memory in the window. */
  function RacedEnd(w: World): seq<Event> {
    [PersistNext(true, w.batch, 1)] + ([SaveState(true)] + [Publish])
  }

  function Raced(w: World): seq<Event> {
    Commit(w.p, Original(w), false, Body(w, Source1(w), 2)) + RacedEnd(w)
  }

  lemma OtherSlot(w: World, l: Live)
    requires Apart(w) && l.mem.slots == map[w.p := CACHE_SLOT_A]
    ensures SlotsWith(l, w.p, Original(w)) == map[w.p := CACHE_SLOT_B]
  {
    assert map[w.p := CACHE_SLOT_A][w.p := CACHE_SLOT_B] == map[w.p := CACHE_SLOT_B];
  }

  lemma RacedRuns(w: World, sys: Sys)
    requires Apart(w) && ConfirmedA(w, sys, w.p)
    ensures Runs(sys, Raced(w))
    ensures var f := Final(sys, Raced(w));
      && f.live.Some? && Idle(f.live.value) && f.live.value.catalog == Original(w)
      && Lookup(f.live.value.mem.slots, w.p) == Some(CACHE_SLOT_B)
      && OnDisk(f, Original(w), map[w.p := CACHE_SLOT_A], w.p) && f.diskGens == map[w.p := Body(w, Source1(w), 1)]
  {
    var body := Body(w, Source1(w), 2);
    var c := AtCommit(sys, sys.live.value, w.p, Original(w), false, body);
    CommitRuns(sys, sys.live.value, w.p, Original(w), false, body);
    SaveIsPossible(w, sys, w.p, Original(w), map[w.p := CACHE_SLOT_A], w.p, body);
    OtherSlot(w, sys.live.value);
    RacedEndRuns(w, sys, c);
    RunBoth(sys, Commit(w.p, Original(w), false, body), RacedEnd(w));
  }

  lemma RacedEndRuns(w: World, sys: Sys, c: Sys)
    requires Apart(w) && ConfirmedA(w, sys, w.p)
    requires c == AtCommit(sys, sys.live.value, w.p, Original(w), false, Body(w, Source1(w), 2))
    requires CanPersist(c.live.value)
    requires Confirms(ToSave(w, sys, w.p, Original(w), Body(w, Source1(w), 2)), Original(w), map[w.p := CACHE_SLOT_B], w.p)
    ensures Runs(c, RacedEnd(w))
    ensures var f := Final(c, RacedEnd(w));
      && f.live.Some? && Idle(f.live.value) && f.live.value.catalog == Original(w)
      && Lookup(f.live.value.mem.slots, w.p) == Some(CACHE_SLOT_B)
      && OnDisk(f, Original(w), map[w.p := CACHE_SLOT_A], w.p) && f.diskGens == map[w.p := Body(w, Source1(w), 1)]
  {
    CleanSavesAndLoads(sys.live.value.mem);
    var saved := Do(c, PersistNext(true, w.batch, 1));
    assert saved.live.value.mem == sys.live.value.mem && saved.live.value.gens == sys.live.value.gens;
    var back := Do(saved, SaveState(true));
    assert back.live == saved.live && DiskState(back) == Some(sys.live.value.mem);
    RunTwo(saved, SaveState(true), Publish);
    RunOne(c, PersistNext(true, w.batch, 1), [SaveState(true)] + [Publish]);
  }

  /** A refresh is overtaken by a save of the old memory, the save after its publication fails,
      and the next refresh is interrupted after its commit: the state file confirms slot A and
      the first manifest, and slot A holds the third. */
  lemma RacingSaveOverwritesConfirmedSlot(w: World)
    requires Apart(w)
    ensures var es := ToP(w) + (Raced(w) + (Commit(w.p, Original(w), false, Body(w, Source1(w), 3)) + [Crash]));
      Init(Blank()) && Runs(Blank(), es) && !FilesInv(Final(Blank(), es))
  {
    ReachP(w);
    CatalogsDistinct(w);
    var start, body := Final(Blank(), ToP(w)), Body(w, Source1(w), 3);
    RacedRuns(w, start);
    var raced := Final(start, Raced(w));
    CommitThen(raced, raced.live.value, w.p, Original(w), false, body, Crash);
    RunBoth(start, Raced(w), Commit(w.p, Original(w), false, body) + [Crash]);
    RunBoth(Blank(), ToP(w), Raced(w) + (Commit(w.p, Original(w), false, body) + [Crash]));
    OverwrittenIsWrong(w, Final(raced, Commit(w.p, Original(w), false, body) + [Crash]), w.p, body);
  }

  // ---------------------------------------------------------------------------------
  // Three: a reload hands one profile's cache path to another.

  function FailedReload(w: World): seq<Event> {
    Commit(w.q, HandedOver(w), true, Body(w, Source2(w), 2)) + [GiveUp]
  }

  /** A reload that gives the cache path of `p` to the active `q` fails after its cache commit.
      Nothing is published and no crash happens, and yet the next cached fallback for `p` serves
      the manifest fetched for `q`. */
  lemma FailedReloadOverwritesConfirmedSlot(w: World)
    requires Apart(w)
    ensures var es := BackToQ(w) + FailedReload(w);
      && Init(Blank()) && Runs(Blank(), es) && !FilesInv(Final(Blank(), es))
      && Final(Blank(), es).live.Some?
      && Runs(Blank(), BackToQ(w)) && Final(Blank(), es).live == Final(Blank(), BackToQ(w)).live
      && Prepare(Final(Blank(), es), Final(Blank(), es).live.value, Begin(w.p, Original(w), false, FetchFailed([w.node])))
         == Some(Cached(Body(w, Source2(w), 2)))
  {
    ReachQ(w);
    CatalogsDistinct(w);
    var start, body := Final(Blank(), BackToQ(w)), Body(w, Source2(w), 2);
    CommitThen(start, start.live.value, w.q, HandedOver(w), true, body, GiveUp);
    RunBoth(Blank(), BackToQ(w), FailedReload(w));
    OverwrittenIsWrong(w, Final(start, FailedReload(w)), w.q, body);
    FallbackServesSlotA(w, Final(start, FailedReload(w)), start.live.value);
  }

  lemma FallbackServesSlotA(w: World, sys: Sys, l: Live)
    requires Apart(w) && l.catalog == Original(w) && l.active == w.q
    requires SourceIsTrusted(l.mem, w.p, Source1(w)) && Lookup(l.mem.slots, w.p) == Some(CACHE_SLOT_A)
    requires FileA(w) in sys.slotFiles && sys.slotFiles[FileA(w)] == Body(w, Source2(w), 2)
    ensures Prepare(sys, l, Begin(w.p, Original(w), false, FetchFailed([w.node]))) == Some(Cached(Body(w, Source2(w), 2)))
  {}
}
