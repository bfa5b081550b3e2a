/** A run from the first start in which an on-demand probe is recorded into another profile's
    statistics: the switch comes between its two reads. */
module ProbeWitness {
  import opened Base
  import opened Daemon
  import opened Provenance
  import opened CrashConsistency
  import opened CrashWitnesses
  import E = Evidence

  function ReadsPool(): Event { OnDemandStep(ReadPool(0)) }
  function ReadsEra(): Event { OnDemandStep(ReadEra(0)) }
  function Records(w: World): Event { OnDemandStep(ProbeStep.Record(0, w.node)) }

  /** The local profile's probe, and a switch to the remote one. */
  function Switch(w: World): seq<Event> {
    SwitchOver(w, w.p, Original(w), Body(w, Source1(w), 1))
  }

  lemma FirstPool(w: World)
    requires Apart(w)
    ensures Enabled(Blank(), FirstStart(w))
    ensures Do(Blank(), FirstStart(w)).live.value.pool == Manifest(Files(), 0, [w.node])
  {
    FirstStartSettles(w);
    BootPoolIs(Blank(), FirstStart(w));
  }

  lemma PoolIsRead(w: World, sys: Sys)
    requires Settled(sys, Original(w), map[], w.q) && 0 !in sys.live.value.probes && sys.live.value.pool == Manifest(Files(), 0, [w.node])
    ensures Enabled(sys, ReadsPool()) && Settled(Do(sys, ReadsPool()), Original(w), map[], w.q)
    ensures Lookup(Do(sys, ReadsPool()).live.value.probes, 0) == Some(SawPool(Manifest(Files(), 0, [w.node]), Original(w)[w.q]))
  {
    StepKeepsInv(sys, ReadsPool());
  }

  lemma SwitchReadsNoEra(w: World)
    ensures E.StaysUp(Switch(w)) && E.NoEraRead(Switch(w), 0)
  {}

  lemma EraIsReadAndRecorded(w: World, sys: Sys, slots: map<Name, string>)
    requires Apart(w) && Settled(sys, Original(w), slots, w.p)
    requires 0 in sys.live.value.probes && sys.live.value.probes[0] == SawPool(Manifest(Files(), 0, [w.node]), Original(w)[w.q])
    ensures Enabled(sys, ReadsEra()) && Enabled(Do(sys, ReadsEra()), Records(w))
    ensures var l := Do(Do(sys, ReadsEra()), Records(w)).live.value;
      l.active == w.p && l.catalog == Original(w) && w.node in l.mem.nodes && Files() in l.mem.nodes[w.node]
  {}

  /** The daemon starts with the local profile, a probe run reads its pool, the operator switches
      to the remote profile, and the probe goes on: it finds the era unchanged since it read it,
      and what it measured on the local profile's node lands in the remote profile's statistics. */
  lemma ForeignProbeIsRecorded(w: World)
    requires Apart(w)
    ensures var es := ([FirstStart(w)] + [ReadsPool()]) + (Switch(w) + ([ReadsEra()] + [Records(w)]));
      && Init(Blank()) && Runs(Blank(), es) && Final(Blank(), es).live.Some?
      && var l := Final(Blank(), es).live.value;
         && l.active == w.p && Lookup(l.catalog, w.p) == Some(Source1(w)) && Source1(w) != Files()
         && w.node in l.mem.nodes && Files() in l.mem.nodes[w.node]
  {
    FirstStartSettles(w);
    FirstPool(w);
    var sys1 := Do(Blank(), FirstStart(w));
    PoolIsRead(w, sys1);
    var sys2 := Do(sys1, ReadsPool());
    RunTwo(Blank(), FirstStart(w), ReadsPool());
    SwitchRuns(w, sys2, w.p, Original(w), map[], w.q, Body(w, Source1(w), 1));
    SwitchReadsNoEra(w);
    E.ProbeStays(sys2, Switch(w), 0);
    var sys3 := Final(sys2, Switch(w));
    EraIsReadAndRecorded(w, sys3, SlotsWith(sys2.live.value, w.p, Original(w)));
    RunTwo(sys3, ReadsEra(), Records(w));
    RunBoth(sys2, Switch(w), [ReadsEra()] + [Records(w)]);
    RunBoth(Blank(), [FirstStart(w)] + [ReadsPool()], Switch(w) + ([ReadsEra()] + [Records(w)]));
  }
}
