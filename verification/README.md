# CAUSEWAY: verified model of the supervisor core

CAUSEWAY supervises local proxy adapters and moves traffic between them without dropping
clients. This project models its protocols and its persistent state in Dafny and proves what
they promise. `dafny verify dfyconfig.toml` checks everything.

| module | models |
|---|---|
| `Base` | optional values, results, names, sources |
| `ProfileState`, `StateLaws`, `Preservation` | the state file: operations as methods of an object, their closed forms, refinement of a plain map, the wire form, and exactly what a startup, a reload and a switch keep |
| `Publication`, `Daemon`, `Provenance` | the daemon as a step relation over memory, state file, cache slots and probes, with crashes, failures and cancellations; which profiles may have evidence |
| `CrashConsistency`, `CarefulRuns`, `CrashWitnesses`, `Resumption` | which manifest a restart serves, exactly when a cache write is harmless, what makes all writes of a run so, three runs from the first start in which one is not, and which profile a restart resumes |
| `Evidence`, `ProbeWitness` | on which source's nodes the statistics were measured, and a run in which it is another profile's |
| `Fleets`, `Supervision`, `SwitchLaws` | data planes and their owners; install, recovery, manual switch, egress rebuild, subscription transaction, teardown, with every attempt on a candidate in a log |
| `Coherence` | status snapshots and on-demand probes beside publications |
| `Leases` | connection leases, route flips, retirement of paths |
| `Locks`, `LockPrograms`, `LockGuards` | the lock order, progress, fairness, the lock use of each operation, and what is done under which lock |
| `Manifests`, `Candidates`, `Scoring` | manifest merging, cache slots, candidate order, moving averages, hysteresis |
| `Egress`, `Observers` | the egress observer and signature, the accept-error throttle, the recovery backoff, traffic counters |
| `Codec` | the process identity, instance and credential names |

Floating point is modelled by reals. A source identity is the source itself, that is, the hash
is taken to be injective. A completed rename is visible to everything after it; loss of power
is not modelled. Sockets, processes, health checks, clocks and fetches have any outcome. A
dropped handle is a stopped plane. What local files and a cache that predates slots hold counts as
the configured source's.

## What does not hold as documented

The model follows the code; where the code's comments, names or documentation promise more than it
does, the project states exactly when the promise is kept.

- **A cache commit can overwrite a confirmed slot.** The commit picks the slot that memory does
  not reference (src/subscription.rs:501-505), which need not be the one the state file does not
  reference. `CrashConsistency.WriteKeepsFilesExactly` gives the exact condition for one write.
  Three runs from the first start break it (`CrashWitnesses`): a startup quarantines a changed
  source in memory only; a save of the old memory lands between a transaction's save and its
  publication, and the save that follows the publication fails; a reload gives one profile's
  cache path to another and then fails. `CarefulRuns.CarefulRestart` proves the promise for
  every run in which the state file is in step with memory, and the path is no other profile's
  confirmed cache, at each replacement of a slot. A run may get out of step and back in between.
- **An on-demand probe can be recorded into the wrong profile's statistics.** `probe_now_inner`
  reads the pool and the era under two separate read locks (src/supervisor.rs:1978, 1990-1994), so a
  publication between them goes unnoticed, contrary to src/supervisor.rs:2091-2093. The record is
  foreign exactly when that publication changed the configured source
  (`Evidence.OnDemandProbeOverRun`); a refresh of the same source in between does no harm to
  provenance. `ProbeWitness.ForeignProbeIsRecorded` is such a run.
- **A path in use can be stopped at once.** An operation cancelled after its route flip, while it
  waits for the drain list, drops the former handle (`Leases.CancellationDropsLeasedPath`). Apart
  from the hard cap that is the only way a plane is stopped under a live connection
  (`Leases.StopIsJustified`). No task of the release binary is cancelled there.
- **Success ties are not transitive.** The score orders all statistics with a given set of success
  rates exactly when the tie is an equivalence on these rates (`Scoring.ScoreCmpTransitiveExactly`).
- **The generation recheck of a status snapshot wraps** after 2^64 publications:
  `Coherence.MixedSnapshotExactly`.

## Model

| member | source | states |
|---|---|---|
| ProfileState.StateFile.RemoveSubscription | src/state.rs:105-114 | one profile loses statistics, slot, identity and marker, and the selection if it was active; nothing else changes |
| ProfileState.StateFile.InvalidateSubscriptionSource | src/state.rs:118-128 | a profile's evidence is gone and its new identity pending; the other profiles are untouched |
| ProfileState.StateFile.TrustSubscriptionSource | src/state.rs:130-134 | a profile is trusted under the identity and no longer pending |
| ProfileState.StateFile.RemoveUnlisted | src/state.rs:153-163 | the removal loop, in whatever order, forgets exactly the profiles the catalog does not list |
| ProfileState.StateFile.ApplySubscriptionCatalog | src/state.rs:147-182 | the reload loops compute an order-free closed form: unlisted profiles removed, new or changed ones invalidated, the vouched target trusted |
| ProfileState.StateFile.ReconcileStartupSources | src/state.rs:188-223 | the startup loops compute an order-free closed form; the arm for a differing stored identity in the last loop is dead |
| ProfileState.StateFile.MigrateForSubscription | src/state.rs:231-238 | a version-1 state is bound to the selected profile, any other is left alone |
| ProfileState.StateFile.ActivateSubscription | src/state.rs:248-262 | the outgoing statistics are parked and the incoming ones moved into the flat view |
| Preservation.StartupKeeps | src/state.rs:188-223 | through a startup every configured profile whose recorded source is still the configured one keeps statistics and slot and is trusted unless pending; a differing one loses both and is pending; an unlisted one is forgotten; selection, class entries and verdicts stay |
| Preservation.ReloadKeeps | src/state.rs:147-182 | the same through a reload, where a profile loses its evidence exactly when it is new, changed, or recorded under another source, and the vouched one is trusted |
| Preservation.SwitchKeeps | src/supervisor.rs:1432-1462 | the state a switch saves keeps the statistics and slots of all other listed profiles with an unchanged source, the outgoing one included; the target has its own statistics back, its committed slot, and calm planned nodes; unplanned entries and verdicts stay |
| Preservation.PortsAreAll | src/supervisor.rs:1489-1512 | what the publication adds to the saved state is the ports of the planned classes and nothing else |
| StateLaws.StateRefinesPlainMap | src/state.rs:94-114 | after any sequence of activations, records, removals and invalidations every query answers as a plain profile-to-statistics map does, and the active profile is never parked too |
| StateLaws.SaveThenLoad | src/state.rs:265-281 | a state survives save and load exactly when it is well formed and its slots are real |
| StateLaws.LoadThenSave | src/state.rs:403-480 | what a load accepts is well formed, and the next save reproduces the version-2 file |
| StateLaws.LegacyMigration | src/state.rs:231-262 | a version-1 file cannot be saved before a profile is chosen; afterwards its statistics belong to that profile alone and survive a restart |
| Provenance.NextIsClean | src/supervisor.rs:1432-1462 | the state a transaction saves has only evidence of the configured sources, its target active and trusted |
| Provenance.ReconciledIsClean | src/state.rs:188-223 | startup reconciliation re-establishes that invariant under any configuration |
| Provenance.RunsKeepInv | src/supervisor.rs:1383-1521 | every run of startups, crashes, probes, saves, switches and reloads, failed or cancelled, keeps the invariant of memory, state file and transaction |
| Provenance.TrustOverRuns | src/state.rs:102-223 | in every reachable state, in memory and on disk, only a profile with a trusted source has statistics or a slot, and a pending one has neither |
| Provenance.StartupNeverServesQuarantined | src/supervisor.rs:2651-2675 | startup refuses the resumed profile exactly when its recorded source differs from the configured one or its change is pending, although the slot branch does not test trust |
| Provenance.NoLostUpdate | src/supervisor.rs:1432-1488 | what a publication installs is the transaction applied to the very memory it replaces |
| Provenance.OneCacheWriter | src/supervisor.rs:1121-1177 | while the worker of a cancelled transaction runs, no later transaction is past its gate |
| CrashConsistency.SparedExactly | src/subscription.rs:494-519 | writing a new body leaves every slot a state confirms intact exactly when that state has the other slot confirmed at that path, or none |
| CrashConsistency.WriteKeepsFilesExactly | src/subscription.rs:494-519 | the same for the state file and memory together, over one step of the daemon |
| CrashConsistency.RestartServesPublishedGeneration | src/supervisor.rs:2651-2675 | after any run of safe writes with crashes anywhere, a startup succeeds exactly when there is something to serve; it resumes the profile the state file selects and serves the manifest published with that file where it confirms a slot, else the local files or the cache that predates slots |
| CrashConsistency.FallbackServesPublishedGeneration | src/subscription.rs:458-474 | after any such run a failed fetch is answered from the cache exactly when the target is inactive, trusted and unchanged and the cache has nodes: with the manifest last published if the profile has a slot, else its local files or the cache that predates slots |
| Resumption.RestartResumes | src/supervisor.rs:2695-2701 | after any run a startup comes up on the profile that the newest save selected if it is still configured, else on the default |
| Resumption.SavedSwitchSurvives | src/supervisor.rs:1383-1521 | once a transaction has saved its state, a crash at any moment before or after the publication leads, under the same source, to its target and to the very manifest it fetched |
| Resumption.NothingIsForgotten | src/state.rs:102-223 | while the daemon is up no measurement of a profile is lost through switches, refreshes, reloads and failures as long as its configured source stays the same |
| Resumption.RestartKeepsEvidence | src/state.rs:188-223 | a restart finds the saved statistics and slot of every configured profile whose source is unchanged, and neither of one whose source differs |
| CarefulRuns.BootInStep | src/state.rs:188-223 | a startup leaves memory and state file confirming the same slots exactly when no confirmed profile changed its source |
| CarefulRuns.CarefulRunsAreSafe | src/supervisor.rs:1383-1475 | every cache write is safe if at each replacement of a slot the state file is in step, as the saves and startups so far tell, and the path is no other profile's confirmed cache |
| CarefulRuns.OnlyReloadsHandOver | src/config.rs:862-946 | the second condition can only be broken by a reload that gives another profile's cache path to the active one |
| CarefulRuns.CarefulRestart | src/state.rs:488-553 | hence after every such run a restart serves the published manifest |
| CrashWitnesses.UnsavedReconciliationOverwritesConfirmedSlot | src/supervisor.rs:2687-2697 | the run from the first start in which a startup's quarantine is not saved and the confirmed slot is overwritten |
| CrashWitnesses.OverwrittenServesTheOtherSource | src/supervisor.rs:1090-1107 | after it a trusted profile falls back to the other source's manifest |
| CrashWitnesses.RacingSaveOverwritesConfirmedSlot | src/supervisor.rs:2020-2024 | the run from the first start in which a save outside the gate undoes a transaction's save |
| CrashWitnesses.FailedReloadOverwritesConfirmedSlot | src/supervisor.rs:2205-2253 | the run from the first start, without any crash, in which a reload hands a cache path over and fails |
| Evidence.SafeRunsKeepPools | src/supervisor.rs:1513-1519 | over every run of safe writes the pool in memory comes from the configured source, and an on-demand probe's pool from the source configured when it was read |
| Evidence.PeriodicProbeIsOwn | src/supervisor.rs:2317-2331 | a periodic probe measures a node of the configured source |
| Evidence.OnDemandProbeIsOwnExactly | src/supervisor.rs:2094-2118 | an on-demand probe that passes the era recheck is the configured source's own, and leaves pure statistics pure, exactly when both its reads saw the same configured source |
| Evidence.OnDemandProbeOverRun | src/supervisor.rs:1977-1995 | over the whole run around a probe: its record is foreign exactly when the configured source at the era read is not that at the pool read, which takes a publication between them (with fewer than 2^64 publications since) |
| Evidence.RecordStaysPureExactly | src/supervisor.rs:2185-2193 | a record keeps a state's statistics of their own sources exactly when its pool comes from the configured source |
| ProbeWitness.ForeignProbeIsRecorded | src/supervisor.rs:1977-1995 | the run from the first start in which a switch between the two reads lets a probe of the local profile land in the remote one's statistics |
| Evidence.ProvenanceOverRuns | src/state.rs:102-223 | after every run with safe writes and steady probes all statistics, in memory and on disk, were measured on the trusted source, every slot file holds the manifest published with it from that source, and a pending profile has neither |
| Fleets.GenerationsRepeatExactly | src/supervisor.rs:545-554 | generations of successive publications agree exactly when a multiple of 2^64 publications lies between them |
| Fleets.BatchTakesOver | src/supervisor.rs:1477-1546 | after a batch every class has its plane, a route to it one generation on, and no failure streak, and exactly the former planes have joined the draining ones |
| Fleets.EveryPlaneHasOneRole | src/supervisor.rs:488-593 | every plane started for a class is in exactly one of staged, active, draining, stopped, and in one place only |
| Fleets.RouteNamesLivePlane | src/supervisor.rs:543-554 | a route names the addresses of an unstopped plane that passed the check of its class |
| Fleets.InstallConserves | src/supervisor.rs:527-593 | installing a checked plane keeps both |
| Fleets.BatchConserves | src/supervisor.rs:1477-1546 | so does a whole batch |
| Fleets.StagedStopConserves | src/supervisor.rs:1055-1061 | so does stopping what is staged |
| Supervision.Supervisor.TryActivate | src/supervisor.rs:488-523 | a plane is staged checked, or stopped again; nothing live changes |
| Supervision.Supervisor.InstallActive | src/supervisor.rs:527-593 | one class moves to the checked plane, its route exactly one generation on, its streaks over, its former plane retires; its state entry and the calm of its node are all that changes in the state; no other class changes |
| Supervision.Supervisor.TryCandidates | src/supervisor.rs:602-667 | the candidates are tried in order and no further than the first that passes, which is installed; else all of them failed or the shutdown had begun, and the class keeps its path; each failure is recorded once, with its effect on the success rate, unless the class has a health target of its own |
| Supervision.FailuresCompose | src/supervisor.rs:640-652 | failed checks add up: the statistics after both lists are those after the list of all, rates included |
| Supervision.Supervisor.SwitchNodeLocked | src/supervisor.rs:824-914 | recovery walks down the five best alternates of the class's regions and then its current node, in this order, installs the first that passes, and gives up only after all failed or the shutdown began |
| Supervision.FirstNamedIs | src/supervisor.rs:985-990 | the requested node is looked up by name, and found exactly if the pool has it |
| Supervision.Supervisor.ActivateInitial | src/supervisor.rs:2282-2314 | the first path of a class is the first that passes in the order that prefers the recorded node, and nothing changed only if all failed |
| Supervision.InstalledIsReported | src/supervisor.rs:545-573 | after an install the state entry of every serving class still names the node, ports and generation of its route, and its traffic counts for the active profile |
| Supervision.BatchIsReported | src/supervisor.rs:1489-1512 | the same after a publication |
| Supervision.Supervisor.SwitchTo | src/supervisor.rs:969-1053 | the requested node is tried first, and only after its failure the five best others as ranked then, in order; the answer names what was installed, as a fallback exactly if the requested node failed, and an error names the last failure and leaves every route alone |
| Supervision.Supervisor.RebuildCurrent | src/supervisor.rs:2525-2609 | only the current node is tried; it serves the class on a new checked plane, or nothing changed |
| Supervision.Supervisor.StageAll | src/supervisor.rs:1304-1370 | one checked plane per class, running the first of its five candidates that passed, or none, because time ran out or every candidate of some class failed |
| Supervision.Supervisor.Commit | src/supervisor.rs:1383-1475 | cache slot and state file are replaced in this order, or the state file is not |
| Supervision.Supervisor.Publish | src/supervisor.rs:1477-1521 | all routes, class entries, pool, name and catalog change together |
| Supervision.Supervisor.SwitchSubscription | src/supervisor.rs:1182-1554 | every failing exit leaves routes, active paths, state, state file and pool unchanged, only the unconfirmed slot may differ, all planes started are stopped; a request is refused exactly when it may not run; success moves every class to a checked node of the new pool, exactly one generation on, with the fetched body in the slot that the saved state confirms |
| Supervision.StagedServesNewPool | src/supervisor.rs:1304-1370 | what a switch installs is for each class the first that passes of five candidates of the new pool, in the order of the known statistics, in the class's regions and its current node first exactly on a refresh |
| Supervision.KnownStatsExactly | src/supervisor.rs:1202-1216 | statistics guide the choice exactly when the source to be used is the trusted and the configured one |
| SwitchLaws.SwitchKeepsStatistics | src/supervisor.rs:1432-1462 | after a completed switch the statistics of every other profile with an unchanged source are untouched, those of the target differ only in the cleared streaks of the installed nodes |
| Supervision.SavedBatchShowsNoPorts | src/supervisor.rs:1411-1414 | a crash before publication leaves no staged port on disk |
| Supervision.Supervisor.Shutdown | src/supervisor.rs:2892-2911 | after teardown every plane ever started for a class is stopped and no class entry shows a port, while statistics, selection and the node of each class are kept for the next start |
| Coherence.SnapshotIsCoherent | src/supervisor.rs:1574-1656 | in every interleaving a returned snapshot pairs name, pool and generation with the state of the same publication, unless the generation wrapped |
| Coherence.MixedSnapshotExactly | src/supervisor.rs:1621-1640 | with n publications between the two reads and none after, the mixed snapshot is returned when n is a multiple of 2^64 and caught by the recheck otherwise |
| Coherence.ProbeIsRecordedInItsPool | src/supervisor.rs:2094-2118 | a probe lands in the era it was checked against, and in the epoch of its own pool exactly when no publication came between the two reads |
| Coherence.OldPoolProbeIsRecorded | src/supervisor.rs:1977-1995 | the run in which it does not |
| Leases.CounterIsLiveLeases | src/listener.rs:103-119 | in every reachable state a path's counter is the number of its live captured connections |
| Leases.RouteNamesUnstoppedPlane | src/listener.rs:325-343 | while listeners serve, what a connection captures is an unstopped plane |
| Leases.CounterNeverRises | src/supervisor.rs:545-554 | once no route names a path its counter never rises again, and no route ever names it again |
| Leases.StopIsJustified | src/supervisor.rs:339-376 | a plane stopped under a live connection had used up its hard cap or was dropped by a cancellation, and only the former where nothing is cancelled; the shutdown stops none |
| Leases.CancellationDropsLeasedPath | src/supervisor.rs:588-592 | the run in which a cancellation does so |
| Leases.DrainDecidesExactly | src/supervisor.rs:356-371 | past its grace a retired path may stop exactly when it is idle, its extension is over, or the shutdown released it, and the reason says which |
| Leases.RetiredPathStops | src/supervisor.rs:339-376 | from every reachable state the drain task alone can stop a retired path: as soon as the grace is over if it is idle, and within the extension in any case |
| Leases.GraceIsKept | src/supervisor.rs:350-357 | before the shutdown a retired path runs for its whole grace, and while it carries a connection for the extension too |
| Locks.StepKeeps | src/supervisor.rs:1265-1296 | every step, cancellations included, keeps the lock discipline, the queues and mutual exclusion |
| Locks.NoWaitCycle | src/supervisor.rs:969-979 | no reachable wait-for graph has a cycle |
| Locks.SomeoneCanMove | src/supervisor.rs:2406-2449 | while any operation is unfinished some operation can move |
| Locks.ExclusiveMeansAlone | src/supervisor.rs:1145-1160 | while a worker holds gate or class lock exclusively no one else holds it, whatever was cancelled |
| Locks.NobodyOvertakes | src/supervisor.rs:1265-1296 | while an operation waits for a lock, none that was not ahead of it in the queue gets that lock |
| LockPrograms.SubscriptionTransactionKeepsOrder | src/supervisor.rs:1263-1546 | the transaction takes its locks in the order, for any number of classes |
| LockPrograms.ManualSwitchKeepsOrder | src/supervisor.rs:969-1053 | so does a manual switch |
| LockPrograms.HealthTickKeepsOrder | src/supervisor.rs:2406-2449 | so does a health tick, which recovers under the read gate it already holds |
| LockPrograms.ProbeCycleKeepsOrder | src/supervisor.rs:2317-2346 | so does a probe cycle |
| LockPrograms.StatusSnapshotKeepsOrder | src/supervisor.rs:1574-1656 | so does a status snapshot |
| LockPrograms.EgressRebuildKeepsOrder | src/supervisor.rs:2542-2560 | so does the egress rebuild, which only tries its locks |
| LockPrograms.TeardownKeepsOrder | src/supervisor.rs:2892-2911 | so does the teardown |
| LockGuards.TransactionIsGuarded | src/supervisor.rs:1263-1546 | the transaction flips routes and replaces the pool only with the write gate, every class and the state held |
| LockGuards.ManualSwitchIsGuarded | src/supervisor.rs:969-1053 | a manual switch flips its route under its class and the gate, and records only under the gate |
| LockGuards.HealthTickIsGuarded | src/supervisor.rs:2406-2449 | so does a health tick |
| LockGuards.ProbeCycleIsGuarded | src/supervisor.rs:2317-2346 | a probe cycle records only under the gate |
| LockGuards.StatusSnapshotIsGuarded | src/supervisor.rs:1574-1656 | a status snapshot replaces neither a route nor the pool |
| LockGuards.EgressRebuildIsGuarded | src/supervisor.rs:2542-2560 | so does the egress rebuild, under the write gate |
| LockGuards.WritersAreAlone | src/supervisor.rs:1477-1521 | in every reachable state of such operations, while one flips a route no other holds that class, and while one replaces the pool no other is under the gate or holds the state |
| Manifests.ParseEntries | src/subscription.rs:250-304 | parsing keeps the first usable entry of each name, and every entry is kept, or counted as unsupported, bad or duplicate |
| Manifests.LoadAll | src/subscription.rs:425-446 | merging file by file keeps the first occurrence over all files |
| Manifests.KeepFirstKeepsFirsts | src/subscription.rs:283-293 | names are unique, none is lost, and what is kept under a name is its first entry |
| Manifests.KeepFirstOfParts | src/subscription.rs:425-446 | removing duplicates inside each file first changes nothing |
| Manifests.KeepFirstKeepsOrder | src/subscription.rs:283-293 | and what is kept keeps its order |
| Manifests.UsableNodesExactly | src/subscription.rs:250-304 | the usable nodes are exactly those of the usable entries, in order |
| Manifests.FilesConcatenate | src/subscription.rs:425-446 | the nodes of several files are those of each, one after the other |
| Manifests.NodesOfOneFile | src/subscription.rs:425-446 | the nodes of one file are its usable nodes, none if it cannot be read |
| Manifests.PrepareRemote | src/subscription.rs:608-638 | a fetched body is prepared exactly when it parses to some and not too many usable nodes, with those nodes and the body pending |
| Manifests.SlotReloadsTheFetch | src/subscription.rs:458-474 | reading a slot file that holds a body gives the nodes that body was parsed to |
| Manifests.CommitAndReload | src/subscription.rs:494-519 | a prepared and committed body is read back from its slot as the very nodes fetched, and the confirmed slot still reads as before |
| Manifests.SlotPathsAreApart | src/subscription.rs:36-44 | different caches and slots never share a file, no slot is the cache itself, and each slot has its own suffix |
| Manifests.PreparedProfile.CommitCacheSlot | src/subscription.rs:494-519 | the pending body is written into the slot the state does not confirm; the confirmed slot and every other file are untouched; a failed write can be retried |
| Candidates.ProfileCandidates | src/supervisor.rs:434-484 | the loops compute the specified order |
| Candidates.CandidateOrderIsFaithful | src/supervisor.rs:434-484 | for distinct names the order is a duplicate-free permutation of the eligible nodes, the preferred first, then probed before unprobed, the unprobed by name, the probed by score where the score is an order |
| Candidates.SortSorts | src/supervisor.rs:425-427 | the stable sort orders whatever its comparison orders |
| Candidates.BestAreBest | src/supervisor.rs:403-428 | automatic candidates are probed nodes of the allowed regions other than the barred ones, all of them if fewer than the limit; where the score is an order they are the best, best first |
| Candidates.InRegionsExactly | src/supervisor.rs:422-424 | a node is in a region exactly when the region is a part of its name, and every node is if no region is given |
| Candidates.NameLessExactly | src/supervisor.rs:476 | names are ordered by the first character that differs, a prefix before what it begins |
| Scoring.NodeStats.RecordProbe | src/score.rs:67-90 | one probe updates averages, sparkline and count |
| Scoring.ClosedForm | src/score.rs:67-90 | after any history both averages are the geometrically weighted sums of the samples and the sparkline is the newest twenty successes |
| Scoring.AveragesAreBounded | src/score.rs:67-90 | the success average is a rate and the round-trip average lies between the least and greatest successful sample |
| Scoring.ScoreGreaterExactly | src/score.rs:100-114 | a score is greater exactly for a clearly better rate or, on a tie, for the faster or the only measured node |
| Scoring.ScoreCmpReverses | src/score.rs:100-114 | the comparison is antisymmetric |
| Scoring.ScoreCmpTransitiveExactly | src/score.rs:46-52 | the comparison is transitive on all statistics with a set of rates exactly when the tie is an equivalence on that set |
| Scoring.UncleanTiesMakeCircles | src/score.rs:46-52 | any two ties that do not make a third can be ranked in a circle by round-trip times |
| Scoring.FlipFlopExactly | src/score.rs:122-139 | two nodes can each beat the other exactly when both are probed, the rates straddle the margins, and the lower-rate one is faster by the margin |
| Scoring.NoFlipFlop | src/score.rs:122-139 | hence never without hysteresis or with both rates at or below the floor |
| Scoring.ChallengerFollowsScore | src/score.rs:122-139 | without hysteresis the challenger wins by score; an unprobed node loses to every probed one and never wins |
| Scoring.HysteresisProtects | src/score.rs:122-139 | for the node whose rate is not the lower one a larger hysteresis only makes it harder |
| Scoring.FlipFlopExists | src/score.rs:122-139 | and for every positive hysteresis there are two nodes that do |
| Egress.StableEgressObserver.Observe | src/egress.rs:132-182 | one observation moves the observer and delivers as specified |
| Egress.DeliversExactly | src/egress.rs:132-182 | the observer delivers exactly when the observations alone say one is due: a run of equal signatures that is not the first, began outside every cooldown and does not show what was current, has lasted for the first time, and has a default route |
| Egress.DeliveryIsStable | src/egress.rs:132-182 | a delivered signature ends a run of equal observations that follows a different one, lasted `stable_for` and began after the cooldown of every earlier delivery, so what is seen in a cooldown causes no second rebuild |
| Egress.DeliveriesAreApart | src/egress.rs:144-156 | any two deliveries are at least `cooldown + stable_for` apart |
| Egress.LastingChangeIsDelivered | src/egress.rs:158-182 | a lasting change that begins outside the cooldown and has a default route is delivered |
| Egress.PreferredIsCanonical | src/egress.rs:47-55 | two routing tables have the same signature exactly when they have the same lowest-metric routes |
| Egress.BackupRoutesDoNotMatter | src/egress.rs:3-6 | adding a worse route changes nothing |
| Observers.AcceptErrorThrottle.Observe | src/listener.rs:168-187 | one error is logged or suppressed as specified |
| Observers.LinesExactly | src/listener.rs:168-187 | an error is logged exactly when it is the first, changes the kind, or the interval since the last line is over, and a repeating line reports exactly the errors left out since |
| Observers.NeverSilent | src/listener.rs:144-188 | an error that is not logged comes less than an interval after a line of its kind |
| Observers.LogStormIsBounded | src/listener.rs:144-188 | lines are at least the kind changes and at most those plus elapsed time over the interval |
| Observers.ErrorsAreAccountedFor | src/listener.rs:168-187 | every error was logged, reported as suppressed, is pending, or was dropped at a change of kind |
| Observers.AutoRecoveryBackoff.RecordFailureAt | src/supervisor.rs:93-103 | the loop computes the capped doubling, and the retry time is exactly that far away |
| Observers.AutoRecoveryBackoff.Reset | src/supervisor.rs:105-108 | a published path makes recovery ready at every time and starts a new streak |
| Observers.DelaysGrowToTheCap | src/supervisor.rs:50-51 | delays never shrink, never exceed the cap, and reach it exactly from the fifth failure on |
| Observers.TrafficCounters.AddBytes | src/listener.rs:63-71 | bytes of another subscription are ignored, own ones added with saturation |
| Observers.TrafficCounters.SelectSubscription | src/listener.rs:84-91 | a new selection clears the counters, the same one does not |
| Observers.CountersShowOwnBytes | src/listener.rs:62-92 | after any events each counter is exactly what the selected profile's connections carried since its selection, up to saturation |
| Codec.ParseInvertsEncode | src/dataplane.rs:62-88 | the parser accepts exactly the printed form of a valid identity and returns that identity |
| Codec.BootIdExactly | src/dataplane.rs:91-100 | a boot identifier is valid exactly in the text form of five hyphenated groups of lower-case hexadecimal digits |
| Codec.EncodeIsInjective | src/dataplane.rs:62-67 | different valid identities print differently |
| Codec.NameInverse | src/dataplane.rs:148-187 | an instance name is accepted exactly when it is the name of that identity with some valid nonce |
| Codec.NamesAreInjective | src/dataplane.rs:148-153 | identity and nonce are determined by the name |
| Codec.CredentialNamesExactly | src/dataplane.rs:499-522 | exactly the names an adapter writes are recognised, so cleanup deletes nothing else |

## Left out

- Sockets, TLS, HTTP, curl, child processes, `/proc` reads, permissions and signals: any outcome instead.
- JSON, YAML and TOML syntax, SHA-256, log text, the TUI, the CLI and the control replies.
- Loss of power: a completed rename counts as durable.
- The temporary file: a transaction's save and every other save write the same `json.tmp` without a common lock (src/state.rs:501); a save is one atomic step here.
- Runs from an upgraded state file: runs start without one; `StateLaws.LegacyMigration` covers the upgrade itself.
- Interleavings inside `Supervision`: its methods run one at a time, as the locks make them; `Daemon`, `Coherence`, `Leases` and `Locks` have the interleavings.
- The temporary planes of on-demand and site probes (src/supervisor.rs:1739-1755, 2139-2155): each is stopped by the call that started it and never staged or routed, so they are outside the fleet.
- Planes orphaned by a cancellation in the middle of a start: a dropped start counts as a stopped plane.
- `switch_for_site`, which uses the operations modelled here.
- The lock use of site probes, `switch_for_site` and reload beyond what the listed programs take.
- Overflow of `probe_count`, `consecutive_health_failures` and lease counters; the class route generation wraps as in a release build.
- NaN and infinities in scores, and a library sort that panics on a comparison that is not an order.
- Non-ASCII text: names and paths are sequences of characters.
- Config range checks, recovery headlines, the event ring, the first-byte classifier, parsing of routing tables: one-branch facts.
- Leases.StopIsJustified: treats a counter read and the stop that follows it as two steps but atomics as sequentially consistent.
