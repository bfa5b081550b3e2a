/** The state a subscription transaction persists and publishes
    (src/supervisor.rs, `switch_subscription_locked`), and the cache slot it commits
    (src/subscription.rs, `commit_cache_slot`). */
module Publication {
  import opened Base
  import opened ProfileState

  /** The daemon's generation counters are 64 bits wide. */
  const GENERATIONS: nat := 0x1_0000_0000_0000_0000

  /** One class of the batch: the node staged for it, the staged plane's ports, and the
      route generation it will carry. */
  datatype Plan = Plan(node: Name, socks: nat, http: nat, generation: nat)

  /** The slot the state does not reference. */
  function NextSlot(confirmed: Option<string>): string {
    if confirmed == Some(CACHE_SLOT_A) then CACHE_SLOT_B else CACHE_SLOT_A
  }

  predicate IsPlanned(planned: map<Name, Plan>, node: Name) {
    exists c | c in planned :: planned[c].node == node
  }

  function PlannedClasses(classes: map<Name, ClassState>, planned: map<Name, Plan>): map<Name, ClassState> {
    classes + (map c | c in planned :: ClassState(Some(planned[c].node), None, None, planned[c].generation))
  }

  function LiveClasses(classes: map<Name, ClassState>, planned: map<Name, Plan>): map<Name, ClassState> {
    classes + (map c | c in planned ::
      ClassState(Some(planned[c].node), Some(planned[c].socks), Some(planned[c].http), planned[c].generation))
  }

  function Calmed<S>(nodes: map<Name, S>, planned: map<Name, Plan>, calm: S -> S): map<Name, S> {
    map n | n in nodes :: if IsPlanned(planned, n) then calm(nodes[n]) else nodes[n]
  }

  /** The batch recorded in a state: the committed slot, the planned classes, and a clean
      health record for every planned node. Staged ports are left out: a crash before
      publication must not make them look live. */
  function Dressed<S>(
    s: State<S>, target: Name, slot: Option<string>, planned: map<Name, Plan>, calm: S -> S, now: int): State<S>
  {
    s.(slots := if slot.Some? then s.slots[target := slot.value] else s.slots,
       classes := PlannedClasses(s.classes, planned),
       nodes := Calmed(s.nodes, planned, calm),
       updatedUnix := now)
  }

  /** The state written to disk before anything live changes. `calm` clears a node's
      health-failure streak. */
  function NextState<S>(
    s: State<S>, previous: map<Name, Source>, next: map<Name, Source>, target: Name, vouched: bool,
    slot: Option<string>, planned: map<Name, Plan>, calm: S -> S, now: int): State<S>
  {
    var reconciled := CatalogApplied(s, previous, next, if vouched then Some(target) else None);
    Dressed(Activated(reconciled, target), target, slot, planned, calm, now)
  }

  /** The state after publication: the staged ports are live now. */
  function WithPorts<S>(s: State<S>, planned: map<Name, Plan>): State<S>
  {
    s.(classes := LiveClasses(s.classes, planned))
  }
}
