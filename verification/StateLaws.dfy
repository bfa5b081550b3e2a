/** What the persistent state promises: it is a plain profile-to-statistics map under
    every sequence of operations, and it survives a save and a load unchanged. */
module StateLaws {
  import opened Base
  import opened ProfileState

  /** The invariant documented on the type: one authoritative copy of the active
      statistics, and no statistics without a profile. */
  predicate WellFormed<S>(s: State<S>) {
    && s.version == STATE_VERSION
    && (s.active.Some? ==> s.active.value !in s.inactive)
    && (s.active.None? ==> s.nodes == map[])
  }

  // ---------------------------------------------------------------------------------
  // Refinement of a plain map.

  datatype Plain<S> = Plain(active: Option<Name>, stats: map<Name, map<Name, S>>)

  datatype Op<S> =
    | Activate(profile: Name)
    | Record(node: Name, stats: S)
    | Forget(profile: Name)
    | Invalidate(profile: Name, identity: Source)

  function Abstraction<S>(s: State<S>): Plain<S> {
    Plain(s.active, if s.active.Some? then s.inactive[s.active.value := s.nodes] else s.inactive)
  }

  /** Recording needs an active profile; without one there is nowhere to record. */
  function ApplyOp<S>(s: State<S>, op: Op<S>): State<S> {
    match op
    case Activate(p) => Activated(s, p)
    case Record(n, v) => if s.active.Some? then s.(nodes := s.nodes[n := v]) else s
    case Forget(p) => Removed(s, {p})
    case Invalidate(p, id) => Invalidated(s, {p}, map[p := id])
  }

  /** The same operations on a map from profiles to statistics. */
  function ApplyPlain<S>(m: Plain<S>, op: Op<S>): Plain<S> {
    match op
    case Activate(p) => Plain(Some(p), if p in m.stats then m.stats else m.stats[p := map[]])
    case Record(n, v) =>
      if m.active.Some? && m.active.value in m.stats
      then m.(stats := m.stats[m.active.value := m.stats[m.active.value][n := v]]) else m
    case Forget(p) => Plain(if m.active == Some(p) then None else m.active, m.stats - {p})
    case Invalidate(p, _) =>
      m.(stats := if m.active == Some(p) then m.stats[p := map[]] else m.stats - {p})
  }

  function RunOps<S>(s: State<S>, ops: seq<Op<S>>): State<S> {
    if ops == [] then s else ApplyOp(RunOps(s, ops[..|ops| - 1]), ops[|ops| - 1])
  }

  function RunPlain<S>(m: Plain<S>, ops: seq<Op<S>>): Plain<S> {
    if ops == [] then m else ApplyPlain(RunPlain(m, ops[..|ops| - 1]), ops[|ops| - 1])
  }

  lemma ActivateRefines<S>(s: State<S>, p: Name)
    requires WellFormed(s)
    ensures WellFormed(Activated(s, p))
    ensures Abstraction(Activated(s, p)) == ApplyPlain(Abstraction(s), Activate(p))
  {
    if s.active != Some(p) {
      var parked := Abstraction(s).stats;
      if p in parked {
        assert (parked - {p})[p := parked[p]] == parked;
      } else {
        assert parked - {p} == parked;
      }
    }
  }

  lemma ForgetRefines<S>(s: State<S>, p: Name)
    requires WellFormed(s)
    ensures WellFormed(Removed(s, {p}))
    ensures Abstraction(Removed(s, {p})) == ApplyPlain(Abstraction(s), Forget(p))
  {
    if s.active.Some? {
      var a := s.active.value;
      if a == p {
        assert s.inactive[a := s.nodes] - {p} == s.inactive - {p};
      } else {
        assert s.inactive[a := s.nodes] - {p} == (s.inactive - {p})[a := s.nodes];
      }
    }
  }

  lemma InvalidateRefines<S>(s: State<S>, p: Name, id: Source)
    requires WellFormed(s)
    ensures var s' := Invalidated(s, {p}, map[p := id]);
      WellFormed(s') && Abstraction(s') == ApplyPlain(Abstraction(s), Invalidate(p, id))
  {
    var kept := StatsKept(s.inactive, s.active, {p});
    if s.active == Some(p) {
      assert kept == s.inactive;
      assert s.inactive[p := map[]] == s.inactive[p := s.nodes][p := map[]];
    } else {
      assert kept == s.inactive - {p};
      if s.active.Some? {
        var a := s.active.value;
        assert s.inactive[a := s.nodes] - {p} == (s.inactive - {p})[a := s.nodes];
      }
    }
  }

  lemma StepRefines<S>(s: State<S>, op: Op<S>)
    requires WellFormed(s)
    ensures WellFormed(ApplyOp(s, op))
    ensures Abstraction(ApplyOp(s, op)) == ApplyPlain(Abstraction(s), op)
  {
    match op
    case Activate(p) => ActivateRefines(s, p);
    case Record(n, v) =>
      if s.active.Some? {
        var a := s.active.value;
        assert s.inactive[a := s.nodes][a := s.nodes[n := v]] == s.inactive[a := s.nodes[n := v]];
      }
    case Forget(p) => ForgetRefines(s, p);
    case Invalidate(p, id) => InvalidateRefines(s, p, id);
  }

  /** Over any sequence of activations, recordings, removals and invalidations the flat
      view plus the parked map answer every query as the plain map does, and the active
      profile is never parked as well. */
  lemma {:induction false} StateRefinesPlainMap<S>(s: State<S>, ops: seq<Op<S>>)
    requires WellFormed(s)
    ensures WellFormed(RunOps(s, ops))
    ensures Abstraction(RunOps(s, ops)) == RunPlain(Abstraction(s), ops)
    ensures forall p :: NodesFor(RunOps(s, ops), p) == Lookup(RunPlain(Abstraction(s), ops).stats, p)
  {
    if ops != [] {
      StateRefinesPlainMap(s, ops[..|ops| - 1]);
      StepRefines(RunOps(s, ops[..|ops| - 1]), ops[|ops| - 1]);
    }
  }

  // ---------------------------------------------------------------------------------
  // The wire form.

  datatype Wire<S> =
    | WireV1(updatedUnix: int, classes: map<Name, ClassState>, nodes: map<Name, S>)
    | WireV2(updatedUnix: int, active: Option<Name>, classes: map<Name, ClassState>,
             profiles: map<Name, map<Name, S>>, verdicts: map<Name, map<Name, string>>,
             slots: map<Name, string>, identities: map<Name, Source>, pending: map<Name, Source>)
    | WireOther(otherVersion: nat)

  datatype SaveError = NeedsMigration | UnboundNodes

  datatype LoadError = BadShape | UnsupportedVersion(version: nat) | InvalidCacheSlot | MissingActiveSubscription(name: Name)

  function PersistedSubscriptionNodes<S>(s: State<S>): Result<map<Name, map<Name, S>>, SaveError> {
    if s.version != STATE_VERSION then Err(NeedsMigration)
    else match s.active
      case Some(a) => Ok(s.inactive[a := s.nodes])
      case None => if s.nodes != map[] then Err(UnboundNodes) else Ok(s.inactive)
  }

  function Save<S>(s: State<S>): Result<Wire<S>, SaveError> {
    match PersistedSubscriptionNodes(s)
    case Err(e) => Err(e)
    case Ok(all) =>
      Ok(WireV2(s.updatedUnix, s.active, s.classes, all, s.verdicts, s.slots, s.identities, s.pending))
  }

  predicate SlotsValid(slots: map<Name, string>) {
    forall p | p in slots :: slots[p] == CACHE_SLOT_A || slots[p] == CACHE_SLOT_B
  }

  function Load<S>(w: Wire<S>): Result<State<S>, LoadError> {
    match w
    case WireV1(updated, classes, nodes) =>
      Ok(State(LEGACY_STATE_VERSION, updated, None, classes, nodes, map[], map[], map[], map[], map[]))
    case WireV2(updated, active, classes, profiles, verdicts, slots, identities, pending) =>
      if !SlotsValid(slots) then Err(InvalidCacheSlot)
      else (match active
        case Some(a) =>
          if a !in profiles then Err(MissingActiveSubscription(a))
          else Ok(State(STATE_VERSION, updated, active, classes, profiles[a], slots, identities, pending, profiles - {a}, verdicts))
        case None =>
          Ok(State(STATE_VERSION, updated, None, classes, map[], slots, identities, pending, profiles, verdicts)))
    case WireOther(v) =>
      if v == LEGACY_STATE_VERSION || v == STATE_VERSION then Err(BadShape) else Err(UnsupportedVersion(v))
  }

  /** A state survives a save and a load exactly when it is well formed and names only
      real cache slots. */
  lemma SaveThenLoad<S>(s: State<S>)
    ensures (Save(s).Ok? && Load(Save(s).value) == Ok(s)) <==> (WellFormed(s) && SlotsValid(s.slots))
  {
    if WellFormed(s) && s.active.Some? {
      assert s.inactive[s.active.value := s.nodes] - {s.active.value} == s.inactive;
    }
  }

  /** Whatever a load accepts is well formed, and a version-2 file is reproduced by the
      next save. */
  lemma LoadThenSave<S>(w: Wire<S>)
    requires Load(w).Ok? && w.WireV2?
    ensures WellFormed(Load(w).value) && SlotsValid(Load(w).value.slots)
    ensures Save(Load(w).value) == Ok(w)
  {
    if w.active.Some? {
      var a := w.active.value;
      assert (w.profiles - {a})[a := w.profiles[a]] == w.profiles;
    }
  }

  /** A version-1 file cannot be saved back before a profile is chosen for it; once one
      is, its statistics belong to that profile alone and survive the next restart. */
  lemma LegacyMigration<S>(w: Wire<S>, selected: Name)
    requires w.WireV1?
    ensures Load(w).Ok? && Save(Load(w).value) == Err(NeedsMigration)
    ensures var s := Activated(Load(w).value, selected);
      && WellFormed(s)
      && Save(s).Ok? && Load(Save(s).value) == Ok(s)
      && (forall p :: NodesFor(s, p) == if p == selected then Some(w.nodes) else None)
  {
    SaveThenLoad(Activated(Load(w).value, selected));
  }
}
