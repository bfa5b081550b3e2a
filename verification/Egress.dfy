/** Egress observation (src/egress.rs): the signature of the preferred default routes, and
    the observer that debounces its changes. */
module Egress {
  import opened Base
  import opened Candidates

  datatype DefaultRoute = DefaultRoute(iface: string, gateway: string, metric: nat)

  datatype Signature = Signature(ipv4: seq<DefaultRoute>, ipv6: seq<DefaultRoute>)

  predicate HasDefaultRoute(s: Signature) {
    s.ipv4 != [] || s.ipv6 != []
  }

  datatype Observation = Observation(signature: Signature, time: nat)

  datatype Observer = Observer(baseline: Option<Signature>, candidate: Option<Observation>, lastTransition: Option<nat>)

  datatype Limits = Limits(stableFor: nat, cooldown: nat)

  /** `Instant::duration_since`: a clock that went backwards counts as no time passed. */
  function Since(now: nat, earlier: nat): nat {
    if now >= earlier then now - earlier else 0
  }

  predicate CoolingDown(o: Observer, now: nat, limits: Limits) {
    o.lastTransition.Some? && Since(now, o.lastTransition.value) < limits.cooldown
  }

  predicate Confirms(o: Observer, x: Observation, limits: Limits) {
    && o.baseline.Some? && o.baseline != Some(x.signature) && !CoolingDown(o, x.time, limits)
    && o.candidate.Some? && o.candidate.value.signature == x.signature
    && Since(x.time, o.candidate.value.time) >= limits.stableFor
  }

  /** The signature delivered for an observation, if any. */
  function Delivered(o: Observer, x: Observation, limits: Limits): Option<Signature> {
    if Confirms(o, x, limits) && HasDefaultRoute(x.signature) then Some(x.signature) else None
  }

  function Observed(o: Observer, x: Observation, limits: Limits): Observer {
    if o.baseline.None? then o.(baseline := Some(x.signature))
    else if o.baseline == Some(x.signature) then o.(candidate := None)
    else if CoolingDown(o, x.time, limits) then o.(baseline := Some(x.signature), candidate := None)
    else if Confirms(o, x, limits) then
      Observer(Some(x.signature), None, if HasDefaultRoute(x.signature) then Some(x.time) else o.lastTransition)
    else if o.candidate.Some? && o.candidate.value.signature == x.signature then o
    else o.(candidate := Some(x))
  }

  class StableEgressObserver {
    const limits: Limits
    var baseline: Option<Signature>
    var candidate: Option<Observation>
    var lastTransition: Option<nat>

    function View(): Observer
      reads this
    {
      Observer(baseline, candidate, lastTransition)
    }

    constructor (limits: Limits)
      ensures View() == Observer(None, None, None) && this.limits == limits
    {
      this.limits := limits;
      baseline, candidate, lastTransition := None, None, None;
    }

    method Observe(signature: Signature, now: nat) returns (delivered: Option<Signature>)
      modifies this
      ensures View() == Observed(old(View()), Observation(signature, now), limits)
      ensures delivered == Delivered(old(View()), Observation(signature, now), limits)
    {
      if baseline.None? {
        baseline := Some(signature);
        return None;
      }
      if baseline.value == signature {
        candidate := None;
        return None;
      }
      if lastTransition.Some? && Since(now, lastTransition.value) < limits.cooldown {
        baseline, candidate := Some(signature), None;
        return None;
      }
      if candidate.None? || candidate.value.signature != signature {
        candidate := Some(Observation(signature, now));
        return None;
      }
      if Since(now, candidate.value.time) < limits.stableFor { return None; }
      var confirmed := candidate.value.signature;
      candidate := None;
      baseline := Some(confirmed);
      if HasDefaultRoute(confirmed) {
        lastTransition := Some(now);
        return Some(confirmed);
      }
      return None;
    }
  }

  // ---------------------------------------------------------------------------------
  // All observation sequences, as someone sees them who knows only the observations.

  /** Where the unbroken run of equal signatures that ends at `k` began. */
  function RunStart(obs: seq<Observation>, k: nat): (i: nat)
    requires k < |obs|
    ensures i <= k && (i > 0 ==> obs[i - 1].signature != obs[k].signature)
    ensures forall m | i <= m <= k :: obs[m].signature == obs[k].signature
  {
    if k > 0 && obs[k - 1].signature == obs[k].signature then RunStart(obs, k - 1) else k
  }

  /** The run that ends at `k` has been seen for at least `stableFor`. */
  predicate Lasted(obs: seq<Observation>, k: nat, limits: Limits)
    requires k < |obs|
  {
    RunStart(obs, k) < k && obs[k].time - obs[RunStart(obs, k)].time >= limits.stableFor
  }

  /** The newest delivery before observation `k`. */
  function LastDelivery(obs: seq<Observation>, k: nat, limits: Limits): (j: Option<nat>)
    requires k <= |obs|
    ensures j.Some? ==> j.value < k
    decreases k, 0
  {
    if k == 0 then None else if Delivers(obs, k - 1, limits) then Some(k - 1) else LastDelivery(obs, k - 1, limits)
  }

  /** The cooldown of the newest delivery is not over. */
  predicate TooSoon(obs: seq<Observation>, k: nat, limits: Limits)
    requires k < |obs|
    decreases k, 1
  {
    var j := LastDelivery(obs, k, limits);
    j.Some? && obs[k].time < obs[j.value].time + limits.cooldown
  }

  /** The signature counts as the current one: it was the first, its run began too soon after a
      delivery, or it has lasted. */
  predicate Settled(obs: seq<Observation>, k: nat, limits: Limits)
    requires k < |obs|
    decreases k, 2
  {
    RunStart(obs, k) == 0 || TooSoon(obs, RunStart(obs, k), limits) || Lasted(obs, k, limits)
  }

  /** The current signature before observation `k`. */
  function Accepted(obs: seq<Observation>, k: nat, limits: Limits): Option<Signature>
    requires k <= |obs|
    decreases k, 0
  {
    if k == 0 then None
    else if Settled(obs, k - 1, limits) then Some(obs[k - 1].signature) else Accepted(obs, k - 1, limits)
  }

  /** A delivery is due: for the first time, a run that is not the first, began outside every
      cooldown and does not show what was current, has lasted; and there is a default route. */
  predicate Delivers(obs: seq<Observation>, k: nat, limits: Limits)
    requires k < |obs|
    decreases k, 3
  {
    && Lasted(obs, k, limits) && !Lasted(obs, k - 1, limits)
    && RunStart(obs, k) > 0 && !TooSoon(obs, RunStart(obs, k), limits)
    && Accepted(obs, RunStart(obs, k), limits) != Some(obs[k].signature)
    && (obs[k].signature.ipv4 != [] || obs[k].signature.ipv6 != [])
  }

  predicate StepAt(obs: seq<Observation>, os: seq<Observer>, k: nat, limits: Limits)
    requires k < |obs| && |os| == |obs| + 1
  {
    os[k + 1] == Observed(os[k], obs[k], limits)
  }

  /** `os[k]` is a new observer after the first `k` of the observations, in time order. */
  ghost predicate IsTrace(obs: seq<Observation>, os: seq<Observer>, limits: Limits) {
    && |os| == |obs| + 1 && os[0] == Observer(None, None, None)
    && (forall k | 0 <= k < |obs| :: StepAt(obs, os, k, limits))
    && (forall i, j | 0 <= i < j < |obs| :: obs[i].time <= obs[j].time)
  }

  ghost predicate InTime(obs: seq<Observation>) {
    forall i, j | 0 <= i < j < |obs| :: obs[i].time <= obs[j].time
  }

  /** Once a run is settled it stays so, and until then nothing new is accepted. */
  lemma {:induction false} AcceptedInRun(obs: seq<Observation>, i: nat, k: nat, limits: Limits)
    requires i <= k < |obs| && RunStart(obs, k) == i && InTime(obs)
    ensures Accepted(obs, k + 1, limits) == if Settled(obs, k, limits) then Some(obs[k].signature) else Accepted(obs, i, limits)
  {
    if i < k { AcceptedInRun(obs, i, k - 1, limits); }
  }

  /** The cooldown runs from the newest delivery. */
  function TransitionTime(obs: seq<Observation>, n: nat, limits: Limits): Option<nat>
    requires n <= |obs|
  {
    var j := LastDelivery(obs, n, limits);
    if j.Some? then Some(obs[j.value].time) else None
  }

  /** The observer's fields, from the observations alone. */
  ghost predicate Explained(obs: seq<Observation>, o: Observer, n: nat, limits: Limits)
    requires n <= |obs|
  {
    && o.baseline == Accepted(obs, n, limits) && o.lastTransition == TransitionTime(obs, n, limits)
    && (n == 0 ==> o.candidate == None)
    && (n > 0 ==> o.candidate == if o.baseline == Some(obs[n - 1].signature) then None else Some(obs[RunStart(obs, n - 1)]))
  }

  lemma CoolsDownExactly(obs: seq<Observation>, o: Observer, n: nat, limits: Limits)
    requires n < |obs| && InTime(obs) && o.lastTransition == TransitionTime(obs, n, limits)
    ensures CoolingDown(o, obs[n].time, limits) <==> TooSoon(obs, n, limits)
  {}

  lemma {:induction false} SameRun(obs: seq<Observation>, m: nat, k: nat)
    requires k < |obs| && RunStart(obs, k) <= m <= k
    ensures RunStart(obs, m) == RunStart(obs, k)
  {
    if m < k { SameRun(obs, m, k - 1); }
  }

  /** Until a run has lasted, nothing is delivered in it. */
  lemma NothingBeforeItLasts(obs: seq<Observation>, k: nat, limits: Limits)
    requires k < |obs| && InTime(obs) && !Lasted(obs, k, limits)
    ensures forall j | RunStart(obs, k) <= j <= k :: !Delivers(obs, j, limits)
  {
    forall j | RunStart(obs, k) <= j <= k ensures !Delivers(obs, j, limits) {
      SameRun(obs, j, k);
    }
  }

  /** The next observation goes on with a run that is settled already. */
  lemma SettledRunGoesOn(obs: seq<Observation>, n: nat, limits: Limits)
    requires 0 < n < |obs| && InTime(obs) && RunStart(obs, n) < n && Accepted(obs, n, limits) == Some(obs[n].signature)
    ensures !Delivers(obs, n, limits) && Accepted(obs, n + 1, limits) == Accepted(obs, n, limits)
  {
    AcceptedInRun(obs, RunStart(obs, n), n - 1, limits);
  }

  /** The next observation goes on with a run that is not settled yet. */
  predicate Open(obs: seq<Observation>, n: nat, limits: Limits)
    requires n < |obs|
  {
    0 < n && RunStart(obs, n) < n && Accepted(obs, n, limits) != Some(obs[n].signature)
  }

  lemma OpenIsUnsettled(obs: seq<Observation>, n: nat, limits: Limits)
    requires n < |obs| && InTime(obs) && Open(obs, n, limits)
    ensures Accepted(obs, n, limits) == Accepted(obs, RunStart(obs, n), limits)
    ensures RunStart(obs, n) > 0 && !TooSoon(obs, RunStart(obs, n), limits) && !Lasted(obs, n - 1, limits)
  {
    AcceptedInRun(obs, RunStart(obs, n), n - 1, limits);
  }

  lemma {:induction false} SameLastDelivery(obs: seq<Observation>, i: nat, n: nat, limits: Limits)
    requires i <= n <= |obs| && forall j | i <= j < n :: !Delivers(obs, j, limits)
    ensures LastDelivery(obs, n, limits) == LastDelivery(obs, i, limits)
  {
    if i < n { SameLastDelivery(obs, i, n - 1, limits); }
  }

  lemma StillNotTooSoon(obs: seq<Observation>, n: nat, limits: Limits)
    requires 0 < n < |obs| && InTime(obs) && RunStart(obs, n) < n
    requires !TooSoon(obs, RunStart(obs, n), limits) && !Lasted(obs, n - 1, limits)
    ensures !TooSoon(obs, n, limits)
  {
    SameRun(obs, n - 1, n);
    NothingBeforeItLasts(obs, n - 1, limits);
    SameLastDelivery(obs, RunStart(obs, n), n, limits);
  }

  lemma {:induction false} LastIsNewest(obs: seq<Observation>, j: nat, k: nat, limits: Limits)
    requires j < k <= |obs| && Delivers(obs, j, limits)
    ensures LastDelivery(obs, k, limits).Some? && j <= LastDelivery(obs, k, limits).value
  {
    if j < k - 1 { LastIsNewest(obs, j, k - 1, limits); }
  }

  lemma OpenRunGoesOn(obs: seq<Observation>, n: nat, limits: Limits)
    requires n < |obs| && InTime(obs) && Open(obs, n, limits)
    ensures Accepted(obs, n + 1, limits) == if Lasted(obs, n, limits) then Some(obs[n].signature) else Accepted(obs, n, limits)
    ensures Delivers(obs, n, limits) <==> Lasted(obs, n, limits) && (obs[n].signature.ipv4 != [] || obs[n].signature.ipv6 != [])
  {
    OpenIsUnsettled(obs, n, limits);
  }

  /** The next observation starts a run. */
  lemma RunBegins(obs: seq<Observation>, n: nat, limits: Limits)
    requires 0 < n < |obs| && RunStart(obs, n) == n
    ensures !Delivers(obs, n, limits)
    ensures Accepted(obs, n + 1, limits) == if TooSoon(obs, n, limits) then Some(obs[n].signature) else Accepted(obs, n, limits)
  {}

  predicate Follows(obs: seq<Observation>, o: Observer, n: nat, limits: Limits)
    requires n < |obs|
  {
    && Observed(o, obs[n], limits).baseline == Accepted(obs, n + 1, limits)
    && Observed(o, obs[n], limits).lastTransition == (if Delivers(obs, n, limits) then Some(obs[n].time) else o.lastTransition)
    && Observed(o, obs[n], limits).candidate
       == (if Accepted(obs, n + 1, limits) == Some(obs[n].signature) then None else Some(obs[RunStart(obs, n)]))
    && Delivered(o, obs[n], limits) == if Delivers(obs, n, limits) then Some(obs[n].signature) else None
  }

  lemma FirstFollows(obs: seq<Observation>, o: Observer, limits: Limits)
    requires obs != [] && Explained(obs, o, 0, limits)
    ensures Follows(obs, o, 0, limits)
  {}

  lemma BeginningFollows(obs: seq<Observation>, o: Observer, n: nat, limits: Limits)
    requires 0 < n < |obs| && InTime(obs) && Explained(obs, o, n, limits) && RunStart(obs, n) == n
    ensures Follows(obs, o, n, limits)
  {
    CoolsDownExactly(obs, o, n, limits);
    RunBegins(obs, n, limits);
    HasBaseline(obs, n, limits);
  }

  lemma SettledFollows(obs: seq<Observation>, o: Observer, n: nat, limits: Limits)
    requires 0 < n < |obs| && InTime(obs) && Explained(obs, o, n, limits) && RunStart(obs, n) < n
    requires o.baseline == Some(obs[n].signature)
    ensures Follows(obs, o, n, limits)
  {
    SettledRunGoesOn(obs, n, limits);
  }

  lemma OpenFollows(obs: seq<Observation>, o: Observer, n: nat, limits: Limits)
    requires 0 < n < |obs| && InTime(obs) && Explained(obs, o, n, limits) && RunStart(obs, n) < n
    requires o.baseline != Some(obs[n].signature)
    ensures Follows(obs, o, n, limits)
  {
    CoolsDownExactly(obs, o, n, limits);
    OpenIsUnsettled(obs, n, limits);
    StillNotTooSoon(obs, n, limits);
    OpenRunGoesOn(obs, n, limits);
    HasBaseline(obs, n, limits);
    assert RunStart(obs, n) == RunStart(obs, n - 1);
  }

  lemma {:induction false} HasBaseline(obs: seq<Observation>, n: nat, limits: Limits)
    requires 0 < n <= |obs|
    ensures Accepted(obs, n, limits).Some?
  {
    if n > 1 { HasBaseline(obs, n - 1, limits); }
  }

  /** One observation: the observer does what the observations so far call for. */
  lemma StepIsExplained(obs: seq<Observation>, o: Observer, n: nat, limits: Limits)
    requires n < |obs| && InTime(obs) && Explained(obs, o, n, limits)
    ensures Explained(obs, Observed(o, obs[n], limits), n + 1, limits) && Follows(obs, o, n, limits)
  {
    if n == 0 {
      FirstFollows(obs, o, limits);
    } else if RunStart(obs, n) == n {
      BeginningFollows(obs, o, n, limits);
    } else if o.baseline == Some(obs[n].signature) {
      SettledFollows(obs, o, n, limits);
    } else {
      OpenFollows(obs, o, n, limits);
    }
  }

  lemma {:induction false} TraceIsExplained(obs: seq<Observation>, os: seq<Observer>, n: nat, limits: Limits)
    requires n <= |obs| && IsTrace(obs, os, limits)
    ensures Explained(obs, os[n], n, limits)
  {
    if n > 0 {
      var k := n - 1;
      TraceIsExplained(obs, os, k, limits);
      StepIsExplained(obs, os[k], k, limits);
      assert StepAt(obs, os, k, limits);
    }
  }

  /** The observer delivers a signature exactly when the observations say that one is due. */
  lemma DeliversExactly(obs: seq<Observation>, os: seq<Observer>, k: nat, limits: Limits)
    requires k < |obs| && IsTrace(obs, os, limits)
    ensures Delivered(os[k], obs[k], limits) == if Delivers(obs, k, limits) then Some(obs[k].signature) else None
  {
    TraceIsExplained(obs, os, k, limits);
    StepIsExplained(obs, os[k], k, limits);
  }

  predicate DeliveredAt(obs: seq<Observation>, os: seq<Observer>, k: nat, limits: Limits)
    requires k < |obs| && |os| == |obs| + 1
  {
    Delivered(os[k], obs[k], limits).Some?
  }

  /** A different signature was seen just before `i`, and none but this one since. */
  predicate ChangedAt(obs: seq<Observation>, i: nat, k: nat)
    requires 0 < i <= k < |obs|
  {
    obs[i - 1].signature != obs[k].signature && forall m | i <= m <= k :: obs[m].signature == obs[k].signature
  }

  /** What is delivered has a default route and was seen in an unbroken run of equal observations
      that follows a different one, so it is never what was seen first. The run has lasted
      `stableFor` and began only after the cooldown of every earlier delivery: what is seen during
      a cooldown is folded into what counts as current. */
  lemma DeliveryIsStable(obs: seq<Observation>, os: seq<Observer>, k: nat, limits: Limits)
    requires k < |obs| && IsTrace(obs, os, limits) && DeliveredAt(obs, os, k, limits)
    ensures Delivered(os[k], obs[k], limits) == Some(obs[k].signature) && (obs[k].signature.ipv4 != [] || obs[k].signature.ipv6 != [])
    ensures exists i ::
      && 0 < i < k && ChangedAt(obs, i, k)
      && obs[k].time - obs[i].time >= limits.stableFor
      && forall j | 0 <= j < k && DeliveredAt(obs, os, j, limits) :: obs[i].time >= obs[j].time + limits.cooldown
  {
    DeliversExactly(obs, os, k, limits);
    var i := RunStart(obs, k);
    NothingBeforeItLasts(obs, k - 1, limits);
    forall j | 0 <= j < k && DeliveredAt(obs, os, j, limits) ensures obs[i].time >= obs[j].time + limits.cooldown {
      DeliversExactly(obs, os, j, limits);
      LastIsNewest(obs, j, i, limits);
    }
  }

  /** Any two deliveries are at least `cooldown + stableFor` apart. */
  lemma DeliveriesAreApart(obs: seq<Observation>, os: seq<Observer>, j: nat, k: nat, limits: Limits)
    requires j < k < |obs| && IsTrace(obs, os, limits) && DeliveredAt(obs, os, j, limits) && DeliveredAt(obs, os, k, limits)
    ensures obs[k].time - obs[j].time >= limits.cooldown + limits.stableFor
  {
    DeliveryIsStable(obs, os, k, limits);
  }

  lemma {:induction false} FirstLasting(obs: seq<Observation>, k: nat, limits: Limits) returns (j: nat)
    requires k < |obs| && Lasted(obs, k, limits)
    ensures RunStart(obs, k) < j <= k && RunStart(obs, j) == RunStart(obs, k)
    ensures Lasted(obs, j, limits) && !Lasted(obs, j - 1, limits)
  {
    if Lasted(obs, k - 1, limits) { j := FirstLasting(obs, k - 1, limits); } else { j := k; }
  }

  /** And no lasting change is missed: a run of equal observations that begins outside the
      cooldown, does not show what is current, has a default route and lasts is delivered in it. */
  lemma LastingChangeIsDelivered(obs: seq<Observation>, os: seq<Observer>, k: nat, limits: Limits) returns (j: nat)
    requires k < |obs| && IsTrace(obs, os, limits) && Lasted(obs, k, limits)
    requires RunStart(obs, k) > 0 && !TooSoon(obs, RunStart(obs, k), limits)
    requires Accepted(obs, RunStart(obs, k), limits) != Some(obs[k].signature)
    requires obs[k].signature.ipv4 != [] || obs[k].signature.ipv6 != []
    ensures RunStart(obs, k) < j <= k && Delivered(os[j], obs[j], limits) == Some(obs[k].signature)
  {
    j := FirstLasting(obs, k, limits);
    DeliversExactly(obs, os, j, limits);
  }

  // ---------------------------------------------------------------------------------
  // The preferred routes of one address family.

  function MinMetric(routes: seq<DefaultRoute>): (m: nat)
    requires routes != []
    ensures forall r | r in routes :: m <= r.metric
    ensures exists r :: r in routes && r.metric == m
  {
    if |routes| == 1 then routes[0].metric else
      var m := MinMetric(routes[1..]);
      assert routes == [routes[0]] + routes[1..];
      if routes[0].metric < m then routes[0].metric else m
  }

  /** The derived order of the records: interface, gateway, metric. */
  predicate RouteLess(a: DefaultRoute, b: DefaultRoute) {
    NameLess(a.iface, b.iface) ||
    (a.iface == b.iface && (NameLess(a.gateway, b.gateway) || (a.gateway == b.gateway && a.metric < b.metric)))
  }

  function Keep(routes: seq<DefaultRoute>, metric: nat): seq<DefaultRoute> {
    if routes == [] then [] else (if routes[0].metric == metric then [routes[0]] else []) + Keep(routes[1..], metric)
  }

  function Insert(r: DefaultRoute, sorted: seq<DefaultRoute>): seq<DefaultRoute> {
    if sorted == [] || !RouteLess(sorted[0], r) then [r] + sorted else [sorted[0]] + Insert(r, sorted[1..])
  }

  function Sort(routes: seq<DefaultRoute>): seq<DefaultRoute> {
    if routes == [] then [] else Insert(routes[0], Sort(routes[1..]))
  }

  /** Only neighbours are compared. */
  function Dedup(routes: seq<DefaultRoute>): seq<DefaultRoute> {
    if |routes| <= 1 then routes
    else if routes[0] == routes[1] then Dedup(routes[1..]) else [routes[0]] + Dedup(routes[1..])
  }

  function Preferred(routes: seq<DefaultRoute>): seq<DefaultRoute> {
    if routes == [] then [] else Dedup(Sort(Keep(routes, MinMetric(routes))))
  }

  /** The routes that count: those of the lowest metric. */
  function Best(routes: seq<DefaultRoute>): set<DefaultRoute> {
    set r | r in routes && forall q | q in routes :: r.metric <= q.metric
  }

  predicate Ascending(routes: seq<DefaultRoute>) {
    forall i, j | 0 <= i < j < |routes| :: !RouteLess(routes[j], routes[i])
  }

  predicate Strictly(routes: seq<DefaultRoute>) {
    forall i, j | 0 <= i < j < |routes| :: RouteLess(routes[i], routes[j])
  }

  lemma RouteOrderIsTotal(a: DefaultRoute, b: DefaultRoute)
    ensures RouteLess(a, b) || RouteLess(b, a) || a == b
    ensures !(RouteLess(a, b) && RouteLess(b, a))
  {
    NameOrderIsTotal(a.iface, b.iface);
    NameOrderIsTotal(a.gateway, b.gateway);
  }

  lemma RouteOrderIsTransitive(a: DefaultRoute, b: DefaultRoute, c: DefaultRoute)
    requires RouteLess(a, b) && RouteLess(b, c)
    ensures RouteLess(a, c)
  {
    if NameLess(a.iface, b.iface) && NameLess(b.iface, c.iface) { NameOrderIsTransitive(a.iface, b.iface, c.iface); }
    if NameLess(a.gateway, b.gateway) && NameLess(b.gateway, c.gateway) { NameOrderIsTransitive(a.gateway, b.gateway, c.gateway); }
  }

  lemma {:induction false} KeepElements(routes: seq<DefaultRoute>, metric: nat)
    ensures forall r :: r in Keep(routes, metric) <==> r in routes && r.metric == metric
  {
    if routes != [] {
      KeepElements(routes[1..], metric);
      assert routes == [routes[0]] + routes[1..];
    }
  }

  lemma {:induction false} InsertAscends(r: DefaultRoute, sorted: seq<DefaultRoute>)
    requires Ascending(sorted)
    ensures Ascending(Insert(r, sorted)) && forall x :: x in Insert(r, sorted) <==> x == r || x in sorted
  {
    if sorted != [] {
      var tail := sorted[1..];
      InsertAscends(r, tail);
      assert sorted == [sorted[0]] + tail;
      if RouteLess(sorted[0], r) {
        RouteOrderIsTotal(sorted[0], r);
        forall j | 0 <= j < |Insert(r, tail)| ensures !RouteLess(Insert(r, tail)[j], sorted[0]) {
          assert Insert(r, tail)[j] == r || Insert(r, tail)[j] in tail;
        }
      } else {
        forall j | 0 <= j < |sorted| ensures !RouteLess(sorted[j], r) {
          if RouteLess(sorted[j], r) {
            RouteOrderIsTotal(sorted[0], sorted[j]);
            if RouteLess(sorted[0], sorted[j]) { RouteOrderIsTransitive(sorted[0], sorted[j], r); }
          }
        }
      }
    }
  }

  lemma {:induction false} SortAscends(routes: seq<DefaultRoute>)
    ensures Ascending(Sort(routes)) && forall r :: r in Sort(routes) <==> r in routes
  {
    if routes != [] {
      SortAscends(routes[1..]);
      InsertAscends(routes[0], Sort(routes[1..]));
      assert routes == [routes[0]] + routes[1..];
    }
  }

  lemma {:induction false} DedupIsStrict(routes: seq<DefaultRoute>)
    requires Ascending(routes)
    ensures Strictly(Dedup(routes)) && forall r :: r in Dedup(routes) <==> r in routes
  {
    if |routes| > 1 {
      var tail := routes[1..];
      DedupIsStrict(tail);
      assert routes == [routes[0]] + tail;
      if routes[0] != routes[1] {
        forall j | 0 <= j < |Dedup(tail)| ensures RouteLess(routes[0], Dedup(tail)[j]) {
          assert Dedup(tail)[j] in tail;
          var k :| 1 <= k < |routes| && routes[k] == Dedup(tail)[j];
          RouteOrderIsTotal(routes[0], routes[1]);
          RouteOrderIsTotal(routes[0], routes[k]);
          RouteOrderIsTotal(routes[1], routes[k]);
        }
      }
    }
  }

  lemma HeadIsNotInTail(xs: seq<DefaultRoute>)
    requires Strictly(xs) && xs != []
    ensures xs[0] !in xs[1..]
  {
    forall k | 1 <= k < |xs| ensures xs[k] != xs[0] {
      assert RouteLess(xs[0], xs[k]);
      RouteOrderIsTotal(xs[0], xs[k]);
    }
  }

  lemma {:induction false} StrictListsAreSets(a: seq<DefaultRoute>, b: seq<DefaultRoute>)
    requires Strictly(a) && Strictly(b) && forall r :: r in a <==> r in b
    ensures a == b
  {
    assert a != [] ==> a[0] in a && a[0] in b;
    assert b != [] ==> b[0] in b && b[0] in a;
    if a != [] && b != [] {
      RouteOrderIsTotal(a[0], b[0]);
      assert a[0] == b[0];
      assert a == [a[0]] + a[1..] && b == [b[0]] + b[1..];
      HeadIsNotInTail(a);
      HeadIsNotInTail(b);
      forall r ensures r in a[1..] <==> r in b[1..] { assert r in a <==> r in b; }
      StrictListsAreSets(a[1..], b[1..]);
    }
  }

  lemma PreferredIsBest(routes: seq<DefaultRoute>)
    ensures Strictly(Preferred(routes)) && forall r :: r in Preferred(routes) <==> r in Best(routes)
  {
    if routes != [] {
      KeepElements(routes, MinMetric(routes));
      SortAscends(Keep(routes, MinMetric(routes)));
      DedupIsStrict(Sort(Keep(routes, MinMetric(routes))));
    }
  }

  /** Two routing tables have the same signature exactly when they have the same routes of
      lowest metric: order, repetition and worse backup routes do not matter. */
  lemma PreferredIsCanonical(a: seq<DefaultRoute>, b: seq<DefaultRoute>)
    ensures Preferred(a) == Preferred(b) <==> Best(a) == Best(b)
  {
    PreferredIsBest(a);
    PreferredIsBest(b);
    if Best(a) == Best(b) {
      StrictListsAreSets(Preferred(a), Preferred(b));
    } else if Preferred(a) == Preferred(b) {
      assert forall r :: r in Best(a) <==> r in Best(b);
    }
  }

  lemma BackupRoutesDoNotMatter(routes: seq<DefaultRoute>, backup: DefaultRoute, best: DefaultRoute)
    requires best in routes && best.metric < backup.metric
    ensures Preferred(routes + [backup]) == Preferred(routes)
  {
    PreferredIsCanonical(routes + [backup], routes);
    assert Best(routes + [backup]) == Best(routes) by {
      forall r ensures r in Best(routes + [backup]) <==> r in Best(routes) {
        assert best in routes + [backup];
      }
    }
  }
}
