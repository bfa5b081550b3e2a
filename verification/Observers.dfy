/** Small timed and counting objects: the accept-error throttle and the session traffic
    counters (src/listener.rs), and the automatic-recovery backoff (src/supervisor.rs). */
module Observers {
  import opened Base

  const U64_MAX: nat := 0xFFFF_FFFF_FFFF_FFFF
  const U32_MAX: nat := 0xFFFF_FFFF

  function Saturating(n: nat, max: nat): nat {
    if n <= max then n else max
  }

  function Since(now: nat, earlier: nat): nat {
    if now >= earlier then now - earlier else 0
  }

  // ---------------------------------------------------------------------------------
  // The throttle. Times are in the unit of the interval's constant, seconds.

  const ACCEPT_ERROR_LOG_INTERVAL: nat := 5

  type Kind = nat

  datatype Fault = Fault(kind: Kind, time: nat)

  datatype Throttle = Throttle(lastKind: Option<Kind>, suppressed: nat, lastLog: nat)

  predicate SameKind(t: Throttle, x: Fault) {
    t.lastKind == Some(x.kind)
  }

  predicate Logs(t: Throttle, x: Fault) {
    !SameKind(t, x) || Since(x.time, t.lastLog) >= ACCEPT_ERROR_LOG_INTERVAL
  }

  function Reports(t: Throttle, x: Fault): nat {
    if SameKind(t, x) then t.suppressed else 0
  }

  function Throttled(t: Throttle, x: Fault): Throttle {
    if Logs(t, x) then Throttle(Some(x.kind), 0, x.time) else t.(suppressed := Saturating(t.suppressed + 1, U64_MAX))
  }

  class AcceptErrorThrottle {
    var lastKind: Option<Kind>
    var suppressed: nat
    var lastLog: nat

    function View(): Throttle
      reads this
    {
      Throttle(lastKind, suppressed, lastLog)
    }

    constructor (now: nat)
      ensures View() == Throttle(None, 0, now)
    {
      lastKind, suppressed, lastLog := None, 0, now;
    }

    method Observe(kind: Kind, now: nat) returns (line: Option<nat>)
      modifies this
      ensures View() == Throttled(old(View()), Fault(kind, now))
      ensures line == if Logs(old(View()), Fault(kind, now)) then Some(Reports(old(View()), Fault(kind, now))) else None
    {
      var sameKind := lastKind == Some(kind);
      var intervalElapsed := Since(now, lastLog) >= ACCEPT_ERROR_LOG_INTERVAL;
      if sameKind && !intervalElapsed {
        suppressed := Saturating(suppressed + 1, U64_MAX);
        return None;
      }
      var report := if sameKind then suppressed else 0;
      suppressed, lastKind, lastLog := 0, Some(kind), now;
      return Some(report);
    }
  }

  /** What a sequence of errors has led to so far. `changes` counts the errors whose kind is
      not that of the error before, the first included. */
  datatype Tally = Tally(throttle: Throttle, lines: nat, changes: nat, reported: nat, dropped: nat)

  function Tallied(start: nat, xs: seq<Fault>): Tally {
    if xs == [] then Tally(Throttle(None, 0, start), 0, 0, 0, 0) else
      var before, x := Tallied(start, xs[..|xs| - 1]), xs[|xs| - 1];
      var t := before.throttle;
      Tally(Throttled(t, x),
            before.lines + if Logs(t, x) then 1 else 0,
            before.changes + if |xs| == 1 || xs[|xs| - 2].kind != x.kind then 1 else 0,
            before.reported + if Logs(t, x) then Reports(t, x) else 0,
            before.dropped + if Logs(t, x) && !SameKind(t, x) then t.suppressed else 0)
  }

  predicate InTime(xs: seq<Fault>) {
    forall i, j | 0 <= i < j < |xs| :: xs[i].time <= xs[j].time
  }

  /** The newest line before error `k`, from the errors alone. */
  function LastLine(xs: seq<Fault>, k: nat): (j: nat)
    requires 0 < k <= |xs|
    ensures j < k
    decreases k, 0
  {
    if LineAt(xs, k - 1) then k - 1 else LastLine(xs, k - 1)
  }

  /** A line is due: for the first error, at a change of kind, and when the interval since the last
      line is over. */
  predicate LineAt(xs: seq<Fault>, k: nat)
    requires k < |xs|
    decreases k, 1
  {
    k == 0 || xs[k - 1].kind != xs[k].kind || xs[k].time >= xs[LastLine(xs, k)].time + ACCEPT_ERROR_LOG_INTERVAL
  }

  /** The throttle's fields, from the errors alone. */
  predicate ThrottleIs(t: Throttle, xs: seq<Fault>, k: nat)
    requires k <= |xs|
  {
    if k == 0 then t.lastKind.None?
    else t == Throttle(Some(xs[k - 1].kind), Saturating(k - 1 - LastLine(xs, k), U64_MAX), xs[LastLine(xs, k)].time)
  }

  lemma {:induction false} ThrottleIsExplained(start: nat, xs: seq<Fault>, k: nat)
    requires InTime(xs) && k <= |xs|
    ensures ThrottleIs(Tallied(start, xs[..k]).throttle, xs, k)
  {
    if k > 0 {
      ThrottleIsExplained(start, xs, k - 1);
      assert xs[..k][..k - 1] == xs[..k - 1];
    }
  }

  /** An error is logged exactly when a line is due, and a line that repeats a kind reports exactly
      the errors left out since the last one. */
  lemma LinesExactly(start: nat, xs: seq<Fault>, k: nat)
    requires InTime(xs) && k < |xs|
    ensures var t := Tallied(start, xs[..k]).throttle;
      && (Logs(t, xs[k]) <==> LineAt(xs, k))
      && Reports(t, xs[k]) == if k == 0 || xs[k - 1].kind != xs[k].kind then 0 else Saturating(k - 1 - LastLine(xs, k), U64_MAX)
  {
    ThrottleIsExplained(start, xs, k);
  }

  /** So while errors keep coming, the log is never silent about them for a whole interval. */
  lemma {:induction false} NeverSilent(xs: seq<Fault>, k: nat)
    requires InTime(xs) && k < |xs| && !LineAt(xs, k)
    ensures k > 0 && LineAt(xs, LastLine(xs, k)) && xs[k].time < xs[LastLine(xs, k)].time + ACCEPT_ERROR_LOG_INTERVAL
    ensures forall m | LastLine(xs, k) <= m <= k :: xs[m].kind == xs[k].kind
  {
    if !LineAt(xs, k - 1) { NeverSilent(xs, k - 1); }
  }

  /** Each line that is not a change of kind has cost at least one interval. */
  lemma {:induction false} LinesCostTime(start: nat, xs: seq<Fault>)
    requires InTime(xs) && xs != []
    ensures var y := Tallied(start, xs);
      && y.throttle.lastKind == Some(xs[|xs| - 1].kind)
      && xs[0].time <= y.throttle.lastLog <= xs[|xs| - 1].time
      && y.changes <= y.lines
      && (y.lines - y.changes) * ACCEPT_ERROR_LOG_INTERVAL <= y.throttle.lastLog - xs[0].time
  {
    var front := xs[..|xs| - 1];
    if front != [] {
      LinesCostTime(start, front);
      assert front[|front| - 1] == xs[|xs| - 2] && front[0] == xs[0];
    } else {
      assert Tallied(start, front) == Tally(Throttle(None, 0, start), 0, 0, 0, 0);
    }
  }

  /** The log-storm bound: at most one line per change of kind, plus one per interval. */
  lemma LogStormIsBounded(start: nat, xs: seq<Fault>)
    requires InTime(xs) && xs != []
    ensures var y := Tallied(start, xs);
      y.changes <= y.lines <= y.changes + (xs[|xs| - 1].time - xs[0].time) / ACCEPT_ERROR_LOG_INTERVAL
  {
    LinesCostTime(start, xs);
  }

  /** No error is lost from the account: each was logged, reported as suppressed, is pending,
      or was dropped when another kind took over. (2^64 errors would saturate the counter.) */
  lemma {:induction false} ErrorsAreAccountedFor(start: nat, xs: seq<Fault>)
    requires |xs| <= U64_MAX
    ensures var y := Tallied(start, xs);
      |xs| == y.lines + y.reported + y.throttle.suppressed + y.dropped
  {
    if xs != [] { ErrorsAreAccountedFor(start, xs[..|xs| - 1]); }
  }

  // ---------------------------------------------------------------------------------
  // The backoff.

  const AUTO_RECOVERY_INITIAL_BACKOFF: nat := 60
  const AUTO_RECOVERY_MAX_BACKOFF: nat := 900

  function Pow2(n: nat): nat {
    if n == 0 then 1 else 2 * Pow2(n - 1)
  }

  /** The delay after `n` failures in a row. */
  function Delay(n: nat): nat
    requires n > 0
  {
    Saturating(AUTO_RECOVERY_INITIAL_BACKOFF * Pow2(n - 1), AUTO_RECOVERY_MAX_BACKOFF)
  }

  class AutoRecoveryBackoff {
    var failures: nat
    var retryNotBefore: Option<nat>

    constructor ()
      ensures failures == 0 && retryNotBefore == None
    {
      failures, retryNotBefore := 0, None;
    }

    predicate IsReadyAt(now: nat)
      reads this
    {
      retryNotBefore.None? || now >= retryNotBefore.value
    }

    method RecordFailureAt(now: nat) returns (delay: nat)
      modifies this
      ensures failures == Saturating(old(failures) + 1, U32_MAX)
      ensures delay == Delay(failures) && retryNotBefore == Some(now + delay)
      ensures forall t: nat :: IsReadyAt(t) <==> t >= now + delay
    {
      failures := Saturating(failures + 1, U32_MAX);
      delay := AUTO_RECOVERY_INITIAL_BACKOFF;
      var doublings := failures - 1;
      while doublings > 0 && delay < AUTO_RECOVERY_MAX_BACKOFF
        invariant 0 <= doublings < failures
        invariant delay == Saturating(AUTO_RECOVERY_INITIAL_BACKOFF * Pow2(failures - 1 - doublings), AUTO_RECOVERY_MAX_BACKOFF)
      {
        delay := Saturating(delay * 2, AUTO_RECOVERY_MAX_BACKOFF);
        doublings := doublings - 1;
        assert Pow2(failures - 1 - doublings) == 2 * Pow2(failures - 2 - doublings);
      }
      Pow2Grows(failures - 1 - doublings, failures - 1);
      retryNotBefore := Some(now + delay);
    }

    method Reset()
      modifies this
      ensures failures == 0 && retryNotBefore == None
      ensures forall t: nat :: IsReadyAt(t)
    {
      failures, retryNotBefore := 0, None;
    }
  }

  lemma {:induction false} Pow2Grows(a: nat, b: nat)
    requires a <= b
    ensures Pow2(a) <= Pow2(b)
    decreases b - a
  {
    if a < b { Pow2Grows(a, b - 1); }
  }

  /** A streak of failures is retried after 1, 2, 4 and 8 minutes and then every 15, so the
      delays never shrink and never exceed the cap. */
  lemma DelaysGrowToTheCap(m: nat, n: nat)
    requires 0 < m <= n
    ensures AUTO_RECOVERY_INITIAL_BACKOFF <= Delay(m) <= Delay(n) <= AUTO_RECOVERY_MAX_BACKOFF
    ensures Delay(n) == AUTO_RECOVERY_MAX_BACKOFF <==> n >= 5
  {
    Pow2Grows(0, m - 1);
    Pow2Grows(m - 1, n - 1);
    assert Pow2(3) == 8 && Pow2(4) == 16;
    if n >= 5 { Pow2Grows(4, n - 1); } else { Pow2Grows(n - 1, 3); }
  }

  // ---------------------------------------------------------------------------------
  // Traffic.

  datatype Bytes = Bytes(up: nat, down: nat)

  datatype Traffic = Traffic(subscription: Option<Name>, nodes: map<Name, Bytes>)

  datatype Event = Add(subscription: Name, node: Name, bytes: Bytes) | Select(profile: Name)

  function BytesOf(t: Traffic, node: Name): Bytes {
    if node in t.nodes then t.nodes[node] else Bytes(0, 0)
  }

  function Plus(a: Bytes, b: Bytes): Bytes {
    Bytes(Saturating(a.up + b.up, U64_MAX), Saturating(a.down + b.down, U64_MAX))
  }

  function Counted(t: Traffic, e: Event): Traffic {
    match e
    case Add(subscription, node, bytes) =>
      if t.subscription != Some(subscription) then t else t.(nodes := t.nodes[node := Plus(BytesOf(t, node), bytes)])
    case Select(profile) => if t.subscription == Some(profile) then t else Traffic(Some(profile), map[])
  }

  class TrafficCounters {
    var subscription: Option<Name>
    var nodes: map<Name, Bytes>

    function View(): Traffic
      reads this
    {
      Traffic(subscription, nodes)
    }

    constructor ()
      ensures View() == Traffic(None, map[])
    {
      subscription, nodes := None, map[];
    }

    method AddBytes(profile: Name, node: Name, bytes: Bytes)
      modifies this
      ensures View() == Counted(old(View()), Add(profile, node, bytes))
    {
      if subscription != Some(profile) { return; }
      var entry := if node in nodes then nodes[node] else Bytes(0, 0);
      nodes := nodes[node := Plus(entry, bytes)];
    }

    method SelectSubscription(profile: Name)
      modifies this
      ensures View() == Counted(old(View()), Select(profile))
    {
      if subscription != Some(profile) {
        nodes := map[];
        subscription := Some(profile);
      }
    }
  }

  function After(es: seq<Event>): Traffic {
    if es == [] then Traffic(None, map[]) else Counted(After(es[..|es| - 1]), es[|es| - 1])
  }

  /** The profile selected last. */
  function Selected(es: seq<Event>): Option<Name> {
    if es == [] then None
    else match es[|es| - 1] case Select(p) => Some(p) case Add(_, _, _) => Selected(es[..|es| - 1])
  }

  /** Where the selection last changed: the events from here on happened under it. */
  function Boundary(es: seq<Event>): (b: nat)
    ensures b <= |es|
  {
    if es == [] then 0 else
      var front := es[..|es| - 1];
      if es[|es| - 1].Select? && Selected(front) != Some(es[|es| - 1].profile) then |es| else Boundary(front)
  }

  /** The bytes that the events from `from` on attribute to a node of a profile. */
  function Attributed(es: seq<Event>, from: nat, profile: Name, node: Name): Bytes
    requires from <= |es|
    decreases |es|
  {
    if from == |es| then Bytes(0, 0) else
      var before := Attributed(es[..|es| - 1], from, profile, node);
      var last := es[|es| - 1];
      if last.Add? && last.subscription == profile && last.node == node
      then Bytes(before.up + last.bytes.up, before.down + last.bytes.down) else before
  }

  /** The counters show, per node, exactly the bytes attributed to the selected profile since
      its selection, up to saturation: late bytes of a retired profile never count. */
  lemma {:induction false} CountersShowOwnBytes(es: seq<Event>, node: Name)
    ensures After(es).subscription == Selected(es)
    ensures if Selected(es).None? then After(es).nodes == map[] else
      var own := Attributed(es, Boundary(es), Selected(es).value, node);
      BytesOf(After(es), node) == Bytes(Saturating(own.up, U64_MAX), Saturating(own.down, U64_MAX))
  {
    if es != [] {
      CountersShowOwnBytes(es[..|es| - 1], node);
    }
  }
}
