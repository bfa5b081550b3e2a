/** Node scoring (src/score.rs), with reals for floating point: what the moving averages are
    after any probe history, and exactly when hysteresis lets two nodes replace each other. */
module Scoring {
  import opened Base

  const RTT_HISTORY: nat := 20
  const SUCCESS_TIE_EPS: real := 0.0001
  const SUCCESS_FLOOR: real := 0.05

  datatype Stats = Stats(
    success: real, rtt: Option<real>, recent: seq<real>, healthFailures: nat, probes: nat, lastProbe: Option<int>)

  datatype Probe = Probe(rtt: Option<real>, now: int)

  function DefaultStats(): Stats {
    Stats(0.0, None, [], 0, 0, None)
  }

  predicate IsProbed(s: Stats) {
    s.probes > 0
  }

  /** One probe: its bit is averaged into the success rate, its time, if it has one, into
      the round-trip average and the sparkline. */
  function Recorded(s: Stats, p: Probe, alpha: real): Stats {
    s.(success := if s.probes == 0 then Bit(p) else Blend(alpha, Bit(p), s.success),
       rtt := if p.rtt.None? then s.rtt
              else if s.rtt.None? then p.rtt
              else Some(Blend(alpha, p.rtt.value, s.rtt.value)),
       recent := if p.rtt.None? then s.recent
                 else if |s.recent| < RTT_HISTORY then s.recent + [p.rtt.value]
                 else (s.recent + [p.rtt.value])[1..],
       probes := s.probes + 1,
       lastProbe := Some(p.now))
  }

  function Bit(p: Probe): real {
    if p.rtt.Some? then 1.0 else 0.0
  }

  function Blend(alpha: real, sample: real, average: real): real {
    alpha * sample + (1.0 - alpha) * average
  }

  function Newest(xs: seq<real>, n: nat): seq<real> {
    if |xs| <= n then xs else xs[|xs| - n..]
  }

  class NodeStats {
    var success: real
    var rtt: Option<real>
    var recent: seq<real>
    var healthFailures: nat
    var probes: nat
    var lastProbe: Option<int>

    function View(): Stats
      reads this
    {
      Stats(success, rtt, recent, healthFailures, probes, lastProbe)
    }

    constructor (s: Stats)
      ensures View() == s
    {
      success, rtt, recent := s.success, s.rtt, s.recent;
      healthFailures, probes, lastProbe := s.healthFailures, s.probes, s.lastProbe;
    }

    method RecordProbe(p: Probe, alpha: real)
      modifies this
      ensures View() == Recorded(old(View()), p, alpha)
    {
      var sample := if p.rtt.Some? then 1.0 else 0.0;
      success := if probes == 0 then sample else Blend(alpha, sample, success);
      if p.rtt.Some? {
        var ms := p.rtt.value;
        rtt := Some(match rtt
                    case None => ms
                    case Some(prev) => Blend(alpha, ms, prev));
        recent := recent + [ms];
        if |recent| > RTT_HISTORY {
          recent := recent[1..];
        }
      }
      probes := probes + 1;
      lastProbe := Some(p.now);
    }
  }

  // ---------------------------------------------------------------------------------
  // What the averages are.

  /** Success bits and successful round-trip times of a history, oldest first. */
  function Bits(history: seq<Probe>): seq<real> {
    if history == [] then [] else Bits(Front(history)) + [Bit(Last(history))]
  }

  function Rtts(history: seq<Probe>): seq<real> {
    if history == [] then [] else
      Rtts(Front(history)) + if Last(history).rtt.Some? then [Last(history).rtt.value] else []
  }

  /** The statistics a whole history leaves behind. */
  function AfterProbes(history: seq<Probe>, alpha: real): Stats {
    if history == [] then DefaultStats() else Recorded(AfterProbes(Front(history), alpha), Last(history), alpha)
  }

  function Front<T>(xs: seq<T>): seq<T>
    requires xs != []
  {
    xs[..|xs| - 1]
  }

  function Last<T>(xs: seq<T>): T
    requires xs != []
  {
    xs[|xs| - 1]
  }

  function Pow(x: real, n: nat): real {
    if n == 0 then 1.0 else x * Pow(x, n - 1)
  }

  /** The weight of sample `i` among `n`: the oldest keeps what the later ones leave. */
  function Weight(alpha: real, n: nat, i: nat): real
    requires i < n
  {
    (if i == 0 then 1.0 else alpha) * Pow(1.0 - alpha, n - 1 - i)
  }

  function Weights(alpha: real, n: nat): (ws: seq<real>)
    ensures |ws| == n
  {
    seq(n, i requires 0 <= i < n => Weight(alpha, n, i))
  }

  /** The first `k` terms of the inner product. */
  function Dot(ws: seq<real>, xs: seq<real>, k: nat): real
    requires k <= |ws| && k <= |xs|
  {
    if k == 0 then 0.0 else Dot(ws, xs, k - 1) + ws[k - 1] * xs[k - 1]
  }

  function Average(alpha: real, xs: seq<real>): real {
    Dot(Weights(alpha, |xs|), xs, |xs|)
  }

  lemma WeightOfOneMore(alpha: real, n: nat, i: nat)
    requires i < n
    ensures Weight(alpha, n + 1, i) == (1.0 - alpha) * Weight(alpha, n, i)
  {
    var b, p := 1.0 - alpha, Pow(1.0 - alpha, n - 1 - i);
    assert Pow(1.0 - alpha, n - i) == b * p;
    Regroup(if i == 0 then 1.0 else alpha, b, p);
  }

  lemma Regroup(a: real, b: real, c: real)
    ensures a * (b * c) == b * (a * c)
  {}

  lemma Distribute(a: real, b: real, c: real)
    ensures a * (b + c) == a * b + a * c
  {}

  lemma ScaledStep(b: real, sum: real, w: real, x: real, sum': real, w': real)
    requires sum' == b * sum && w' == b * w
    ensures sum' + w' * x == b * (sum + w * x)
  {
    Distribute(b, sum, w * x);
  }

  lemma {:induction false} DotScaled(b: real, ws: seq<real>, ws': seq<real>, xs: seq<real>, xs': seq<real>, k: nat)
    requires k <= |ws| && k <= |ws'| && k <= |xs| && k <= |xs'|
    requires forall i | 0 <= i < k :: ws'[i] == b * ws[i]
    requires forall i | 0 <= i < k :: xs'[i] == xs[i]
    ensures Dot(ws', xs', k) == b * Dot(ws, xs, k)
  {
    if k > 0 {
      DotScaled(b, ws, ws', xs, xs', k - 1);
      ScaledStep(b, Dot(ws, xs, k - 1), ws[k - 1], xs[k - 1], Dot(ws', xs', k - 1), ws'[k - 1]);
    }
  }

  lemma LastTerm(alpha: real, ws': seq<real>, xs': seq<real>, n: nat, sum: real, average: real)
    requires |ws'| == |xs'| == n + 1 && ws'[n] == alpha
    requires sum == Dot(ws', xs', n) && sum == (1.0 - alpha) * average
    ensures Dot(ws', xs', n + 1) == Blend(alpha, xs'[n], average)
  {
    assert Dot(ws', xs', n + 1) == Dot(ws', xs', n) + ws'[n] * xs'[n];
  }

  lemma DotBlends(alpha: real, ws: seq<real>, ws': seq<real>, xs: seq<real>, xs': seq<real>, n: nat)
    requires |ws| == |xs| == n && |ws'| == |xs'| == n + 1 && ws'[n] == alpha
    requires forall i | 0 <= i < n :: ws'[i] == (1.0 - alpha) * ws[i]
    requires forall i | 0 <= i < n :: xs'[i] == xs[i]
    ensures Dot(ws', xs', n + 1) == Blend(alpha, xs'[n], Dot(ws, xs, n))
  {
    assert Dot(ws', xs', n) == (1.0 - alpha) * Dot(ws, xs, n) by { DotScaled(1.0 - alpha, ws, ws', xs, xs', n); }
    LastTerm(alpha, ws', xs', n, Dot(ws', xs', n), Dot(ws, xs, n));
  }

  lemma WeightsOfOneMore(alpha: real, n: nat)
    ensures forall i | 0 <= i < n :: Weights(alpha, n + 1)[i] == (1.0 - alpha) * Weights(alpha, n)[i]
    ensures Weights(alpha, n + 1)[n] == if n == 0 then 1.0 else alpha
  {
    forall i | 0 <= i < n ensures Weights(alpha, n + 1)[i] == (1.0 - alpha) * Weights(alpha, n)[i] {
      WeightOfOneMore(alpha, n, i);
    }
    assert Pow(1.0 - alpha, 0) == 1.0;
  }

  lemma AverageOfOne(alpha: real, x: real)
    ensures Average(alpha, [x]) == x
  {
    WeightsOfOneMore(alpha, 0);
    assert Dot(Weights(alpha, 1), [x], 1) == Dot(Weights(alpha, 1), [x], 0) + Weights(alpha, 1)[0] * x;
  }

  /** The weighted sum satisfies the recurrence that each probe computes. */
  lemma AverageOfOneMore(alpha: real, xs: seq<real>, x: real)
    ensures Average(alpha, xs + [x]) == if xs == [] then x else Blend(alpha, x, Average(alpha, xs))
  {
    if xs == [] {
      AverageOfOne(alpha, x);
      assert xs + [x] == [x];
    } else {
      WeightsOfOneMore(alpha, |xs|);
      DotBlends(alpha, Weights(alpha, |xs|), Weights(alpha, |xs| + 1), xs, xs + [x], |xs|);
    }
  }

  lemma {:induction false} BitsOf(history: seq<Probe>)
    ensures |Bits(history)| == |history|
    ensures forall i | 0 <= i < |history| :: Bits(history)[i] == Bit(history[i])
  {
    if history != [] { BitsOf(Front(history)); }
  }

  lemma {:induction false} RttsAreSuccesses(history: seq<Probe>, lo: real, hi: real)
    requires forall i | 0 <= i < |history| && history[i].rtt.Some? :: lo <= history[i].rtt.value <= hi
    ensures forall i | 0 <= i < |Rtts(history)| :: lo <= Rtts(history)[i] <= hi
    ensures Rtts(history) != [] <==> exists i :: 0 <= i < |history| && history[i].rtt.Some?
  {
    if history != [] {
      RttsAreSuccesses(Front(history), lo, hi);
      if Last(history).rtt.Some? { assert Last(Rtts(history)) == Last(history).rtt.value; }
    }
  }

  lemma NewestOfOneMore(xs: seq<real>, x: real, n: nat)
    requires n > 0
    ensures Newest(xs + [x], n) == if |xs| < n then xs + [x] else (Newest(xs, n) + [x])[1..]
  {}

  function AverageIfAny(alpha: real, xs: seq<real>): Option<real> {
    if xs == [] then None else Some(Average(alpha, xs))
  }

  lemma SuccessfulProbe(s: Stats, xs: seq<real>, p: Probe, alpha: real)
    requires p.rtt.Some? && s.rtt == AverageIfAny(alpha, xs) && s.recent == Newest(xs, RTT_HISTORY)
    ensures Recorded(s, p, alpha).rtt == AverageIfAny(alpha, xs + [p.rtt.value])
    ensures Recorded(s, p, alpha).recent == Newest(xs + [p.rtt.value], RTT_HISTORY)
  {
    AverageOfOneMore(alpha, xs, p.rtt.value);
    NewestOfOneMore(xs, p.rtt.value, RTT_HISTORY);
  }

  /** The closed form: after any history the success rate and the round-trip average are the
      geometrically weighted sums of the samples, and the sparkline is the newest successes. */
  lemma {:induction false} ClosedForm(history: seq<Probe>, alpha: real)
    ensures var s := AfterProbes(history, alpha);
      && s.probes == |history| && s.healthFailures == 0
      && s.success == Average(alpha, Bits(history))
      && s.rtt == AverageIfAny(alpha, Rtts(history))
      && s.recent == Newest(Rtts(history), RTT_HISTORY)
      && s.lastProbe == if history == [] then None else Some(Last(history).now)
  {
    if history != [] {
      var before, p := Front(history), Last(history);
      ClosedForm(before, alpha);
      BitsOf(before);
      AverageOfOneMore(alpha, Bits(before), Bit(p));
      if p.rtt.Some? {
        SuccessfulProbe(AfterProbes(before, alpha), Rtts(before), p, alpha);
      } else {
        assert Rtts(history) == Rtts(before);
      }
    }
  }

  lemma ProductNotNegative(a: real, b: real)
    requires a >= 0.0 && b >= 0.0
    ensures a * b >= 0.0
  {}

  lemma BlendIsBetween(alpha: real, x: real, y: real, lo: real, hi: real)
    requires 0.0 <= alpha <= 1.0 && lo <= x <= hi && lo <= y <= hi
    ensures lo <= Blend(alpha, x, y) <= hi
  {
    ProductNotNegative(alpha, x - lo);
    ProductNotNegative(1.0 - alpha, y - lo);
    ProductNotNegative(alpha, hi - x);
    ProductNotNegative(1.0 - alpha, hi - y);
    Distribute(alpha, x, -lo);
    Distribute(1.0 - alpha, y, -lo);
    Distribute(alpha, -x, hi);
    Distribute(1.0 - alpha, -y, hi);
  }

  lemma {:induction false} AverageIsBounded(alpha: real, xs: seq<real>, lo: real, hi: real)
    requires 0.0 < alpha <= 1.0 && xs != []
    requires forall i | 0 <= i < |xs| :: lo <= xs[i] <= hi
    ensures lo <= Average(alpha, xs) <= hi
  {
    AverageOfOneMore(alpha, Front(xs), Last(xs));
    assert xs == Front(xs) + [Last(xs)];
    if |xs| > 1 {
      AverageIsBounded(alpha, Front(xs), lo, hi);
      BlendIsBetween(alpha, Last(xs), Average(alpha, Front(xs)), lo, hi);
    }
  }

  /** After any probe history the success average is a rate, the round-trip average lies
      between the least and greatest successful sample, and both optional fields appear
      with the first success. */
  lemma AveragesAreBounded(history: seq<Probe>, alpha: real, lo: real, hi: real)
    requires 0.0 < alpha <= 1.0
    requires forall i | 0 <= i < |history| && history[i].rtt.Some? :: lo <= history[i].rtt.value <= hi
    ensures var s := AfterProbes(history, alpha);
      && 0.0 <= s.success <= 1.0
      && (s.rtt.Some? ==> lo <= s.rtt.value <= hi)
      && |s.recent| <= RTT_HISTORY
      && (s.recent != [] <==> s.rtt.Some?)
      && (s.rtt.Some? <==> exists i :: 0 <= i < |history| && history[i].rtt.Some?)
  {
    ClosedForm(history, alpha);
    BitsOf(history);
    if history != [] { AverageIsBounded(alpha, Bits(history), 0.0, 1.0); }
    RttsAreSuccesses(history, lo, hi);
    if Rtts(history) != [] { AverageIsBounded(alpha, Rtts(history), lo, hi); }
  }

  // ---------------------------------------------------------------------------------
  // Comparison.

  datatype Ordering = Less | Equal | Greater

  function TotalCmp(a: real, b: real): Ordering {
    if a < b then Less else if a == b then Equal else Greater
  }

  function Abs(x: real): real {
    if x < 0.0 then -x else x
  }

  function SuccessCmp(a: real, b: real): Ordering {
    if Abs(a - b) <= SUCCESS_TIE_EPS then Equal else TotalCmp(a, b)
  }

  function ScoreCmp(a: Stats, b: Stats): Ordering {
    match SuccessCmp(a.success, b.success)
    case Less => Less
    case Greater => Greater
    case Equal =>
      match (a.rtt, b.rtt)
      case (Some(x), Some(y)) => TotalCmp(y, x)
      case (Some(_), None) => Greater
      case (None, Some(_)) => Less
      case (None, None) => Equal
  }

  function Reverse(o: Ordering): Ordering {
    match o case Less => Greater case Equal => Equal case Greater => Less
  }

  predicate AtMost(a: Stats, b: Stats) {
    ScoreCmp(a, b) != Greater
  }

  /** Who wins: the clearly better rate, and on a tie the faster of two measured nodes or the only
      measured one. */
  lemma ScoreGreaterExactly(a: Stats, b: Stats)
    ensures ScoreCmp(a, b) == Greater <==>
      || a.success - b.success > SUCCESS_TIE_EPS
      || (-SUCCESS_TIE_EPS <= a.success - b.success <= SUCCESS_TIE_EPS
          && a.rtt.Some? && (b.rtt.None? || a.rtt.value < b.rtt.value))
  {}

  predicate Ties(a: real, b: real) {
    Abs(a - b) <= SUCCESS_TIE_EPS
  }

  /** The tie is an equivalence on these success rates. */
  predicate TiesAreClean(rates: set<real>) {
    forall a, b, c | a in rates && b in rates && c in rates :: Ties(a, b) && Ties(b, c) ==> Ties(a, c)
  }

  /** The score is a total preorder on all statistics with these rates. */
  ghost predicate ScoreIsTransitive(rates: set<real>) {
    forall x: Stats, y: Stats, z: Stats | x.success in rates && y.success in rates && z.success in rates ::
      AtMost(x, y) && AtMost(y, z) ==> AtMost(x, z)
  }

  lemma ScoreCmpReverses(a: Stats, b: Stats)
    ensures ScoreCmp(b, a) == Reverse(ScoreCmp(a, b))
  {}

  lemma ScoreCmpTransitive(rates: set<real>, a: Stats, b: Stats, c: Stats)
    requires a.success in rates && b.success in rates && c.success in rates && TiesAreClean(rates)
    requires AtMost(a, b) && AtMost(b, c)
    ensures AtMost(a, c)
  {
    var x, y, z := a.success, b.success, c.success;
    assert Ties(x, y) && Ties(y, z) ==> Ties(x, z);
    assert Ties(x, z) && Ties(z, y) ==> Ties(x, y);
    assert Ties(y, x) && Ties(x, z) ==> Ties(y, z);
  }

  function WithScore(base: Stats, rate: real, rtt: real): Stats {
    base.(success := rate, rtt := Some(rtt))
  }

  /** Whenever two ties do not make a third, round-trip times can rank the three rates in a
      circle: the higher of the outer two beats the lower by its rate, and each step down the
      ties is won by time. */
  lemma UncleanTiesMakeCircles(base: Stats, low: real, middle: real, high: real)
    requires low < high && Ties(low, middle) && Ties(middle, high) && !Ties(low, high)
    ensures var x, y, z := WithScore(base, low, 1.0), WithScore(base, middle, 2.0), WithScore(base, high, 3.0);
      ScoreCmp(x, y) == Greater && ScoreCmp(y, z) == Greater && ScoreCmp(z, x) == Greater
  {}

  /** The comparison orders the statistics with a set of rates exactly when the tie is an
      equivalence on that set. */
  lemma ScoreCmpTransitiveExactly(rates: set<real>)
    ensures ScoreIsTransitive(rates) <==> TiesAreClean(rates)
  {
    if TiesAreClean(rates) {
      forall x: Stats, y: Stats, z: Stats | x.success in rates && y.success in rates && z.success in rates && AtMost(x, y) && AtMost(y, z)
        ensures AtMost(x, z)
      {
        ScoreCmpTransitive(rates, x, y, z);
      }
    } else {
      var a, b, c :| a in rates && b in rates && c in rates && Ties(a, b) && Ties(b, c) && !Ties(a, c);
      var low, high := if a < c then a else c, if a < c then c else a;
      var x, y, z := WithScore(DefaultStats(), low, 1.0), WithScore(DefaultStats(), b, 2.0), WithScore(DefaultStats(), high, 3.0);
      UncleanTiesMakeCircles(DefaultStats(), low, b, high);
      ScoreCmpReverses(x, y);
      ScoreCmpReverses(y, z);
      assert AtMost(z, y) && AtMost(y, x) && !AtMost(z, x);
    }
  }

  // ---------------------------------------------------------------------------------
  // Hysteresis.

  function Max(a: real, b: real): real {
    if a < b then b else a
  }

  predicate ChallengerWins(challenger: Stats, incumbent: Stats, hysteresis: real) {
    if !IsProbed(challenger) then false
    else if !IsProbed(incumbent) then true
    else
      var margin := hysteresis * Max(incumbent.success, SUCCESS_FLOOR);
      var ds := challenger.success - incumbent.success;
      if Abs(ds) > margin then ds > 0.0 else FasterByMargin(challenger, incumbent, hysteresis)
  }

  predicate FasterByMargin(challenger: Stats, incumbent: Stats, hysteresis: real) {
    match (challenger.rtt, incumbent.rtt)
    case (Some(c), Some(i)) => c * (1.0 + hysteresis) < i
    case (Some(_), None) => true
    case _ => false
  }

  predicate PlausibleRtt(s: Stats) {
    s.rtt.Some? ==> s.rtt.value >= 0.0
  }

  /** The two rates straddle the margins: their gap exceeds the margin seen from the lower
      one but not the margin seen from the higher one. */
  predicate Straddle(high: real, low: real, hysteresis: real) {
    hysteresis * Max(low, SUCCESS_FLOOR) < high - low <= hysteresis * Max(high, SUCCESS_FLOOR)
  }

  lemma OnlyOneIsFaster(a: Stats, b: Stats, hysteresis: real)
    requires hysteresis >= 0.0 && PlausibleRtt(a) && PlausibleRtt(b)
    ensures !(FasterByMargin(a, b, hysteresis) && FasterByMargin(b, a, hysteresis))
  {
    if a.rtt.Some? && b.rtt.Some? {
      assert a.rtt.value * (1.0 + hysteresis) == a.rtt.value + a.rtt.value * hysteresis;
      assert a.rtt.value * hysteresis >= 0.0 && b.rtt.value * hysteresis >= 0.0;
      assert b.rtt.value * (1.0 + hysteresis) == b.rtt.value + b.rtt.value * hysteresis;
    }
  }

  /** Two nodes can each beat the other exactly when both are probed, the rates straddle the
      margins, and the one with the lower rate is faster by the margin. */
  lemma FlipFlopExactly(x: Stats, y: Stats, hysteresis: real)
    requires hysteresis >= 0.0 && PlausibleRtt(x) && PlausibleRtt(y)
    ensures var (high, low) := if x.success >= y.success then (x, y) else (y, x);
      (ChallengerWins(x, y, hysteresis) && ChallengerWins(y, x, hysteresis))
      <==> (IsProbed(x) && IsProbed(y) && Straddle(high.success, low.success, hysteresis)
            && low.rtt.Some? && (high.rtt.None? || low.rtt.value * (1.0 + hysteresis) < high.rtt.value))
  {
    OnlyOneIsFaster(x, y, hysteresis);
    var (high, low) := if x.success >= y.success then (x, y) else (y, x);
    MarginsGrow(high.success, low.success, hysteresis);
  }

  lemma MarginsGrow(high: real, low: real, hysteresis: real)
    requires hysteresis >= 0.0 && high >= low
    ensures 0.0 <= hysteresis * Max(low, SUCCESS_FLOOR) <= hysteresis * Max(high, SUCCESS_FLOOR)
  {
    assert hysteresis * (Max(high, SUCCESS_FLOOR) - Max(low, SUCCESS_FLOOR)) >= 0.0;
  }

  /** A node that was never probed loses to every probed one and wins against none. Between probed
      nodes with equal or clearly different rates, and without hysteresis, the challenger wins
      exactly when its score is greater. */
  lemma ChallengerFollowsScore(x: Stats, y: Stats)
    requires x.success == y.success || Abs(x.success - y.success) > SUCCESS_TIE_EPS
    ensures IsProbed(x) && IsProbed(y) ==> (ChallengerWins(x, y, 0.0) <==> ScoreCmp(x, y) == Greater)
    ensures !IsProbed(y) ==> forall h: real :: ChallengerWins(x, y, h) <==> IsProbed(x)
    ensures !IsProbed(x) ==> forall h: real :: !ChallengerWins(x, y, h)
  {}

  /** For the node whose rate is not the lower one a larger hysteresis only makes it harder. */
  lemma HysteresisProtects(x: Stats, y: Stats, small: real, large: real)
    requires 0.0 <= small <= large && IsProbed(x) && IsProbed(y) && PlausibleRtt(x) && PlausibleRtt(y)
    ensures x.success >= y.success && ChallengerWins(x, y, large) ==> ChallengerWins(x, y, small)
  {
    var m := Max(y.success, SUCCESS_FLOOR);
    assert (large - small) * m >= 0.0;
    if x.rtt.Some? && y.rtt.Some? { assert (large - small) * x.rtt.value >= 0.0; }
  }

  /** Hence never without hysteresis, and never between two nodes at or below the floor. */
  lemma NoFlipFlop(x: Stats, y: Stats, hysteresis: real)
    requires hysteresis >= 0.0 && PlausibleRtt(x) && PlausibleRtt(y)
    requires hysteresis == 0.0 || (x.success <= SUCCESS_FLOOR && y.success <= SUCCESS_FLOOR)
    ensures !(ChallengerWins(x, y, hysteresis) && ChallengerWins(y, x, hysteresis))
  {
    FlipFlopExactly(x, y, hysteresis);
  }

  /** With hysteresis, flip-flops exist however small it is. */
  lemma FlipFlopExists(base: Stats, hysteresis: real)
    requires 0.0 < hysteresis <= 1.0
    ensures var x := base.(success := 1.0, rtt := Some(1.0 + 2.0 * hysteresis), probes := 1);
      exists rate: real ::
        0.0 < rate < 1.0 &&
        var y := base.(success := rate, rtt := Some(1.0), probes := 1);
        ChallengerWins(x, y, hysteresis) && ChallengerWins(y, x, hysteresis)
  {
    var rate := 1.0 - hysteresis;
    if hysteresis == 1.0 { rate := 0.1; }
    var x := base.(success := 1.0, rtt := Some(1.0 + 2.0 * hysteresis), probes := 1);
    var y := base.(success := rate, rtt := Some(1.0), probes := 1);
    FlipFlopExactly(x, y, hysteresis);
  }
}
