/** The order in which nodes are tried (src/supervisor.rs, `ranked_candidates` and
    `profile_candidates`). */
module Candidates {
  import opened Base
  import opened Manifests
  import opened Scoring

  type StatsMap = map<Name, Stats>

  // ---------------------------------------------------------------------------------
  // Names and regions.

  predicate NameLess(a: Name, b: Name) {
    b != "" && (a == "" || a[0] < b[0] || (a[0] == b[0] && NameLess(a[1..], b[1..])))
  }

  lemma {:induction false} NameOrderIsTotal(a: Name, b: Name)
    ensures NameLess(a, b) || NameLess(b, a) || a == b
    ensures !(NameLess(a, b) && NameLess(b, a))
  {
    if a != "" && b != "" {
      NameOrderIsTotal(a[1..], b[1..]);
      assert a == [a[0]] + a[1..] && b == [b[0]] + b[1..];
    }
  }

  lemma {:induction false} NameOrderIsTransitive(a: Name, b: Name, c: Name)
    requires NameLess(a, b) && NameLess(b, c)
    ensures NameLess(a, c)
  {
    if a != "" && a[0] == b[0] == c[0] { NameOrderIsTransitive(a[1..], b[1..], c[1..]); }
  }

  predicate Contains(s: string, part: string) {
    exists k :: 0 <= k <= |s| - |part| && PartAt(s, part, k)
  }

  predicate PartAt(s: string, part: string, k: nat)
    requires k + |part| <= |s|
  {
    s[k..k + |part|] == part
  }

  predicate InRegions(n: Node, regions: seq<string>) {
    regions == [] || exists i :: 0 <= i < |regions| && Contains(n.name, regions[i])
  }

  /** A region is a part of the name, wherever it stands. */
  lemma InRegionsExactly(n: Node, regions: seq<string>)
    ensures InRegions(n, regions) <==>
      regions == [] || exists before, part, after :: part in regions && n.name == before + part + after
  {
    if regions != [] && InRegions(n, regions) {
      var i :| 0 <= i < |regions| && Contains(n.name, regions[i]);
      var k :| 0 <= k <= |n.name| - |regions[i]| && PartAt(n.name, regions[i], k);
      assert n.name == n.name[..k] + regions[i] + n.name[k + |regions[i]|..];
    }
    if before, part, after :| part in regions && n.name == before + part + after {
      var i :| 0 <= i < |regions| && regions[i] == part;
      assert PartAt(n.name, part, |before|);
      assert Contains(n.name, regions[i]);
    }
  }

  /** The first place where two names differ decides, and a proper prefix is less. */
  predicate LessAt(a: Name, b: Name, k: nat) {
    k <= |a| && k < |b| && a[..k] == b[..k] && (k == |a| || a[k] < b[k])
  }

  lemma {:induction false} NameLessExactly(a: Name, b: Name)
    ensures NameLess(a, b) <==> exists k: nat :: LessAt(a, b, k)
  {
    if b == "" {
    } else if a == "" || a[0] < b[0] {
      assert LessAt(a, b, 0);
    } else if a[0] == b[0] {
      NameLessExactly(a[1..], b[1..]);
      if k: nat :| LessAt(a[1..], b[1..], k) {
        assert a[..k + 1] == [a[0]] + a[1..][..k] && b[..k + 1] == [b[0]] + b[1..][..k];
        assert LessAt(a, b, k + 1);
      }
      if k: nat :| LessAt(a, b, k) {
        assert k > 0;
        assert a[1..][..k - 1] == a[..k][1..] && b[1..][..k - 1] == b[..k][1..];
        assert LessAt(a[1..], b[1..], k - 1);
      }
    } else {
      forall k: nat ensures !LessAt(a, b, k) { HeadsDecide(a, b, k); }
    }
  }

  lemma HeadsDecide(a: Name, b: Name, k: nat)
    requires a != "" && b != ""
    ensures LessAt(a, b, k) ==> a[0] <= b[0]
  {
    if LessAt(a, b, k) && k > 0 { assert a[..k][0] == b[..k][0]; }
  }

  function Filter(xs: seq<Node>, keep: Node -> bool): seq<Node> {
    if xs == [] then [] else
      Filter(xs[..|xs| - 1], keep) + if keep(xs[|xs| - 1]) then [xs[|xs| - 1]] else []
  }

  // ---------------------------------------------------------------------------------
  // The library's stable sort: each element goes behind all those it is not before.

  function Insert(sorted: seq<Node>, x: Node, before: (Node, Node) -> bool): seq<Node> {
    if sorted == [] || !before(x, sorted[|sorted| - 1]) then sorted + [x]
    else Insert(sorted[..|sorted| - 1], x, before) + [sorted[|sorted| - 1]]
  }

  function Sort(xs: seq<Node>, before: (Node, Node) -> bool): seq<Node> {
    if xs == [] then [] else Insert(Sort(xs[..|xs| - 1], before), xs[|xs| - 1], before)
  }

  /** No later element is before an earlier one. */
  predicate InOrder(xs: seq<Node>, before: (Node, Node) -> bool) {
    forall i, j | 0 <= i < j < |xs| :: !before(xs[j], xs[i])
  }

  /** `before` is a strict weak order on these elements. */
  predicate WeakOrderOn(xs: seq<Node>, before: (Node, Node) -> bool) {
    && (forall a, b | a in xs && b in xs :: !(before(a, b) && before(b, a)))
    && (forall a, b, c | a in xs && b in xs && c in xs :: !before(b, a) && !before(c, b) ==> !before(c, a))
  }

  lemma {:induction false} InsertKeepsElements(sorted: seq<Node>, x: Node, before: (Node, Node) -> bool)
    ensures multiset(Insert(sorted, x, before)) == multiset(sorted) + multiset{x}
  {
    if sorted != [] && before(x, sorted[|sorted| - 1]) {
      InsertKeepsElements(sorted[..|sorted| - 1], x, before);
      assert sorted == sorted[..|sorted| - 1] + [sorted[|sorted| - 1]];
    }
  }

  lemma {:induction false} SortKeepsElements(xs: seq<Node>, before: (Node, Node) -> bool)
    ensures multiset(Sort(xs, before)) == multiset(xs)
  {
    if xs != [] {
      SortKeepsElements(xs[..|xs| - 1], before);
      InsertKeepsElements(Sort(xs[..|xs| - 1], before), xs[|xs| - 1], before);
      assert xs == xs[..|xs| - 1] + [xs[|xs| - 1]];
    }
  }

  lemma {:induction false} InsertKeepsOrder(all: seq<Node>, sorted: seq<Node>, x: Node, before: (Node, Node) -> bool)
    requires WeakOrderOn(all, before) && x in all && forall y | y in sorted :: y in all
    requires InOrder(sorted, before)
    ensures InOrder(Insert(sorted, x, before), before)
  {
    if sorted != [] {
      var front, last := sorted[..|sorted| - 1], sorted[|sorted| - 1];
      if before(x, last) {
        InsertKeepsOrder(all, front, x, before);
        InsertKeepsElements(front, x, before);
        var r := Insert(front, x, before);
        forall i | 0 <= i < |r| ensures !before(last, r[i]) {
          assert r[i] in multiset(front) + multiset{x};
          if r[i] != x { var k :| 0 <= k < |front| && front[k] == r[i]; }
        }
      } else {
        forall i | 0 <= i < |sorted| ensures !before(x, sorted[i]) {
          assert i < |sorted| - 1 ==> !before(last, sorted[i]);
        }
      }
    }
  }

  lemma {:induction false} SortSorts(all: seq<Node>, xs: seq<Node>, before: (Node, Node) -> bool)
    requires WeakOrderOn(all, before) && forall y | y in xs :: y in all
    ensures InOrder(Sort(xs, before), before)
  {
    if xs != [] {
      var front := xs[..|xs| - 1];
      SortSorts(all, front, before);
      SortKeepsElements(front, before);
      forall y | y in Sort(front, before) ensures y in all { assert y in multiset(Sort(front, before)); }
      InsertKeepsOrder(all, Sort(front, before), xs[|xs| - 1], before);
    }
  }

  // ---------------------------------------------------------------------------------
  // The two orders.

  predicate Probed(n: Node, stats: StatsMap) {
    n.name in stats && IsProbed(stats[n.name])
  }

  /** Descending score: a node goes before another when the other scores less. */
  predicate ScoresBefore(a: Node, b: Node, stats: StatsMap) {
    a.name in stats && b.name in stats && ScoreCmp(stats[b.name], stats[a.name]) == Less
  }

  function ByScore(stats: StatsMap): (Node, Node) -> bool {
    (a: Node, b: Node) => ScoresBefore(a, b, stats)
  }

  function ByName(): (Node, Node) -> bool {
    (a: Node, b: Node) => NameLess(a.name, b.name)
  }

  function Named(name: Name): Node -> bool { (n: Node) => n.name == name }
  function NotNamed(name: Name): Node -> bool { (n: Node) => n.name != name }
  function IsProbedIn(stats: StatsMap): Node -> bool { (n: Node) => Probed(n, stats) }
  function IsUnprobedIn(stats: StatsMap): Node -> bool { (n: Node) => !Probed(n, stats) }
  function InAny(regions: seq<string>): Node -> bool { (n: Node) => InRegions(n, regions) }
  function Prefers(preferred: Option<Name>): Node -> bool { (n: Node) => IsPreferred(n, preferred) }

  function Eligible(nodes: seq<Node>, regions: seq<string>): seq<Node> {
    Filter(nodes, InAny(regions))
  }

  function ProbedOf(pool: seq<Node>, stats: StatsMap): seq<Node> {
    Sort(Filter(pool, IsProbedIn(stats)), ByScore(stats))
  }

  function UnprobedOf(pool: seq<Node>, stats: StatsMap): seq<Node> {
    Sort(Filter(pool, IsUnprobedIn(stats)), ByName())
  }

  predicate IsPreferred(n: Node, preferred: Option<Name>) {
    preferred == Some(n.name)
  }

  function PreferredOf(pool: seq<Node>, preferred: Option<Name>): seq<Node> {
    var found := Filter(pool, Prefers(preferred));
    if found == [] then [] else [found[0]]
  }

  /** What `profile_candidates` computes, whatever the pool. No statistics at all counts as
      nothing probed. */
  function CandidateOrder(nodes: seq<Node>, stats: StatsMap, preferred: Option<Name>, regions: seq<string>): seq<Node> {
    var pool := Eligible(nodes, regions);
    KeepFirst(PreferredOf(pool, preferred) + ProbedOf(pool, stats) + UnprobedOf(pool, stats))
  }

  function RankedOrder(nodes: seq<Node>, stats: StatsMap, regions: seq<string>): seq<Node> {
    ProbedOf(Eligible(nodes, regions), stats)
  }

  method ProfileCandidates(nodes: seq<Node>, stats: Option<StatsMap>, preferred: Option<Name>, regions: seq<string>)
    returns (ordered: seq<Node>)
    ensures ordered == CandidateOrder(nodes, if stats.Some? then stats.value else map[], preferred, regions)
  {
    var known := if stats.Some? then stats.value else map[];
    var pool := Eligible(nodes, regions);
    var probed := ProbedOf(pool, known);
    ordered := PreferredOf(pool, preferred);
    DistinctStays(ordered);
    ordered := PushUnseen(ordered, ordered, probed);
    var unprobed := UnprobedOf(pool, known);
    ordered := PushUnseen(PreferredOf(pool, preferred) + probed, ordered, unprobed);
  }

  /** Append each node whose name is not in the list yet. */
  method PushUnseen(ghost before: seq<Node>, ordered: seq<Node>, more: seq<Node>) returns (r: seq<Node>)
    requires ordered == KeepFirst(before)
    ensures r == KeepFirst(before + more)
  {
    r := ordered;
    assert before + more[..0] == before;
    for i := 0 to |more|
      invariant r == KeepFirst(before + more[..i])
    {
      MergeStep(before, more, i);
      if more[i].name !in NamesOf(r) {
        r := r + [more[i]];
      }
    }
    assert more[..|more|] == more;
  }

  // ---------------------------------------------------------------------------------
  // What the order is.

  lemma {:induction false} FilterKeeps(xs: seq<Node>, keep: Node -> bool)
    ensures forall x :: x in Filter(xs, keep) <==> x in xs && keep(x)
  {
    if xs != [] {
      FilterKeeps(xs[..|xs| - 1], keep);
      assert xs == xs[..|xs| - 1] + [xs[|xs| - 1]];
    }
  }

  lemma {:induction false} FilterSplits(xs: seq<Node>, keep: Node -> bool, rest: Node -> bool)
    requires forall n :: rest(n) == !keep(n)
    ensures multiset(Filter(xs, keep)) + multiset(Filter(xs, rest)) == multiset(xs)
  {
    if xs != [] {
      var front, last := xs[..|xs| - 1], xs[|xs| - 1];
      assert xs == front + [last];
      FilterSplits(front, keep, rest);
      OneMoreSplit(front, last, keep, rest);
    }
  }

  lemma OneMoreSplit(front: seq<Node>, last: Node, keep: Node -> bool, rest: Node -> bool)
    requires rest(last) == !keep(last)
    requires multiset(Filter(front, keep)) + multiset(Filter(front, rest)) == multiset(front)
    ensures multiset(Filter(front + [last], keep)) + multiset(Filter(front + [last], rest)) == multiset(front + [last])
  {
    OneMoreKept(front, last, keep);
    OneMoreKept(front, last, rest);
    AddOne(multiset(Filter(front, keep)), multiset(Filter(front, rest)), multiset(front), last);
  }

  lemma AddOne(a: multiset<Node>, b: multiset<Node>, c: multiset<Node>, x: Node)
    requires a + b == c
    ensures (a + multiset{x}) + b == c + multiset{x} && a + (b + multiset{x}) == c + multiset{x}
  {}

  lemma OneMoreKept(front: seq<Node>, last: Node, keep: Node -> bool)
    ensures multiset(Filter(front + [last], keep))
         == if keep(last) then multiset(Filter(front, keep)) + multiset{last} else multiset(Filter(front, keep))
    ensures multiset(front + [last]) == multiset(front) + multiset{last}
  {
    assert (front + [last])[..|front|] == front;
    assert keep(last) || Filter(front + [last], keep) == Filter(front, keep);
  }

  lemma {:induction false} FilterStaysDistinct(xs: seq<Node>, keep: Node -> bool)
    requires Distinct(xs)
    ensures Distinct(Filter(xs, keep))
  {
    if xs != [] {
      var front := xs[..|xs| - 1];
      FilterStaysDistinct(front, keep);
      FilterKeeps(front, keep);
      forall i | 0 <= i < |Filter(front, keep)| ensures Filter(front, keep)[i].name != xs[|xs| - 1].name {
        assert Filter(front, keep)[i] in front;
      }
    }
  }

  /** How two candidates stand, the earlier first: no unprobed node before a probed one, the
      unprobed in name order, and the probed by descending score where that is an order. */
  predicate Stands(a: Node, b: Node, stats: StatsMap, scored: bool) {
    && (Probed(b, stats) ==> Probed(a, stats))
    && (!Probed(a, stats) && !Probed(b, stats) ==> NameLess(a.name, b.name))
    && (scored && Probed(a, stats) && Probed(b, stats) ==> !ScoresBefore(b, a, stats))
  }

  predicate Ranked(xs: seq<Node>, stats: StatsMap, scored: bool) {
    forall i, j | 0 <= i < j < |xs| :: Stands(xs[i], xs[j], stats, scored)
  }

  lemma {:induction false} RankedStays(xs: seq<Node>, keep: Node -> bool, stats: StatsMap, scored: bool)
    requires Ranked(xs, stats, scored)
    ensures Ranked(Filter(xs, keep), stats, scored)
  {
    if xs != [] {
      var front := xs[..|xs| - 1];
      RankedStays(front, keep, stats, scored);
      FilterKeeps(front, keep);
      forall i | 0 <= i < |Filter(front, keep)| ensures Stands(Filter(front, keep)[i], xs[|xs| - 1], stats, scored) {
        assert Filter(front, keep)[i] in front;
      }
    }
  }

  /** Where ties are clean among the probed rates, the score is an order on the probed nodes. */
  function PoolRates(pool: seq<Node>, stats: StatsMap): set<real> {
    set i | 0 <= i < |pool| && Probed(pool[i], stats) :: stats[pool[i].name].success
  }

  lemma ScoreIsWeakOrder(pool: seq<Node>, stats: StatsMap)
    requires TiesAreClean(PoolRates(pool, stats))
    ensures WeakOrderOn(Filter(pool, IsProbedIn(stats)), ByScore(stats))
  {
    var xs, before := Filter(pool, IsProbedIn(stats)), ByScore(stats);
    FilterKeeps(pool, IsProbedIn(stats));
    forall a, b | a in xs && b in xs ensures !(before(a, b) && before(b, a)) {
      ScoreCmpReverses(stats[a.name], stats[b.name]);
    }
    forall a, b, c | a in xs && b in xs && c in xs && !before(b, a) && !before(c, b) ensures !before(c, a) {
      ScoreCmpReverses(stats[a.name], stats[b.name]);
      ScoreCmpReverses(stats[b.name], stats[c.name]);
      ScoreCmpReverses(stats[a.name], stats[c.name]);
      ScoreCmpTransitive(PoolRates(pool, stats), stats[c.name], stats[b.name], stats[a.name]);
    }
  }

  lemma NameIsWeakOrder(xs: seq<Node>)
    ensures WeakOrderOn(xs, ByName())
  {
    forall a, b | a in xs && b in xs ensures !(ByName()(a, b) && ByName()(b, a)) { NameOrderIsTotal(a.name, b.name); }
    forall a, b, c | a in xs && b in xs && c in xs && !ByName()(b, a) && !ByName()(c, b) ensures !ByName()(c, a) {
      NameOrderIsTotal(a.name, b.name);
      NameOrderIsTotal(b.name, c.name);
      NameOrderIsTotal(a.name, c.name);
      if NameLess(c.name, a.name) && a.name != b.name { NameOrderIsTransitive(c.name, a.name, b.name); }
    }
  }

  lemma {:induction false} InsertStaysDistinct(sorted: seq<Node>, x: Node, before: (Node, Node) -> bool)
    requires Distinct(sorted) && forall y | y in sorted :: y.name != x.name
    ensures Distinct(Insert(sorted, x, before))
  {
    if sorted != [] && before(x, sorted[|sorted| - 1]) {
      var front := sorted[..|sorted| - 1];
      InsertStaysDistinct(front, x, before);
      InsertKeepsElements(front, x, before);
      var r := Insert(front, x, before);
      forall i | 0 <= i < |r| ensures r[i].name != sorted[|sorted| - 1].name {
        assert r[i] in multiset(front) + multiset{x};
      }
    }
  }

  lemma {:induction false} SortStaysDistinct(xs: seq<Node>, before: (Node, Node) -> bool)
    requires Distinct(xs)
    ensures Distinct(Sort(xs, before))
  {
    if xs != [] {
      var front := xs[..|xs| - 1];
      SortStaysDistinct(front, before);
      SortHasSame(front, before);
      InsertStaysDistinct(Sort(front, before), xs[|xs| - 1], before);
    }
  }

  lemma SortHasSame(xs: seq<Node>, before: (Node, Node) -> bool)
    ensures forall x :: x in Sort(xs, before) <==> x in xs
  {
    SortKeepsElements(xs, before);
    forall x ensures x in Sort(xs, before) <==> x in xs {
      assert x in multiset(Sort(xs, before)) <==> x in multiset(xs);
    }
  }

  lemma HalvesHaveTheirKind(pool: seq<Node>, stats: StatsMap)
    ensures forall i | 0 <= i < |ProbedOf(pool, stats)| :: Probed(ProbedOf(pool, stats)[i], stats)
    ensures forall i | 0 <= i < |UnprobedOf(pool, stats)| :: !Probed(UnprobedOf(pool, stats)[i], stats)
  {
    FilterKeeps(pool, IsProbedIn(stats));
    FilterKeeps(pool, IsUnprobedIn(stats));
    SortHasSame(Filter(pool, IsProbedIn(stats)), ByScore(stats));
    SortHasSame(Filter(pool, IsUnprobedIn(stats)), ByName());
    forall i | 0 <= i < |ProbedOf(pool, stats)| ensures Probed(ProbedOf(pool, stats)[i], stats) {
      assert ProbedOf(pool, stats)[i] in ProbedOf(pool, stats);
    }
    forall i | 0 <= i < |UnprobedOf(pool, stats)| ensures !Probed(UnprobedOf(pool, stats)[i], stats) {
      assert UnprobedOf(pool, stats)[i] in UnprobedOf(pool, stats);
    }
  }

  /** The two halves, one after the other, are the whole pool without duplicates. */
  lemma HalvesAreThePool(pool: seq<Node>, stats: StatsMap)
    requires Distinct(pool)
    ensures multiset(ProbedOf(pool, stats) + UnprobedOf(pool, stats)) == multiset(pool)
    ensures Distinct(ProbedOf(pool, stats) + UnprobedOf(pool, stats))
  {
    var p, u := Filter(pool, IsProbedIn(stats)), Filter(pool, IsUnprobedIn(stats));
    FilterSplits(pool, IsProbedIn(stats), IsUnprobedIn(stats));
    SortKeepsElements(p, ByScore(stats));
    SortKeepsElements(u, ByName());
    FilterStaysDistinct(pool, IsProbedIn(stats));
    FilterStaysDistinct(pool, IsUnprobedIn(stats));
    SortStaysDistinct(p, ByScore(stats));
    SortStaysDistinct(u, ByName());
    HalvesHaveTheirKind(pool, stats);
  }

  lemma HalvesAreInOrder(pool: seq<Node>, stats: StatsMap)
    ensures TiesAreClean(PoolRates(pool, stats)) ==> InOrder(ProbedOf(pool, stats), ByScore(stats))
    ensures InOrder(UnprobedOf(pool, stats), ByName())
  {
    var p, u := Filter(pool, IsProbedIn(stats)), Filter(pool, IsUnprobedIn(stats));
    if TiesAreClean(PoolRates(pool, stats)) {
      ScoreIsWeakOrder(pool, stats);
      SortSorts(p, p, ByScore(stats));
    }
    NameIsWeakOrder(u);
    SortSorts(u, u, ByName());
  }

  lemma HalvesAreRanked(pool: seq<Node>, stats: StatsMap)
    requires Distinct(pool)
    ensures Ranked(ProbedOf(pool, stats) + UnprobedOf(pool, stats), stats, TiesAreClean(PoolRates(pool, stats)))
  {
    var p, u, scored := ProbedOf(pool, stats), UnprobedOf(pool, stats), TiesAreClean(PoolRates(pool, stats));
    HalvesHaveTheirKind(pool, stats);
    HalvesAreThePool(pool, stats);
    HalvesAreInOrder(pool, stats);
    forall i, j | 0 <= i < j < |p + u| ensures Stands((p + u)[i], (p + u)[j], stats, scored) {
      NameOrderIsTotal((p + u)[i].name, (p + u)[j].name);
      if j < |p| {
        assert scored ==> !ByScore(stats)(p[j], p[i]);
      } else if |p| <= i {
        assert !ByName()(u[j - |p|], u[i - |p|]);
      }
    }
  }

  lemma {:induction false} KeepFirstAfterHead(head: Node, rest: seq<Node>)
    requires Distinct(rest)
    ensures KeepFirst([head] + rest) == [head] + Filter(rest, NotNamed(head.name))
  {
    if rest == [] {
      DistinctStays([head]);
      assert [head] + rest == [head];
    } else {
      var front, last := rest[..|rest| - 1], rest[|rest| - 1];
      KeepFirstAfterHead(head, front);
      assert forall i | 0 <= i < |front| :: front[i] == rest[i];
      OneMoreAfterHead(head, front, last);
      assert rest == front + [last];
    }
  }

  lemma FilterOneMore(front: seq<Node>, last: Node, keep: Node -> bool)
    ensures Filter(front + [last], keep) == if keep(last) then Filter(front, keep) + [last] else Filter(front, keep)
  {
    assert (front + [last])[..|front|] == front;
    assert keep(last) || Filter(front + [last], keep) == Filter(front, keep) + [];
  }

  lemma OnlyHeadHasName(head: Node, front: seq<Node>, last: Node)
    requires forall i | 0 <= i < |front| :: front[i].name != last.name
    ensures last.name in NamesOf(KeepFirst([head] + front)) <==> last.name == head.name
  {
    KeepFirstNames([head] + front);
    NamesOfBoth([head], front);
    assert [head][0].name in NamesOf([head]);
  }

  lemma OneMoreAfterHead(head: Node, front: seq<Node>, last: Node)
    requires forall i | 0 <= i < |front| :: front[i].name != last.name
    requires KeepFirst([head] + front) == [head] + Filter(front, NotNamed(head.name))
    ensures KeepFirst([head] + (front + [last])) == [head] + Filter(front + [last], NotNamed(head.name))
  {
    KeepOneMore([head] + front, last);
    OnlyHeadHasName(head, front, last);
    FilterOneMore(front, last, NotNamed(head.name));
    Regrouped(head, front, last);
    Regrouped(head, Filter(front, NotNamed(head.name)), last);
  }

  lemma Regrouped(head: Node, front: seq<Node>, last: Node)
    ensures [head] + (front + [last]) == ([head] + front) + [last]
  {}

  lemma FilterNone(xs: seq<Node>, keep: Node -> bool)
    requires forall i | 0 <= i < |xs| :: !keep(xs[i])
    ensures Filter(xs, keep) == []
  {
    FilterKeeps(xs, keep);
    assert forall x :: x !in Filter(xs, keep);
  }

  lemma {:induction false} FilterOne(xs: seq<Node>, head: Node)
    requires Distinct(xs) && head in xs
    ensures Filter(xs, Named(head.name)) == [head]
  {
    var front, last := xs[..|xs| - 1], xs[|xs| - 1];
    if head == last {
      FilterNone(front, Named(head.name));
    } else {
      assert head in front;
      FilterOne(front, head);
    }
  }

  lemma PreferredIsFirst(pool: seq<Node>, preferred: Option<Name>)
    ensures PreferredOf(pool, preferred) == [] <==> forall n | n in pool :: !IsPreferred(n, preferred)
    ensures PreferredOf(pool, preferred) != [] ==>
      PreferredOf(pool, preferred)[0] in pool && IsPreferred(PreferredOf(pool, preferred)[0], preferred)
  {
    var found := Filter(pool, Prefers(preferred));
    FilterKeeps(pool, Prefers(preferred));
    if found != [] {
      assert found[0] in found;
    } else {
      forall n | n in pool ensures !IsPreferred(n, preferred) { assert n !in found; }
    }
  }

  /** An eligible preferred node comes first; of the others every probed node comes before
      every unprobed one, the unprobed by name, the probed by descending score wherever the
      score is an order. */
  ghost predicate WellOrdered(r: seq<Node>, pool: seq<Node>, stats: StatsMap, preferred: Option<Name>) {
    var scored := TiesAreClean(PoolRates(pool, stats));
    if exists n :: n in pool && IsPreferred(n, preferred)
    then r != [] && IsPreferred(r[0], preferred) && Ranked(r[1..], stats, scored)
    else Ranked(r, stats, scored)
  }

  /** Exactly the nodes of the regions, each once, well ordered. */
  ghost predicate IsOrderOf(r: seq<Node>, nodes: seq<Node>, stats: StatsMap, preferred: Option<Name>, regions: seq<string>) {
    && Distinct(r) && (forall n :: n in r <==> n in nodes && InRegions(n, regions))
    && WellOrdered(r, Eligible(nodes, regions), stats, preferred)
  }

  /** For a pool with distinct names the order is a permutation of the region-eligible nodes
      without duplicates, and well ordered. */
  lemma CandidateOrderIsFaithful(nodes: seq<Node>, stats: StatsMap, preferred: Option<Name>, regions: seq<string>)
    requires Distinct(nodes)
    ensures IsOrderOf(CandidateOrder(nodes, stats, preferred, regions), nodes, stats, preferred, regions)
    ensures multiset(CandidateOrder(nodes, stats, preferred, regions)) == multiset(Eligible(nodes, regions))
  {
    var pool := Eligible(nodes, regions);
    FilterStaysDistinct(nodes, InAny(regions));
    FilterKeeps(nodes, InAny(regions));
    OrderOfPool(pool, stats, preferred);
    SameElements(pool, CandidateOrder(nodes, stats, preferred, regions));
  }

  lemma SameElements(xs: seq<Node>, ys: seq<Node>)
    requires multiset(xs) == multiset(ys)
    ensures forall n :: n in xs <==> n in ys
  {
    forall n ensures n in xs <==> n in ys { assert n in multiset(xs) <==> n in multiset(ys); }
  }

  lemma OrderOfPool(pool: seq<Node>, stats: StatsMap, preferred: Option<Name>)
    requires Distinct(pool)
    ensures var r := KeepFirst(PreferredOf(pool, preferred) + ProbedOf(pool, stats) + UnprobedOf(pool, stats));
      multiset(r) == multiset(pool) && Distinct(r) && WellOrdered(r, pool, stats, preferred)
  {
    var both := ProbedOf(pool, stats) + UnprobedOf(pool, stats);
    HalvesAreThePool(pool, stats);
    HalvesAreRanked(pool, stats);
    InOneRow(PreferredOf(pool, preferred), ProbedOf(pool, stats), UnprobedOf(pool, stats));
    PreferredInFront(pool, stats, preferred, both, PreferredOf(pool, preferred) + ProbedOf(pool, stats) + UnprobedOf(pool, stats));
  }

  lemma InOneRow(a: seq<Node>, b: seq<Node>, c: seq<Node>)
    ensures a + b + c == a + (b + c)
  {}

  lemma PreferredInFront(pool: seq<Node>, stats: StatsMap, preferred: Option<Name>, both: seq<Node>, all: seq<Node>)
    requires all == PreferredOf(pool, preferred) + both
    requires Distinct(both) && multiset(both) == multiset(pool) && Ranked(both, stats, TiesAreClean(PoolRates(pool, stats)))
    ensures var r := KeepFirst(all);
      multiset(r) == multiset(pool) && Distinct(r) && WellOrdered(r, pool, stats, preferred)
  {
    var first := PreferredOf(pool, preferred);
    PreferredIsFirst(pool, preferred);
    if first == [] {
      assert all == both;
      DistinctStays(both);
    } else {
      assert all == [first[0]] + both && multiset(pool)[first[0]] > 0;
      PreferredThenOthers(first[0], both, stats, TiesAreClean(PoolRates(pool, stats)));
    }
  }

  /** The preferred node in front of the ranked others. */
  lemma PreferredThenOthers(head: Node, both: seq<Node>, stats: StatsMap, scored: bool)
    requires Distinct(both) && multiset(both)[head] > 0 && Ranked(both, stats, scored)
    ensures var r := KeepFirst([head] + both);
      multiset(r) == multiset(both) && Distinct(r) && r != [] && r[0] == head && Ranked(r[1..], stats, scored)
  {
    assert head in multiset(both);
    KeepFirstNames([head] + both);
    KeepFirstAfterHead(head, both);
    RankedStays(both, NotNamed(head.name), stats, scored);
    FilterSplits(both, Named(head.name), NotNamed(head.name));
    FilterOne(both, head);
  }

  // ---------------------------------------------------------------------------------
  // The nodes that recovery and the fallback try.

  function FirstOf<T>(xs: seq<T>, n: nat): seq<T> {
    if |xs| <= n then xs else xs[..n]
  }

  function NoneOf(barred: set<Name>): Node -> bool { (n: Node) => n.name !in barred }

  /** The `n` best-ranked nodes that are not barred. */
  function BestOf(pool: seq<Node>, stats: StatsMap, regions: seq<string>, barred: set<Name>, n: nat): seq<Node> {
    FirstOf(Filter(RankedOrder(pool, stats, regions), NoneOf(barred)), n)
  }

  predicate MayTry(x: Node, pool: seq<Node>, stats: StatsMap, regions: seq<string>, barred: set<Name>) {
    x in pool && InRegions(x, regions) && Probed(x, stats) && x.name !in barred
  }

  /** At most `n` of the nodes that may be tried, all of them if there are fewer, each as often
      as in the pool; and where the score is an order, the best ones, best first. */
  ghost predicate AreBest(r: seq<Node>, pool: seq<Node>, stats: StatsMap, regions: seq<string>, barred: set<Name>, n: nat) {
    && |r| <= n && multiset(r) <= multiset(pool)
    && (forall x | x in r :: MayTry(x, pool, stats, regions, barred))
    && (|r| < n ==> forall x | MayTry(x, pool, stats, regions, barred) :: x in r)
    && (TiesAreClean(PoolRates(Eligible(pool, regions), stats)) ==>
          && InOrder(r, ByScore(stats))
          && forall x, y | x in r && MayTry(y, pool, stats, regions, barred) && y !in r :: !ScoresBefore(y, x, stats))
  }

  lemma {:induction false} InOrderStays(xs: seq<Node>, keep: Node -> bool, before: (Node, Node) -> bool)
    requires InOrder(xs, before)
    ensures InOrder(Filter(xs, keep), before)
  {
    if xs != [] {
      var front := xs[..|xs| - 1];
      InOrderStays(front, keep, before);
      FilterKeeps(front, keep);
      forall i | 0 <= i < |Filter(front, keep)| ensures !before(xs[|xs| - 1], Filter(front, keep)[i]) {
        assert Filter(front, keep)[i] in front;
      }
    }
  }

  lemma {:induction false} FilterTakesSome(xs: seq<Node>, keep: Node -> bool)
    ensures multiset(Filter(xs, keep)) <= multiset(xs)
  {
    if xs != [] {
      var front, last := xs[..|xs| - 1], xs[|xs| - 1];
      assert xs == front + [last];
      FilterTakesSome(front, keep);
      OneMoreKept(front, last, keep);
    }
  }

  lemma BestMayBeTried(pool: seq<Node>, stats: StatsMap, regions: seq<string>, barred: set<Name>)
    ensures var all := Filter(RankedOrder(pool, stats, regions), NoneOf(barred));
      multiset(all) <= multiset(pool) && forall x :: x in all <==> MayTry(x, pool, stats, regions, barred)
  {
    var eligible, ranked := Eligible(pool, regions), RankedOrder(pool, stats, regions);
    FilterKeeps(pool, InAny(regions));
    FilterKeeps(eligible, IsProbedIn(stats));
    SortHasSame(Filter(eligible, IsProbedIn(stats)), ByScore(stats));
    FilterKeeps(ranked, NoneOf(barred));
    RankedTakesSome(pool, stats, regions);
    FilterTakesSome(ranked, NoneOf(barred));
  }

  lemma BestAreInOrder(pool: seq<Node>, stats: StatsMap, regions: seq<string>, barred: set<Name>)
    requires TiesAreClean(PoolRates(Eligible(pool, regions), stats))
    ensures InOrder(Filter(RankedOrder(pool, stats, regions), NoneOf(barred)), ByScore(stats))
  {
    HalvesAreInOrder(Eligible(pool, regions), stats);
    InOrderStays(RankedOrder(pool, stats, regions), NoneOf(barred), ByScore(stats));
  }

  lemma FirstAreBest(all: seq<Node>, n: nat, stats: StatsMap)
    requires InOrder(all, ByScore(stats))
    ensures InOrder(FirstOf(all, n), ByScore(stats))
    ensures forall x, y | x in FirstOf(all, n) && y in all && y !in FirstOf(all, n) :: !ScoresBefore(y, x, stats)
  {
    var r := FirstOf(all, n);
    forall x, y | x in r && y in all && y !in r ensures !ScoresBefore(y, x, stats) {
      var i :| 0 <= i < |r| && r[i] == x;
      var j :| 0 <= j < |all| && all[j] == y;
      assert j >= |r| && !ByScore(stats)(all[j], all[i]);
    }
  }

  lemma FirstTakesSome(all: seq<Node>, n: nat)
    ensures multiset(FirstOf(all, n)) <= multiset(all) && |FirstOf(all, n)| <= n
    ensures forall x | x in FirstOf(all, n) :: x in all
    ensures |FirstOf(all, n)| < n ==> FirstOf(all, n) == all
  {
    assert all == FirstOf(all, n) + all[|FirstOf(all, n)|..];
  }

  lemma BestAreBest(pool: seq<Node>, stats: StatsMap, regions: seq<string>, barred: set<Name>, n: nat)
    ensures AreBest(BestOf(pool, stats, regions, barred, n), pool, stats, regions, barred, n)
  {
    var all := Filter(RankedOrder(pool, stats, regions), NoneOf(barred));
    BestMayBeTried(pool, stats, regions, barred);
    FirstTakesSome(all, n);
    if TiesAreClean(PoolRates(Eligible(pool, regions), stats)) {
      BestAreInOrder(pool, stats, regions, barred);
      FirstAreBest(all, n, stats);
    }
  }

  lemma RankedTakesSome(pool: seq<Node>, stats: StatsMap, regions: seq<string>)
    ensures multiset(RankedOrder(pool, stats, regions)) <= multiset(pool)
  {
    FilterTakesSome(pool, InAny(regions));
    FilterTakesSome(Eligible(pool, regions), IsProbedIn(stats));
    SortKeepsElements(Filter(Eligible(pool, regions), IsProbedIn(stats)), ByScore(stats));
  }
}
