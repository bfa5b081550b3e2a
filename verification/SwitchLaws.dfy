/** What a completed subscription switch leaves of the persistent state (src/supervisor.rs). */
module SwitchLaws {
  import opened Base
  import opened ProfileState
  import opened StateLaws
  import opened Publication
  import opened Preservation
  import opened Fleets
  import opened Supervision

  /** What a switch leaves of the statistics: those of every other listed profile whose source is
      unchanged, the outgoing one among them, are untouched; those of the target too, except
      that its installed nodes are calm again, unless its source is new or changed. */
  ghost predicate StatisticsKept(s: St, r: St, previous: map<Name, Source>, next: map<Name, Source>, target: Name, planes: seq<Plane>)
    requires target in next
  {
    && r.active == Some(target) && r.verdicts == s.verdicts
    && (forall p | p in next && p != target && !IsChanged(s, previous, next, p) :: NodesFor(r, p) == NodesFor(s, p))
    && var base := if IsChanged(s, previous, next, target) then map[] else KnownNodes(s, target);
       && r.nodes.Keys == base.Keys
       && forall n | n in base :: r.nodes[n] == if RunsOn(planes, n) then base[n].(healthFailures := 0) else base[n]
  }

  lemma SwitchKeepsStatistics(s: St, previous: map<Name, Source>, next: map<Name, Source>, target: Name, vouched: bool, slot: Option<string>,
    classes: seq<ClassRt>, planes: seq<Plane>, now: int)
    requires WellFormed(s) && target in next && |planes| == |classes| && ClassesApart(classes)
    ensures var plans := Plans(classes, planes, |classes|);
      StatisticsKept(s, WithPorts(NextState(s, previous, next, target, vouched, slot, plans, Calm, now), plans), previous, next, target, planes)
  {
    var plans := Plans(classes, planes, |classes|);
    var r := NextState(s, previous, next, target, vouched, slot, plans, Calm, now);
    SwitchKeeps(s, previous, next, target, vouched, slot, plans, Calm, now);
    AfterSwitchKept(s, r, previous, next, target, if vouched then Some(target) else None, slot, classes, planes);
    PortsKeepStatistics(s, r, previous, next, target, planes, plans);
  }

  lemma AfterSwitchKept(s: St, r: St, previous: map<Name, Source>, next: map<Name, Source>, target: Name, v: Option<Name>, slot: Option<string>,
    classes: seq<ClassRt>, planes: seq<Plane>)
    requires target in next && |planes| == |classes| && ClassesApart(classes)
    requires AfterSwitch(s, r, previous, next, target, v, slot, Plans(classes, planes, |classes|), Calm)
    ensures StatisticsKept(s, r, previous, next, target, planes)
  {
    forall n ensures RunsOn(planes, n) <==> IsPlannedFor(Plans(classes, planes, |classes|), n) { PlansRunOn(classes, planes, n); }
    forall p | p in next && p != target && !IsChanged(s, previous, next, p) ensures NodesFor(r, p) == NodesFor(s, p) {
      assert AfterReload(s, r, previous, next, v, p);
    }
  }

  lemma PortsKeepStatistics(s: St, r: St, previous: map<Name, Source>, next: map<Name, Source>, target: Name, planes: seq<Plane>, plans: map<Name, Plan>)
    requires target in next && StatisticsKept(s, r, previous, next, target, planes)
    ensures StatisticsKept(s, WithPorts(r, plans), previous, next, target, planes)
  {
    forall p ensures NodesFor(WithPorts(r, plans), p) == NodesFor(r, p) {}
  }

  predicate IsPlannedFor(plans: map<Name, Plan>, n: Name) {
    exists c | c in plans :: plans[c].node == n
  }

  predicate RunsOn(planes: seq<Plane>, n: Name) {
    exists k :: 0 <= k < |planes| && planes[k].node.name == n
  }

  lemma {:induction false} PlanRunsOn(classes: seq<ClassRt>, planes: seq<Plane>, k: nat)
    requires k < |planes| == |classes| && ClassesApart(classes)
    ensures var plans := Plans(classes, planes, |classes|);
      classes[k].name in plans && plans[classes[k].name].node == planes[k].node.name
  {
    PlansHaveNames(classes, planes, |classes|);
  }

  lemma {:induction false} PlansRunOn(classes: seq<ClassRt>, planes: seq<Plane>, n: Name)
    requires |planes| == |classes| && ClassesApart(classes)
    ensures var plans := Plans(classes, planes, |classes|);
      RunsOn(planes, n) <==> IsPlannedFor(plans, n)
  {
    var plans := Plans(classes, planes, |classes|);
    if RunsOn(planes, n) {
      var k :| 0 <= k < |planes| && planes[k].node.name == n;
      PlanRunsOn(classes, planes, k);
    }
    if c :| c in plans && plans[c].node == n {
      PlansHaveNames(classes, planes, |classes|);
      var k :| 0 <= k < |classes| && classes[k].name == c;
      PlanRunsOn(classes, planes, k);
    }
  }
}
