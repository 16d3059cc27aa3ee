/** What a finished schedule gives the execution of its runs, one after the other. */
module ExecutionPlan {
  import opened Sequences
  import opened QueryNodes
  import opened SchedulingModel
  import opened ExternalLinks
  import opened NodeScheduler
  import opened MemoryPlan
  import opened QueryManager
  import opened NodeSetup
  import opened RunSetup

  ghost function PlanOf(g: QueryGraph, reuse: ReusePolicy, runs: seq<Run>): Plan {
    Plan(g, reuse, HomesOf(runs))
  }

  /** The nodes of the first `k` runs. */
  ghost function Executed(runs: seq<Run>, k: nat): set<QueryNode>
    requires k <= |runs|
  {
    Members(ScheduledNodes(runs[..k]))
  }

  lemma {:induction false} RunIsSegment(runs: seq<Run>, k: nat)
    requires k < |runs|
    ensures ScheduledNodes(runs[..k + 1]) == ScheduledNodes(runs[..k]) + runs[k].nodes
    ensures Executed(runs, k + 1) == Executed(runs, k) + Members(runs[k].nodes)
  {
    assert runs[..k + 1][..k] == runs[..k];
  }

  lemma {:induction false} PrefixOfSchedule(runs: seq<Run>, k: nat)
    requires k <= |runs|
    ensures ScheduledNodes(runs[..k]) <= ScheduledNodes(runs)
    decreases |runs| - k
  {
    if k == |runs| {
      assert runs[..k] == runs;
    } else {
      RunIsSegment(runs, k);
      PrefixOfSchedule(runs, k + 1);
    }
  }

  /** The nodes of a run have it as their home. */
  lemma {:induction false} HomeIsRun(runs: seq<Run>, k: nat, n: QueryNode)
    requires NoDuplicates(ScheduledNodes(runs)) && k < |runs| && n in runs[k].nodes
    ensures n in HomesOf(runs) && HomesOf(runs)[n] == runs[k].nodes
  {
    var front, last := runs[..|runs| - 1], runs[|runs| - 1];
    JoinedAt(HomesOf(front), last.nodes, |last.nodes|, n);
    assert last.nodes[..|last.nodes|] == last.nodes;
    if k < |front| {
      var scheduled := ScheduledNodes(front);
      assert forall i :: 0 <= i < |scheduled| ==> scheduled[i] == ScheduledNodes(runs)[i];
      HomeIsRun(front, k, n);
      HomesAreScheduled(front);
      var i :| 0 <= i < |scheduled| && scheduled[i] == n;
      assert forall j :: 0 <= j < |last.nodes| ==> ScheduledNodes(runs)[|scheduled| + j] == last.nodes[j];
    }
  }

  /** A run and everything before it are a topological order. */
  lemma OrderUpTo(g: QueryGraph, runs: seq<Run>, k: nat)
    requires TopologicalOrder(g, ScheduledNodes(runs)) && k < |runs|
    ensures TopologicalOrder(g, ScheduledNodes(runs[..k]))
    ensures TopologicalOrder(g, ScheduledNodes(runs[..k]) + runs[k].nodes)
  {
    hide *;
    RunIsSegment(runs, k);
    PrefixOfSchedule(runs, k);
    PrefixOfSchedule(runs, k + 1);
    FrontInOrder(g, ScheduledNodes(runs[..k]), ScheduledNodes(runs));
    FrontInOrder(g, ScheduledNodes(runs[..k + 1]), ScheduledNodes(runs));
  }

  lemma FrontInOrder(g: QueryGraph, front: seq<QueryNode>, order: seq<QueryNode>)
    requires TopologicalOrder(g, order) && front <= order
    ensures TopologicalOrder(g, front)
  {
    hide *;
    TopologicalPrefix(g, order, |front|);
    assert order[..|front|] == front;
  }

  lemma SegmentIsNew(g: QueryGraph, before: seq<QueryNode>, nodes: seq<QueryNode>)
    requires TopologicalOrder(g, before + nodes)
    ensures NoDuplicates(nodes)
    ensures forall n :: n in nodes ==> n in g.nodes && n !in before
  {
    var order := before + nodes;
    assert forall i :: 0 <= i < |nodes| ==> order[|before| + i] == nodes[i];
    assert forall i :: 0 <= i < |before| ==> order[i] == before[i];
    forall n | n in nodes ensures n in g.nodes && n !in before {
      assert n in order;
    }
  }

  lemma SegmentInOrder(plan: Plan, before: seq<QueryNode>, nodes: seq<QueryNode>)
    requires AllInPlan(plan, nodes) && TopologicalOrder(plan.g, before + nodes)
    ensures InRunOrder(plan, nodes)
  {
    var order := before + nodes;
    SegmentIsNew(plan.g, before, nodes);
    forall i, p: QueryNode | 0 <= i < |nodes| && p in plan.g.previous[nodes[i]] && p in nodes ensures p in nodes[..i] {
      assert order[|before| + i] == nodes[i] && order[..|before| + i] == before + nodes[..i];
      assert Ready(plan.g, order[..|before| + i], nodes[i]);
    }
  }

  /** Each run can be executed once all runs before it have been. */
  lemma RunsFollow(g: QueryGraph, reuse: ReusePolicy, runs: seq<Run>, k: nat)
    requires TopologicalOrder(g, ScheduledNodes(runs)) && k < |runs|
    ensures Executed(runs, k) <= g.nodes && NextRun(PlanOf(g, reuse, runs), Executed(runs, k), runs[k].nodes)
    ensures InRunOrder(PlanOf(g, reuse, runs), runs[k].nodes)
  {
    var plan, before, nodes := PlanOf(g, reuse, runs), ScheduledNodes(runs[..k]), runs[k].nodes;
    OrderUpTo(g, runs, k);
    SegmentIsNew(g, before, nodes);
    forall n | n in nodes
      ensures InPlan(plan, n) && n !in Executed(runs, k) && plan.homes[n] == nodes
           && TargetsPending(plan, Executed(runs, k), n)
    {
      HomeIsRun(runs, k, n);
      LaterTargets(g, before, n);
    }
    SegmentInOrder(plan, before, nodes);
  }

  lemma {:induction false} NodesBefore(runs: seq<Run>, j: nat, k: nat, n: QueryNode)
    requires j < k <= |runs| && n in runs[j].nodes
    ensures n in ScheduledNodes(runs[..k])
  {
    RunIsSegment(runs, k - 1);
    if j < k - 1 {
      NodesBefore(runs, j, k - 1, n);
    }
  }

  /** No node is in two runs. */
  lemma RunsAreDisjoint(g: QueryGraph, runs: seq<Run>, j: nat, k: nat, n: QueryNode)
    requires TopologicalOrder(g, ScheduledNodes(runs)) && j < k < |runs|
    requires n in runs[j].nodes
    ensures n !in runs[k].nodes
  {
    OrderUpTo(g, runs, k);
    SegmentIsNew(g, ScheduledNodes(runs[..k]), runs[k].nodes);
    NodesBefore(runs, j, k, n);
  }

  ghost predicate RunPending(plan: Plan, nodes: seq<QueryNode>)
    reads plan.g.nodes
  {
    AllInPlan(plan, nodes) && (forall n :: n in nodes ==> n in plan.g.nodes) && AsScheduled(plan, nodes)
  }

  /** The runs from `k` on are as the scheduler left them. */
  ghost predicate RunsPending(plan: Plan, runs: seq<Run>, k: nat)
    reads plan.g.nodes
  {
    forall j {:trigger runs[j]} :: k <= j < |runs| ==> RunPending(plan, runs[j].nodes)
  }

  /** Nodes have as many input files as inputs, and a check flag for every output. */
  ghost predicate FilesMatch(g: QueryGraph) {
    forall n {:trigger n in g.nodes} :: n in g.nodes ==>
      |g.inputs[n]| == |g.previous[n]| && |n.isChecked| == |g.outputs[n]|
  }

  lemma CutNodeIsAsScheduled(plan: Plan, n: QueryNode)
    requires InPlan(plan, n) && FilesMatch(plan.g) && CutState(plan.g, plan.reuse, plan.homes)
    ensures PreviousCut(plan, n) && OutputsLinked(plan, n, 0, n.nextNodes)
    ensures |n.inputFiles| == |plan.g.previous[n]| && |n.outputFiles| == |plan.g.next[n]| == |n.isChecked|
  {
    assert NodeState(plan.g, plan.reuse, plan.homes, n);
    assert InputFilesAre(plan.g, plan.reuse, plan.homes, n, n.inputFiles);
  }

  /** A finished schedule is ready to be executed from its first run. */
  lemma ScheduleIsPending(g: QueryGraph, reuse: ReusePolicy, runs: seq<Run>)
    requires TopologicalOrder(g, ScheduledNodes(runs)) && FilesMatch(g) && CutState(g, reuse, HomesOf(runs))
    ensures RunsPending(PlanOf(g, reuse, runs), runs, 0) && PreviousFit(PlanOf(g, reuse, runs))
  {
    var plan := PlanOf(g, reuse, runs);
    forall j | 0 <= j < |runs| ensures RunPending(plan, runs[j].nodes) {
      RunsFollow(g, reuse, runs, j);
      forall n | n in runs[j].nodes
        ensures InPlan(plan, n) && PreviousCut(plan, n) && OutputsLinked(plan, n, 0, n.nextNodes)
        ensures |n.inputFiles| == |plan.g.previous[n]| && |n.outputFiles| == |plan.g.next[n]| == |n.isChecked|
      {
        assert InPlan(plan, n);
        CutNodeIsAsScheduled(plan, n);
      }
    }
    forall t | t in g.nodes ensures |t.previousNodes| == |g.previous[t]| {
      assert NodeState(g, reuse, HomesOf(runs), t);
    }
  }
}
