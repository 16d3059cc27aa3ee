/** When the set-up of a run reaches for what is not there: the exact condition, and a query for which it does. */
module SetupTheorems {
  import opened Sequences
  import opened QueryNodes
  import opened SchedulingModel
  import opened ExternalLinks
  import opened BlockStore
  import opened MemoryPlan
  import opened StreamSizes
  import opened QueryManager
  import opened SetupConditions
  import opened ExecutionPlan
  import opened BlockHistory
  import opened ExecutionManager

  /** Some node of the run has more outputs than inputs. */
  ghost predicate HasMoreOutputs(plan: Plan, nodes: seq<QueryNode>) {
    exists n :: n in nodes && InPlan(plan, n) && |plan.g.next[n]| > |plan.g.previous[n]|
  }

  /** Output `o` of `p` feeds a node of the same run, but output `i` before it leaves the run. */
  ghost predicate LeavesFirst(plan: Plan, p: QueryNode, i: nat, o: nat) {
    && InPlan(plan, p) && i < o < |plan.g.next[p]|
    && KindOf(plan, p, i) != Internal && KindOf(plan, p, o) == Internal
  }

  ghost predicate SomeLeaveFirst(plan: Plan, nodes: seq<QueryNode>) {
    exists p, i, o {:trigger LeavesFirst(plan, p, i, o)} :: p in nodes && LeavesFirst(plan, p, i, o)
  }

  lemma UnreachableLeaves(plan: Plan, done: set<QueryNode>, nodes: seq<QueryNode>, n: QueryNode, j: nat)
    requires NextRun(plan, done, nodes) && n in nodes && InPlan(plan, n) && !LinkReachable(plan, n, j)
    ensures SomeLeaveFirst(plan, nodes)
  {
    var p := plan.g.previous[n][j];
    assert p in nodes && InPlan(plan, p);
    assert Satisfies(plan.g, LinkEndsAgree) && n in plan.g.next[p];
    var o := IndexOf<QueryNode?>(plan.g.next[p], n);
    var i: nat :| i < o && i < |plan.g.next[p]| && KindOf(plan, p, i) != Internal;
    assert LeavesFirst(plan, p, i, o);
  }

  lemma LeavingIsUnreachable(plan: Plan, done: set<QueryNode>, nodes: seq<QueryNode>, p: QueryNode, i: nat, o: nat)
    requires NextRun(plan, done, nodes) && p in nodes && LeavesFirst(plan, p, i, o)
    ensures exists n :: n in nodes && !SizesReachable(plan, n)
  {
    var n := plan.g.next[p][o];
    assert InPlan(plan, p) && n in nodes && InPlan(plan, n);
    assert Satisfies(plan.g, LinkEndsAgree) && Satisfies(plan.g, NoParallelLinks);
    assert n in plan.g.next[p];
    var j :| 0 <= j < |plan.g.previous[n]| && plan.g.previous[n][j] == p;
    assert LinkIsOwn(plan.g.next[p], o);
    assert IndexOf<QueryNode?>(plan.g.next[p], n) == o;
    assert LeavesBefore(plan, p, o);
    assert FedInside(plan, n, j) && !LinkReachable(plan, n, j);
  }

  /** The set-up of a run reaches for what is not there exactly if one of the two conditions holds. */
  lemma AccessFailsIff(plan: Plan, done: set<QueryNode>, nodes: seq<QueryNode>)
    requires NextRun(plan, done, nodes)
    ensures AllInPlan(plan, nodes)
    ensures Obstacle(plan, done, nodes, BadAccess) <==> HasMoreOutputs(plan, nodes) || SomeLeaveFirst(plan, nodes)
  {
    if n :| n in nodes && !SizesReachable(plan, n) {
      assert InPlan(plan, n);
      if |plan.g.next[n]| <= |plan.g.previous[n]| {
        var j: nat :| !LinkReachable(plan, n, j);
        UnreachableLeaves(plan, done, nodes, n, j);
      }
    }
    if SomeLeaveFirst(plan, nodes) {
      var p, i, o :| p in nodes && LeavesFirst(plan, p, i, o);
      LeavingIsUnreachable(plan, done, nodes, p, i, o);
    }
  }

  /** No run of any schedule fails in this way if no node has more outputs than inputs, or more than one output. */
  lemma SingleOutputsSuffice(g: QueryGraph, reuse: ReusePolicy, runs: seq<Run>, k: nat)
    requires forall n :: n in g.nodes ==> |g.next[n]| <= 1 && |g.next[n]| <= |g.previous[n]|
    requires TopologicalOrder(g, ScheduledNodes(runs)) && k < |runs|
    ensures !RunHasObstacle(PlanOf(g, reuse, runs), runs, k, BadAccess)
  {
    RunsFollow(g, reuse, runs, k);
    AccessFailsIff(PlanOf(g, reuse, runs), Executed(runs, k), runs[k].nodes);
  }

  /** Whatever has been executed met no obstacle, so a query with one in some run is not executed. */
  lemma NoObstacleOnTheWay(g: QueryGraph, config: Config, runs: seq<Run>, log: seq<Execution>,
                           snapshots: seq<Inventory>, store: Store, k: nat, status: SetupStatus)
    requires AllExecuted(g, config, runs, log, snapshots, store)
    ensures !RunHasObstacle(PlanOf(g, config.reuse, runs), runs, k, status)
  {
    hide ValidSchedule, Acyclic, Holds, Delivered, RunNoted, Obstacle;
    if k < |runs| {
      assert RunCanBeSetUp(PlanOf(g, config.reuse, runs), runs, k);
    }
  }

  /** Without cycles, whatever has been executed is all of the graph, in a valid schedule. */
  lemma AllAreScheduled(g: QueryGraph, config: Config, runs: seq<Run>, log: seq<Execution>, snapshots: seq<Inventory>,
                        store: Store)
    requires AllExecuted(g, config, runs, log, snapshots, store) && Acyclic(g)
    ensures ValidSchedule(g, config.libraries, runs) && forall n :: n in g.nodes ==> n in ScheduledNodes(runs)
  {
  }
}
