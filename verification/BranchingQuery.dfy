/** A query that the scheduler accepts and the set-up of its first run does not survive. */
module BranchingQuery {
  import opened Options
  import opened Sequences
  import opened QueryOperations
  import opened QueryNodes
  import opened Placement
  import opened SchedulingModel
  import opened ExternalLinks
  import opened NodeScheduler
  import opened MemoryManager
  import BlockStore
  import StreamSizes
  import opened MemoryPlan
  import opened SetupConditions
  import opened NodeSetup
  import opened ExecutionPlan
  import opened ExecutionManager
  import opened SetupTheorems

  const JOIN := QueryOperation(Join, [])
  const FILTER := QueryOperation(Filter, [])
  const SORT := QueryOperation(LinearSort, [])

  /** Bitstreams for a join alone or followed by a filter, for a filter alone and for a sort alone. */
  const LIBRARIES := Libraries(map[[JOIN] := "join", [JOIN, FILTER] := "join_filter", [FILTER] := "filter",
                                   [SORT] := "sort"],
                               map[Join := [], Filter := [], LinearSort := []])

  /** A join of two tables feeds a sort, and after that a filter. */
  ghost predicate IsBranching(g: Graph, join: QueryNode, sort: QueryNode, filter: QueryNode) {
    && join != sort && join != filter && sort != filter && g.nodes == {join, sort, filter}
    && join.operationType == Join && sort.operationType == LinearSort && filter.operationType == Filter
    && g.next == map[join := [sort, filter], sort := [null], filter := [null]]
    && g.previous == map[join := [null, null], sort := [join], filter := [join]]
    && join.isChecked == [false, false] && join.outputStreamParameters == seq(8, _ => [])
    && filter.inputStreamParameters == seq(4, _ => [])
  }

  lemma {:induction false} RunOf(runs: seq<Run>, n: QueryNode) returns (k: nat)
    requires n in ScheduledNodes(runs)
    ensures k < |runs| && n in runs[k].nodes
  {
    if n in runs[|runs| - 1].nodes {
      k := |runs| - 1;
    } else {
      k := RunOf(runs[..|runs| - 1], n);
    }
  }

  /** A run with the join holds nothing but, possibly, the filter beside it. */
  lemma JoinRun(g: QueryGraph, run: Run, join: QueryNode, sort: QueryNode, filter: QueryNode)
    requires IsBranching(g, join, sort, filter) && RunSound(LIBRARIES.bitstreams, run)
    requires join in run.nodes && forall n :: n in run.nodes ==> n in g.nodes
    ensures sort !in run.nodes && run.modules == if filter in run.nodes then [JOIN, FILTER] else [JOIN]
  {
    hide ModuleTypes, NodeTypes;
    TypesOfNodes(LIBRARIES.bitstreams, run, Join);
    TypesOfNodes(LIBRARIES.bitstreams, run, LinearSort);
    TypesOfNodes(LIBRARIES.bitstreams, run, Filter);
    KeyWithJoin(run.modules);
  }

  /** A run has modules of exactly the types of its nodes. */
  lemma TypesOfNodes(bitstreams: map<ModulesVector, string>, run: Run, operation: OperationType)
    requires RunSound(bitstreams, run) && operation != PassThrough
    ensures operation in ModuleTypes(run.modules) <==> exists n :: n in run.nodes && n.operationType == operation
  {
    NodeTypesMember(run.nodes, operation);
    assert operation in ModuleTypes(run.modules) <==> operation in multiset(ModuleTypes(run.modules));
    assert operation in NodeTypes(run.nodes) <==> operation in multiset(NodeTypes(run.nodes));
  }

  lemma KeyWithJoin(modules: ModulesVector)
    requires Join in ModuleTypes(modules) && (modules != [] ==> modules in LIBRARIES.bitstreams)
    ensures LinearSort !in ModuleTypes(modules)
    ensures modules == if Filter in ModuleTypes(modules) then [JOIN, FILTER] else [JOIN]
  {
    assert ModuleTypes([JOIN]) == [Join] && ModuleTypes([JOIN, FILTER]) == [Join, Filter];
    assert ModuleTypes([FILTER]) == [Filter] && ModuleTypes([SORT]) == [LinearSort];
  }

  /** The filter could join the join. */
  lemma FilterCanJoin(g: QueryGraph, run: Run, join: QueryNode, sort: QueryNode, filter: QueryNode)
    requires IsBranching(g, join, sort, filter) && join in run.nodes && run.modules == [JOIN]
    ensures CanJoin(g, LIBRARIES, run, filter)
  {
    assert ModuleTypes(run.modules) == [Join];
    assert IndexOf<QueryNode?>(g.next[join], filter) == 1;
    assert Inserted(run.modules, 1, FILTER) == [JOIN, FILTER];
    assert Supports(LIBRARIES.bitstreams, run.modules, 1, Filter, []);
    assert AfterProducers(g, run.nodes, run.modules, filter, 1);
    assert Candidate(LIBRARIES.modules[Filter], []);
  }

  /** So in every schedule it does. */
  lemma FilterJoins(g: QueryGraph, runs: seq<Run>, k: nat, join: QueryNode, sort: QueryNode, filter: QueryNode)
    requires IsBranching(g, join, sort, filter) && ValidSchedule(g, LIBRARIES, runs)
    requires k < |runs| && join in runs[k].nodes
    ensures filter in runs[k].nodes && sort !in runs[k].nodes
  {
    var before, run := ScheduledNodes(runs[..k]), runs[k];
    OrderUpTo(g, runs, k);
    RunIsSegment(runs, k);
    SegmentIsNew(g, before, run.nodes);
    assert RunClosed(g, LIBRARIES, before + run.nodes, run);
    JoinRun(g, run, join, sort, filter);
    if filter !in run.nodes {
      if filter in before {
        ScheduledAreReady(g, before, filter);
        assert false;
      }
      assert Ready(g, before + run.nodes, filter);
      FilterCanJoin(g, run, join, sort, filter);
    }
  }

  lemma ScheduleIsOrdered(g: QueryGraph, runs: seq<Run>)
    requires ValidSchedule(g, LIBRARIES, runs)
    ensures TopologicalOrder(g, ScheduledNodes(runs)) && NoDuplicates(ScheduledNodes(runs))
  {
  }

  /** Every schedule of the query has a run whose set-up reaches for an output that has left. */
  lemma BranchingFails(g: QueryGraph, reuse: ReusePolicy, runs: seq<Run>, join: QueryNode, sort: QueryNode,
                       filter: QueryNode)
    returns (k: nat)
    requires IsBranching(g, join, sort, filter) && ValidSchedule(g, LIBRARIES, runs) && join in ScheduledNodes(runs)
    ensures RunHasObstacle(PlanOf(g, reuse, runs), runs, k, BadAccess)
  {
    hide ValidSchedule, IsBranching, TopologicalOrder, NextRun, InRunOrder, Obstacle, SomeLeaveFirst, WellFormed;
    k := RunOf(runs, join);
    ScheduleIsOrdered(g, runs);
    FilterJoins(g, runs, k, join, sort, filter);
    var plan, nodes := PlanOf(g, reuse, runs), runs[k].nodes;
    RunsFollow(g, reuse, runs, k);
    HomeIsRun(runs, k, join);
    AccessFailsIff(plan, Executed(runs, k), nodes);
    JoinLeavesFirst(plan, nodes, join, sort, filter);
  }

  lemma JoinLeavesFirst(plan: Plan, nodes: seq<QueryNode>, join: QueryNode, sort: QueryNode, filter: QueryNode)
    requires IsBranching(plan.g, join, sort, filter) && join in nodes && AllInPlan(plan, nodes)
    requires join in plan.homes && plan.homes[join] == nodes && filter in nodes && sort !in nodes
    ensures SomeLeaveFirst(plan, nodes)
  {
    assert InPlan(plan, join);
    assert LeavesFirst(plan, join, 0, 1);
  }

  lemma BranchingIsAcyclic(g: Graph, join: QueryNode, sort: QueryNode, filter: QueryNode)
    requires IsBranching(g, join, sort, filter)
    ensures Acyclic(g)
  {
    forall s: set<QueryNode> | s <= g.nodes && s != {} ensures exists n :: n in s && IsSource(g, s, n) {
      if join in s {
        assert IsSource(g, s, join);
      } else {
        var n :| n in s;
        assert IsSource(g, s, n);
      }
    }
  }

  /** With the libraries above the query is never executed, whatever the reuse policy and the record sizes are. */
  lemma NeverExecuted(g: QueryGraph, config: Config, runs: seq<Run>, log: seq<Execution>,
                      snapshots: seq<StreamSizes.Inventory>, store: BlockStore.Store, join: QueryNode,
                      sort: QueryNode, filter: QueryNode)
    requires IsBranching(g, join, sort, filter) && config.libraries == LIBRARIES
    ensures !AllExecuted(g, config, runs, log, snapshots, store)
  {
    hide IsBranching, Acyclic, ValidSchedule, WellFormed, RunHasObstacle;
    BranchingIsAcyclic(g, join, sort, filter);
    JoinIsNode(g, join, sort, filter);
    if AllExecuted(g, config, runs, log, snapshots, store) {
      AllAreScheduled(g, config, runs, log, snapshots, store);
      var k := BranchingFails(g, config.reuse, runs, join, sort, filter);
      NoObstacleOnTheWay(g, config, runs, log, snapshots, store, k, BadAccess);
    }
  }

  lemma JoinIsNode(g: Graph, join: QueryNode, sort: QueryNode, filter: QueryNode)
    requires IsBranching(g, join, sort, filter)
    ensures join in g.nodes
  {
  }

  /** The names and files of the three nodes. */
  ghost predicate HasFiles(g: Graph, join: QueryNode, sort: QueryNode, filter: QueryNode) {
    && join.name == "join" && sort.name == "sort" && filter.name == "filter"
    && sort.isChecked == [true] && filter.isChecked == [true] && sort.inputStreamParameters == seq(4, _ => [])
    && g.inputs == map[join := ["left.csv", "right.csv"], sort := [""], filter := [""]]
    && g.outputs == map[join := ["", ""], sort := ["sorted.csv"], filter := ["kept.csv"]]
  }

  lemma BranchingNamesAreUnique(g: Graph, join: QueryNode, sort: QueryNode, filter: QueryNode)
    requires IsBranching(g, join, sort, filter) && HasFiles(g, join, sort, filter)
    ensures UniqueNames(g.nodes)
  {
    assert join.name[0] != sort.name[0] && join.name[0] != filter.name[0] && sort.name[0] != filter.name[0];
  }

  lemma BranchingLinksAgree(g: Graph, join: QueryNode, sort: QueryNode, filter: QueryNode)
    requires IsBranching(g, join, sort, filter) && HasShape(g)
    ensures Satisfies(g, LinkEndsAgree) && Satisfies(g, NoParallelLinks)
  {
    assert g.next[join][0] == sort && g.next[join][1] == filter;
  }

  lemma BranchingHasShape(g: Graph, join: QueryNode, sort: QueryNode, filter: QueryNode)
    requires IsBranching(g, join, sort, filter) && HasFiles(g, join, sort, filter)
    ensures HasShape(g)
  {
    assert g.next.Keys == g.previous.Keys == g.inputs.Keys == g.outputs.Keys == g.nodes;
    forall n | n in g.nodes
      ensures |g.outputs[n]| == |g.next[n]| && |g.previous[n]| <= |g.inputs[n]|
      ensures forall i :: 0 <= i < |g.next[n]| && g.next[n][i] != null ==> g.next[n][i] in g.nodes
      ensures forall i :: 0 <= i < |g.previous[n]| && g.previous[n][i] != null ==> g.previous[n][i] in g.nodes
    {
      assert n == join || n == sort || n == filter;
    }
  }

  lemma BranchingIsWellFormed(g: Graph, join: QueryNode, sort: QueryNode, filter: QueryNode)
    requires IsBranching(g, join, sort, filter) && HasFiles(g, join, sort, filter)
    ensures WellFormed(g)
  {
    hide IsBranching, HasFiles, UniqueNames;
    BranchingHasShape(g, join, sort, filter);
    BranchingNamesAreUnique(g, join, sort, filter);
    BranchingLinksAgree(g, join, sort, filter);
  }

  lemma BranchingCanBeScheduled(g: QueryGraph, join: QueryNode, sort: QueryNode, filter: QueryNode)
    requires IsBranching(g, join, sort, filter) && HasFiles(g, join, sort, filter)
    ensures ParametersExist(g) && FilesMatch(g) && IsFrontier(g, [], [join])
  {
    assert join in g.previous[sort] && join in g.previous[filter];
    assert IndexOf<QueryNode?>(g.next[join], sort) == 0 && IndexOf<QueryNode?>(g.next[join], filter) == 1;
  }

  /** The nodes of the query, linked to each other. */
  ghost predicate NodesAre(join: QueryNode, sort: QueryNode, filter: QueryNode)
    reads join, sort, filter
  {
    && join.operationType == Join && sort.operationType == LinearSort && filter.operationType == Filter
    && join.name == "join" && sort.name == "sort" && filter.name == "filter"
    && join.nextNodes == [sort, filter] && sort.nextNodes == [null] && filter.nextNodes == [null]
    && join.previousNodes == [null, null] && sort.previousNodes == [join] && filter.previousNodes == [join]
    && join.inputFiles == ["left.csv", "right.csv"] && sort.inputFiles == [""] && filter.inputFiles == [""]
    && join.outputFiles == ["", ""] && sort.outputFiles == ["sorted.csv"] && filter.outputFiles == ["kept.csv"]
    && join.isChecked == [false, false] && sort.isChecked == [true] && filter.isChecked == [true]
    && join.outputStreamParameters == seq(8, _ => [])
    && sort.inputStreamParameters == filter.inputStreamParameters == seq(4, _ => [])
  }

  method MakeNodes() returns (join: QueryNode, sort: QueryNode, filter: QueryNode)
    ensures fresh(join) && fresh(sort) && fresh(filter) && NodesAre(join, sort, filter)
    ensures join != sort && join != filter && sort != filter
  {
    var noParameters: seq<seq<int>> := seq(4, _ => []);
    var joinParameters: seq<seq<int>> := seq(8, _ => []);
    join := new QueryNode(["left.csv", "right.csv"], ["", ""], Join, [], [null, null], joinParameters, joinParameters,
                          [], "join", [false, false]);
    sort := new QueryNode([""], ["sorted.csv"], LinearSort, [null], [join], noParameters, noParameters, [], "sort",
                          [true]);
    filter := new QueryNode([""], ["kept.csv"], Filter, [null], [join], noParameters, noParameters, [], "filter",
                            [true]);
    join.nextNodes := [sort, filter];
  }

  lemma SnapshotIsBranching(join: QueryNode, sort: QueryNode, filter: QueryNode)
    requires NodesAre(join, sort, filter) && join != sort && join != filter && sort != filter
    ensures IsBranching(Snapshot({join, sort, filter}), join, sort, filter)
    ensures HasFiles(Snapshot({join, sort, filter}), join, sort, filter)
  {
  }

  /** The query, as the input handling builds it. */
  method MakeQuery() returns (join: QueryNode, sort: QueryNode, filter: QueryNode, ghost g: QueryGraph)
    ensures fresh(join) && fresh(sort) && fresh(filter)
    ensures IsBranching(g, join, sort, filter) && CanSchedule(g, [join])
  {
    join, sort, filter := MakeNodes();
    hide IsBranching, HasFiles, WellFormed, ParametersExist, FilesMatch, IsFrontier, NodesAre;
    SnapshotIsBranching(join, sort, filter);
    BranchingIsWellFormed(Snapshot({join, sort, filter}), join, sort, filter);
    g := Snapshot({join, sort, filter});
    BranchingCanBeScheduled(g, join, sort, filter);
  }

  /** Executing the query always ends in an error. */
  method ExecuteQuery(pool: Pool, fabric: Fabric, requiredMemorySpace: map<string, int>, recordSizes: RecordSizes)
    returns (error: Option<Error>)
    requires pool.Valid() && pool.held == {}
    modifies pool, fabric
    ensures error.Some?
  {
    hide CanSchedule, AllExecuted, Acyclic, Empty;
    var join, sort, filter, g := MakeQuery();
    var manager := new Manager(Config(LIBRARIES, requiredMemorySpace, ReuseMemory, recordSizes), pool, fabric);
    error := manager.Execute([join], g);
    NeverExecuted(g, manager.config, manager.runs, manager.log, manager.snapshots, manager.store, join, sort, filter);
  }
}
