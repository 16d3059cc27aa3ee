/** What the FPGA is told, from one run to the next: consumers are told to read what their producers wrote. */
module ExecutionTheorems {
  import opened Sequences
  import opened QueryNodes
  import opened SchedulingModel
  import opened ExternalLinks
  import opened BlockTables
  import opened BlockStore
  import opened MemoryPlan
  import opened StreamSizes
  import opened AcceleratedNodes
  import opened NodeSetup
  import opened RunSetup
  import opened RunResults
  import opened ExecutionPlan
  import opened BlockHistory
  import opened ExecutionManager
  import opened QueryManager
  import opened SetupConditions
  import IdManager

  /** Output `i` of node `x` of run `a` is linked to input `j` of node `y` of run `b`. */
  ghost predicate RunsLinked(g: QueryGraph, runs: seq<Run>, a: nat, x: nat, i: nat, b: nat, y: nat, j: nat) {
    && a < |runs| && x < |runs[a].nodes| && b < |runs| && y < |runs[b].nodes|
    && runs[a].nodes[x] in g.nodes && runs[b].nodes[y] in g.nodes
    && i < |g.next[runs[a].nodes[x]]| && g.next[runs[a].nodes[x]][i] == runs[b].nodes[y]
    && j < |g.previous[runs[b].nodes[y]]| && g.previous[runs[b].nodes[y]][j] == runs[a].nodes[x]
  }

  /** The descriptions of both nodes and both streams are there. */
  ghost predicate BothTold(log: seq<Execution>, a: nat, x: nat, i: nat, b: nat, y: nat, j: nat) {
    && a < |log| && x < |log[a].told| && i < |log[a].told[x].outputs|
    && b < |log| && y < |log[b].told| && j < |log[b].told[y].inputs|
  }

  lemma LinkPositionsAre(g: QueryGraph, p: QueryNode, i: nat, c: QueryNode, j: nat)
    requires p in g.nodes && c in g.nodes && i < |g.next[p]| && g.next[p][i] == c
    requires j < |g.previous[c]| && g.previous[c][j] == p
    ensures IndexOf<QueryNode?>(g.next[p], c) == i && Slot(g, p, i) == j
  {
    assert Satisfies(g, NoParallelLinks) && NoRepeatedLink(g.next[p]) && NoRepeatedLink(g.previous[c]);
    assert LinkIsOwn(g.next[p], i) && LinkIsOwn(g.previous[c], j);
    assert c in g.next[p] && p in g.previous[c];
  }

  /** A link between runs that may reuse memory, and is given no file, is a memory link. */
  lemma LinkIsMemory(g: QueryGraph, reuse: ReusePolicy, runs: seq<Run>, a: nat, x: nat, i: nat, b: nat, y: nat, j: nat)
    requires TopologicalOrder(g, ScheduledNodes(runs)) && a != b && RunsLinked(g, runs, a, x, i, b, y, j)
    requires g.outputs[runs[a].nodes[x]][i] == "" && reuse(runs[a].nodes[x], runs[b].nodes[y])
    ensures var plan, p := PlanOf(g, reuse, runs), runs[a].nodes[x];
            MemoryLink(plan, p, i) && Target(plan, p, i) == InputOf(runs[b].nodes[y].name, j)
            && LinkBetween(plan, runs, a, b, p, i)
  {
    var p, c := runs[a].nodes[x], runs[b].nodes[y];
    HomeIsRun(runs, a, p);
    if c in runs[a].nodes {
      RunsAreDisjoint(g, runs, if a < b then a else b, if a < b then b else a, c);
    }
    LinkPositionsAre(g, p, i, c, j);
  }

  lemma NotedAt(g: QueryGraph, config: Config, runs: seq<Run>, log: seq<Execution>, snapshots: seq<Inventory>,
                store: Store, k: nat, x: nat)
    requires AllExecuted(g, config, runs, log, snapshots, store) && k < |runs| && x < |runs[k].nodes|
    ensures |log| == |snapshots| == |runs| && TopologicalOrder(g, ScheduledNodes(runs))
    ensures Delivered(PlanOf(g, config.reuse, runs), runs, snapshots)
    ensures AllInPlan(PlanOf(g, config.reuse, runs), runs[k].nodes)
    ensures RunNoted(PlanOf(g, config.reuse, runs), config.recordSizes, runs[k].nodes, log[k], snapshots[k])
    ensures x < |log[k].told|
    ensures NodeTold(g, config.recordSizes, runs[k].nodes[x], log[k].told[x], log[k].inputIds, log[k].outputIds,
                     snapshots[k].places, snapshots[k].inputs)
  {
    hide RunClosed, Acyclic, Delivered, StreamsNumbered, CountsNoted, NodeTold, Holds;
    assert RunCanBeSetUp(PlanOf(g, config.reuse, runs), runs, k);
  }

  /** The stream that a consumer in a later run is told of, compared with that of its producer. */
  lemma CarriedIsTold(written: Inventory, read: Inventory, p: QueryNode, i: nat, c: QueryNode, j: nat,
                      recordSizes: RecordSizes, output: StreamData, outputIds: IdManager.IdMap, resultSizes: seq<int>,
                      input: StreamData, inputIds: IdManager.IdMap)
    requires Carried(written, OutputOf(p.name, i), read, InputOf(c.name, j))
    requires OutputTold(recordSizes, p, i, output, outputIds, written.places)
    requires CountNoted(recordSizes, p, i, outputIds, resultSizes, written.outputs)
    requires InputTold(c, j, input, inputIds, read.places, read.inputs)
    ensures input.block == output.block && input.block != null
    ensures output.id < |resultSizes| && input.size == Size(output.size.recordSize, resultSizes[output.id])
  {
    var b :| b in written.places && written.places[b] == OutputOf(p.name, i)
             && b in read.places && read.places[b] == InputOf(c.name, j);
  }

  /**
   * A node that is fed by an earlier run, without a file given for it, is told to read the very block that its producer
   * was told to write, with as many records as the FPGA reported for that stream.
   */
  lemma ReadsWhatWasWritten(g: QueryGraph, config: Config, runs: seq<Run>, log: seq<Execution>,
                            snapshots: seq<Inventory>, store: Store, a: nat, x: nat, i: nat, b: nat, y: nat, j: nat)
    requires AllExecuted(g, config, runs, log, snapshots, store) && a != b && RunsLinked(g, runs, a, x, i, b, y, j)
    requires g.outputs[runs[a].nodes[x]][i] == "" && config.reuse(runs[a].nodes[x], runs[b].nodes[y])
    ensures BothTold(log, a, x, i, b, y, j)
    ensures var written, read := log[a].told[x].outputs[i], log[b].told[y].inputs[j];
            && read.block == written.block && read.block != null && written.id < |log[a].resultSizes|
            && read.size == Size(written.size.recordSize, log[a].resultSizes[written.id])
  {
    hide AllExecuted, Carried, OutputTold, InputTold, CountNoted, WellFormed, Waiting, MemoryLink, Target;
    hide StreamsNumbered, TopologicalOrder;
    var plan, p, c := PlanOf(g, config.reuse, runs), runs[a].nodes[x], runs[b].nodes[y];
    NotedAt(g, config, runs, log, snapshots, store, a, x);
    NotedAt(g, config, runs, log, snapshots, store, b, y);
    LinkIsMemory(g, config.reuse, runs, a, x, i, b, y, j);
    assert FoundAsWritten(plan, runs, a, b, p, i, snapshots[a], snapshots[b]);
    LeavesByMemory(plan, p, i);
    assert CountNoted(config.recordSizes, p, i, log[a].outputIds, log[a].resultSizes, snapshots[a].outputs);
    CarriedIsTold(snapshots[a], snapshots[b], p, i, c, j, config.recordSizes, log[a].told[x].outputs[i],
                  log[a].outputIds, log[a].resultSizes, log[b].told[y].inputs[j], log[b].inputIds);
  }

  lemma LeavesByMemory(plan: Plan, n: QueryNode, i: nat)
    requires MemoryLink(plan, n, i)
    ensures InPlan(plan, n) && i < |plan.g.next[n]| && KindOf(plan, n, i) != Internal
  {
  }

  /** Two modules in one run that are linked are told one and the same stream ID. */
  lemma StreamsMeet(g: QueryGraph, config: Config, runs: seq<Run>, log: seq<Execution>, snapshots: seq<Inventory>,
                    store: Store, a: nat, x: nat, i: nat, y: nat, j: nat)
    requires AllExecuted(g, config, runs, log, snapshots, store) && RunsLinked(g, runs, a, x, i, a, y, j)
    ensures BothTold(log, a, x, i, a, y, j)
    ensures log[a].told[y].inputs[j].id == log[a].told[x].outputs[i].id
  {
    hide AllExecuted, WellFormed, CountsNoted, RunCanBeSetUp, Delivered;
    var plan, p, c := PlanOf(g, config.reuse, runs), runs[a].nodes[x], runs[a].nodes[y];
    NotedAt(g, config, runs, log, snapshots, store, a, x);
    NotedAt(g, config, runs, log, snapshots, store, a, y);
    HomeIsRun(runs, a, c);
    LinkPositionsAre(g, p, i, c, j);
    assert FedInside(plan, c, j) && InPlan(plan, c);
    assert IdsFit(plan, c, log[a].inputIds, log[a].outputIds);
    assert |log[a].inputIds[c.name]| > j && log[a].inputIds[c.name][j] == log[a].told[y].inputs[j].id;
    assert SharesID(plan, c, j, log[a].inputIds, log[a].outputIds);
  }
}
