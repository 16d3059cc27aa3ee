/** Setting up a run: its vectors, its stream IDs, and its nodes. */
module RunSetup {
  import opened Sequences
  import opened AccelerationConstants
  import opened QueryNodes
  import opened ExternalLinks
  import opened BlockTables
  import opened BlockStore
  import opened MemoryPlan
  import opened StreamSizes
  import opened QueryManager
  import opened SetupConditions
  import opened AcceleratedNodes
  import opened NodeSetup
  import IdManager

  lemma StillPointsTo(plan: Plan, done: set<QueryNode>, nodes: seq<QueryNode>, p: QueryNode, n: QueryNode)
    requires NextRun(plan, done, nodes) && RunReady(plan, nodes) && FilesFit(plan, nodes)
    requires p in nodes && n in nodes && InPlan(plan, p) && InPlan(plan, n) && p in plan.g.previous[n]
    ensures n in p.nextNodes && |p.outputFiles| == |p.nextNodes|
  {
    assert Satisfies(plan.g, LinkEndsAgree);
    assert n in plan.g.next[p];
    var i :| 0 <= i < |plan.g.next[p]| && plan.g.next[p][i] == n;
    assert KindOf(plan, p, i) == Internal;
    assert p.nextNodes[i] == n;
  }

  lemma NodeInOrder(plan: Plan, done: set<QueryNode>, nodes: seq<QueryNode>, k: nat)
    requires NextRun(plan, done, nodes) && RunReady(plan, nodes) && FilesFit(plan, nodes) && InRunOrder(plan, nodes)
         && k < |nodes|
    ensures IdManager.InOrder(nodes[..k], nodes[k])
  {
    var n := nodes[k];
    assert n in nodes && InPlan(plan, n);
    assert Satisfies(plan.g, NoParallelLinks);
    forall i | 0 <= i < |n.previousNodes| ensures LinkIsOwn(n.previousNodes, i) {
      assert LinkIsOwn(plan.g.previous[n], i);
      assert forall j: nat :: j < |n.previousNodes| && n.previousNodes[j] != null ==> FedInside(plan, n, j);
    }
    forall i | 0 <= i < |n.inputFiles| && n.previousNodes[i] != null
      ensures n.previousNodes[i] in nodes[..k] && n in n.previousNodes[i].nextNodes
      ensures IndexOf<QueryNode?>(n.previousNodes[i].nextNodes, n) < |n.previousNodes[i].outputFiles|
    {
      assert FedInside(plan, n, i);
      assert InPlan(plan, n.previousNodes[i]);
      StillPointsTo(plan, done, nodes, n.previousNodes[i], n);
    }
  }

  /** A run that has been prepared is what the stream IDs are given to. */
  lemma RunHasShape(plan: Plan, done: set<QueryNode>, nodes: seq<QueryNode>)
    requires NextRun(plan, done, nodes) && RunReady(plan, nodes) && FilesFit(plan, nodes) && InRunOrder(plan, nodes)
    ensures IdManager.RunShape(plan.g.nodes, nodes)
    ensures forall n :: n in nodes ==> |n.inputFiles| <= |n.previousNodes|
  {
    assert Satisfies(plan.g, NamesAreUnique);
    forall n | n in nodes ensures n in plan.g.nodes && IdManager.LinksWithin(plan.g.nodes, n)
         && |n.inputFiles| <= |n.previousNodes| {
      assert InPlan(plan, n);
    }
    forall k | 0 <= k < |nodes| ensures IdManager.InOrder(nodes[..k], nodes[k]) {
      NodeInOrder(plan, done, nodes, k);
    }
  }

  lemma {:induction false} ExternalsArePlanned(plan: Plan, n: QueryNode, limit: nat)
    requires InPlan(plan, n) && PreviousCut(plan, n) && limit <= |n.previousNodes|
    ensures IdManager.ExternalInputs(n, limit) == ExternalCount(plan, n, limit)
  {
    if limit > 0 {
      ExternalsArePlanned(plan, n, limit - 1);
      assert FedInside(plan, n, limit - 1) <==> n.previousNodes[limit - 1] != null;
    }
  }

  /** What the IDs are counted from is known from the plan. */
  lemma {:induction false} DemandIsPlanned(plan: Plan, nodes: seq<QueryNode>)
    requires RunReady(plan, nodes) && FilesFit(plan, nodes)
    requires forall n :: n in nodes ==> |n.inputFiles| <= |n.previousNodes|
    ensures IdManager.TotalDemand(nodes) == StreamDemand(plan, nodes)
  {
    if nodes != [] {
      var front, n := nodes[..|nodes| - 1], nodes[|nodes| - 1];
      assert n in nodes && InPlan(plan, n);
      forall m | m in front
        ensures InPlan(plan, m) && PreviousCut(plan, m) && OutputsLinked(plan, m, |plan.g.next[m]|, m.nextNodes)
      {
        assert m in nodes && InPlan(plan, m);
      }
      DemandIsPlanned(plan, front);
      ExternalsArePlanned(plan, n, |plan.g.previous[n]|);
    }
  }

  ghost predicate AllTargetsReady(plan: Plan, nodes: seq<QueryNode>, names: set<string>)
    requires AllInPlan(plan, nodes)
  {
    forall n {:trigger InPlan(plan, n)} :: n in nodes ==>
      InPlan(plan, n) && TargetsReady(plan, n, |plan.g.next[n]|, names)
  }

  /** The nodes of the run are as the scheduler left them. */
  ghost predicate AsScheduled(plan: Plan, nodes: seq<QueryNode>)
    requires AllInPlan(plan, nodes)
    reads nodes
  {
    && FilesFit(plan, nodes)
    && forall n {:trigger InPlan(plan, n)} :: n in nodes ==>
         InPlan(plan, n) && PreviousCut(plan, n) && OutputsLinked(plan, n, 0, n.nextNodes)
  }

  /** Between runs: the only blocks held are those that wait for nodes still to run, and each has its size. */
  ghost predicate Idle(plan: Plan, done: set<QueryNode>, store: Store, sizes: Sizes)
    reads store, store.pool, sizes
  {
    && Prepared(store, Waiting(plan, done), plan, done) && store.outputs == map[]
    && InStep(store.inputs, sizes.inputs) && sizes.outputs == map[]
  }

  lemma InitialisationStarts(plan: Plan, done: set<QueryNode>, nodes: seq<QueryNode>, names: set<string>)
    requires NextRun(plan, done, nodes) && AsScheduled(plan, nodes)
    ensures Initialised(plan, nodes, 0, Pointers(nodes), names, map[])
  {
    forall j | 0 <= j < |nodes| ensures InPlan(plan, nodes[j]) && OutputsLinked(plan, nodes[j], 0, nodes[j].nextNodes) {
      assert nodes[j] in nodes && InPlan(plan, nodes[j]);
    }
  }

  lemma InitialisationDone(plan: Plan, done: set<QueryNode>, nodes: seq<QueryNode>, inputs: BlockTable,
                           outputs: BlockTable)
    requires NextRun(plan, done, nodes) && InputsShaped(plan, done, inputs)
    requires Initialised(plan, nodes, |nodes|, Pointers(nodes), inputs.Keys, outputs)
    ensures AllTargetsReady(plan, nodes, inputs.Keys) && RunVectors(plan, nodes, inputs, outputs)
    ensures OutputsShaped(plan, nodes, |nodes|, outputs)
    ensures forall n {:trigger InPlan(plan, n)} :: n in nodes ==>
         InPlan(plan, n) && OutputsLinked(plan, n, |plan.g.next[n]|, n.nextNodes)
  {
    forall n | n in nodes
      ensures InPlan(plan, n) && Linked(plan, n, |plan.g.next[n]|, n.nextNodes, inputs.Keys)
           && HasVectors(plan, n, inputs, outputs)
    {
      var j :| 0 <= j < |nodes| && nodes[j] == n;
      VectorOf(plan, done, inputs, n);
    }
  }

  /** Before its nodes are set up, the sizes of a run are those that earlier runs have left. */
  lemma RunIsUnsized(plan: Plan, recordSizes: RecordSizes, done: set<QueryNode>, nodes: seq<QueryNode>,
                     blocks: BlockTable, blockOutputs: BlockTable, inputs: SizeTable, outputs: SizeTable)
    requires NextRun(plan, done, nodes) && RunVectors(plan, nodes, blocks, blockOutputs)
    requires InStep(blocks, inputs) && SizesShaped(plan, nodes, |nodes|, outputs)
    ensures RunSized(plan, recordSizes, done, nodes, 0, inputs, inputs, outputs)
  {
    forall j | 0 <= j < |nodes|
      ensures InPlan(plan, nodes[j])
      ensures NodeUnsized(plan, recordSizes, done, nodes[j], inputs, inputs, outputs)
    {
      assert nodes[j] in nodes && InPlan(plan, nodes[j]);
    }
  }

  lemma PreparedIsShaped(store: Store, plan: Plan, done: set<QueryNode>)
    requires Prepared(store, Waiting(plan, done), plan, done)
    ensures InputsShaped(plan, done, store.inputs)
  {
  }

  lemma InStepWhen(before: SizeTable, blocks: BlockTable, sizes: SizeTable)
    requires InputsInStep(before, blocks, sizes)
    ensures InStep(blocks, sizes) && Extends(before, sizes)
  {
  }

  lemma PreparedIsSetUp(plan: Plan, recordSizes: RecordSizes, done: set<QueryNode>, nodes: seq<QueryNode>,
                        store: Store, sizes: Sizes)
    requires AllInPlan(plan, nodes) && Prepared(store, Waiting(plan, done), plan, done)
    requires RunVectors(plan, nodes, store.inputs, store.outputs)
    requires RunSized(plan, recordSizes, done, nodes, 0, sizes.inputs, sizes.inputs, sizes.outputs)
    ensures SetUpTo(plan, recordSizes, done, nodes, 0, sizes.inputs, store, sizes)
  {
    assert Waiting(plan, done) + RunTaken(plan, nodes, 0) == Waiting(plan, done);
  }

  /** Gives the nodes and their consumers their vectors; afterwards pointers lead only inside the run. */
  method PrepareRun(nodes: seq<QueryNode>, store: Store, sizes: Sizes, ghost recordSizes: RecordSizes,
                    ghost plan: Plan, ghost done: set<QueryNode>)
    requires done <= plan.g.nodes && NextRun(plan, done, nodes) && PreviousFit(plan) && AsScheduled(plan, nodes)
    requires Idle(plan, done, store, sizes)
    modifies store`inputs, store`outputs, sizes`inputs, sizes`outputs, nodes`nextNodes
    ensures SetUpTo(plan, recordSizes, done, nodes, 0, sizes.inputs, store, sizes)
    ensures InputsShaped(plan, done, store.inputs) && OutputsShaped(plan, nodes, |nodes|, store.outputs)
    ensures AllTargetsReady(plan, nodes, store.inputs.Keys)
    ensures InputsInStep(old(sizes.inputs), store.inputs, sizes.inputs)
    ensures RunReady(plan, nodes) && FilesFit(plan, nodes)
  {
    hide WellFormed, FilesFit, PreviousCut, AllTargetsReady, RunVectors, NextRun, RunSized, InStep, Prepared, SetUpTo;
    hide Initialised, OutputsShaped, Linked;
    InitialisationStarts(plan, done, nodes, store.inputs.Keys);
    InitialiseVectorSizes(nodes, store, sizes, Waiting(plan, done), plan, done);
    PreparedIsShaped(store, plan, done);
    InitialisationDone(plan, done, nodes, store.inputs, store.outputs);
    InStepWhen(old(sizes.inputs), store.inputs, sizes.inputs);
    RunIsUnsized(plan, recordSizes, done, nodes, store.inputs, store.outputs, sizes.inputs, sizes.outputs);
    PreparedIsSetUp(plan, recordSizes, done, nodes, store, sizes);
  }

  /** Predecessors that are still known are nodes of the graph. */
  ghost predicate LinkedWithin(g: QueryGraph, nodes: seq<QueryNode>)
    reads g.nodes
  {
    forall n {:trigger n in nodes} :: n in nodes ==>
      n in g.nodes && forall p: QueryNode :: p in n.previousNodes ==> p in g.nodes
  }

  /**
   * The streams of the run have their IDs: one for both ends of every internal link, different ones for inputs from
   * outside, and different ones for outputs that nobody takes.
   */
  ghost predicate HasIDs(g: QueryGraph, nodes: seq<QueryNode>, inputIds: IdManager.IdMap, outputIds: IdManager.IdMap)
    reads g.nodes
  {
    && LinkedWithin(g, nodes) && (forall n :: n in nodes ==> n in g.nodes)
    && (forall m :: m in nodes ==> IdManager.NodeDone(m, inputIds, outputIds, MAX_IO_STREAM_COUNT))
    && IdManager.LeftoversDiffer(nodes, outputIds) && IdManager.ExternalsDiffer(nodes, inputIds)
  }

  lemma RunIsLinkedWithin(plan: Plan, nodes: seq<QueryNode>)
    requires RunReady(plan, nodes)
    ensures LinkedWithin(plan.g, nodes)
  {
    forall n | n in nodes ensures n in plan.g.nodes && forall p: QueryNode :: p in n.previousNodes ==>
         p in plan.g.nodes {
      assert InPlan(plan, n);
      forall i | 0 <= i < |n.previousNodes| && n.previousNodes[i] != null ensures n.previousNodes[i] in plan.g.nodes {
        assert FedInside(plan, n, i);
      }
    }
  }

  lemma IdsOfRunFit(plan: Plan, nodes: seq<QueryNode>, inputIds: IdManager.IdMap, outputIds: IdManager.IdMap)
    requires HasIDs(plan.g, nodes, inputIds, outputIds) && AllInPlan(plan, nodes) && FilesFit(plan, nodes)
    ensures RunIdsFit(plan, nodes, inputIds, outputIds)
  {
    forall n | n in nodes ensures IdsFit(plan, n, inputIds, outputIds) {
      assert InPlan(plan, n) && IdManager.NodeDone(n, inputIds, outputIds, MAX_IO_STREAM_COUNT);
    }
  }

  /** Inputs `i` of `p` and `j` of `q` come from outside the run, and are not the same. */
  ghost predicate EnterApart(plan: Plan, p: QueryNode, i: nat, q: QueryNode, j: nat) {
    && InPlan(plan, p) && i < |plan.g.previous[p]| && !FedInside(plan, p, i)
    && InPlan(plan, q) && j < |plan.g.previous[q]| && !FedInside(plan, q, j) && (p, i) != (q, j)
  }

  /** Outputs `i` of `p` and `j` of `q` leave the run, and are not the same. */
  ghost predicate LeaveApart(plan: Plan, p: QueryNode, i: nat, q: QueryNode, j: nat) {
    && InPlan(plan, p) && i < |plan.g.next[p]| && KindOf(plan, p, i) != Internal
    && InPlan(plan, q) && j < |plan.g.next[q]| && KindOf(plan, q, j) != Internal && (p, i) != (q, j)
  }

  /** Input `i` of `n` has the ID of the output that feeds it inside the run. */
  ghost predicate SharesID(plan: Plan, n: QueryNode, i: nat, inputIds: IdManager.IdMap, outputIds: IdManager.IdMap)
    requires InPlan(plan, n) && FedInside(plan, n, i) && n.name in inputIds && i < |inputIds[n.name]|
  {
    var p := plan.g.previous[n][i];
    && p in plan.g.nodes && p.name in outputIds
    && var o := IndexOf<QueryNode?>(plan.g.next[p], n);
    o < |outputIds[p.name]| && inputIds[n.name][i] == outputIds[p.name][o]
  }

  /**
   * The streams of the run are numbered as the plan demands: both ends of a link inside the run have one ID, and what
   * enters the run, as well as what leaves it, can be told apart.
   */
  ghost predicate StreamsNumbered(plan: Plan, nodes: seq<QueryNode>, inputIds: IdManager.IdMap,
                                  outputIds: IdManager.IdMap)
    requires AllInPlan(plan, nodes)
  {
    && RunIdsFit(plan, nodes, inputIds, outputIds)
    && (forall n, i: nat {:trigger inputIds[n.name][i]} ::
          n in nodes && InPlan(plan, n) && n.name in inputIds && i < |inputIds[n.name]| ==>
          && inputIds[n.name][i] < MAX_IO_STREAM_COUNT
          && (FedInside(plan, n, i) ==> SharesID(plan, n, i, inputIds, outputIds)))
    && (forall p, i: nat, q, j: nat {:trigger EnterApart(plan, p, i, q, j)} ::
          && p in nodes && q in nodes && EnterApart(plan, p, i, q, j)
          && p.name in inputIds && i < |inputIds[p.name]| && q.name in inputIds && j < |inputIds[q.name]| ==>
          inputIds[p.name][i] != inputIds[q.name][j])
    && (forall p, i: nat, q, j: nat {:trigger LeaveApart(plan, p, i, q, j)} ::
          && p in nodes && q in nodes && LeaveApart(plan, p, i, q, j)
          && p.name in outputIds && i < |outputIds[p.name]| && q.name in outputIds && j < |outputIds[q.name]| ==>
          outputIds[p.name][i] != outputIds[q.name][j])
  }

  lemma InnerShareID(plan: Plan, done: set<QueryNode>, nodes: seq<QueryNode>, inputIds: IdManager.IdMap,
                     outputIds: IdManager.IdMap, n: QueryNode, i: nat)
    requires NextRun(plan, done, nodes) && RunReady(plan, nodes) && HasIDs(plan.g, nodes, inputIds, outputIds)
    requires n in nodes && InPlan(plan, n) && FedInside(plan, n, i) && n.name in inputIds && i < |inputIds[n.name]|
    ensures SharesID(plan, n, i, inputIds, outputIds)
  {
    var p := plan.g.previous[n][i];
    assert p in nodes && InPlan(plan, p) && n.previousNodes[i] == p && p in n.previousNodes;
    FeedingOutput(plan, p, n);
    assert IdManager.NodeDone(n, inputIds, outputIds, MAX_IO_STREAM_COUNT);
    assert IdManager.InputLinked(n, i, inputIds[n.name][i], outputIds, 0);
  }

  /** An output that leaves the run is taken by none of its inputs. */
  lemma LeavingIsNotConsumed(plan: Plan, nodes: seq<QueryNode>, p: QueryNode, o: nat)
    requires RunReady(plan, nodes) && p in nodes && InPlan(plan, p)
    requires o < |plan.g.next[p]| && KindOf(plan, p, o) != Internal
    ensures !IdManager.Consumed(nodes, p, o)
  {
    assert p.nextNodes[o] == null;
    forall m, j: nat | m in nodes ensures !IdManager.Feeds(p, o, m, j) {
      assert IndexOf<QueryNode?>(p.nextNodes, m) < |p.nextNodes| ==>
          p.nextNodes[IndexOf<QueryNode?>(p.nextNodes, m)] == m;
    }
  }

  lemma NumberedAsPlanned(plan: Plan, done: set<QueryNode>, nodes: seq<QueryNode>, inputIds: IdManager.IdMap,
                          outputIds: IdManager.IdMap)
    requires NextRun(plan, done, nodes) && RunReady(plan, nodes) && FilesFit(plan, nodes)
    requires HasIDs(plan.g, nodes, inputIds, outputIds) && RunIdsFit(plan, nodes, inputIds, outputIds)
    ensures StreamsNumbered(plan, nodes, inputIds, outputIds)
  {
    forall n, i: nat | n in nodes && InPlan(plan, n) && n.name in inputIds && i < |inputIds[n.name]|
      ensures inputIds[n.name][i] < MAX_IO_STREAM_COUNT
      ensures FedInside(plan, n, i) ==> SharesID(plan, n, i, inputIds, outputIds)
    {
      assert IdManager.NodeDone(n, inputIds, outputIds, MAX_IO_STREAM_COUNT);
      if FedInside(plan, n, i) {
        InnerShareID(plan, done, nodes, inputIds, outputIds, n, i);
      }
    }
    forall p, i: nat, q, j: nat | p in nodes && q in nodes && EnterApart(plan, p, i, q, j)
                        && p.name in inputIds && i < |inputIds[p.name]| && q.name in inputIds && j < |inputIds[q.name]|
      ensures inputIds[p.name][i] != inputIds[q.name][j]
    {
      assert InPlan(plan, p) && InPlan(plan, q);
      assert p.previousNodes[i] == null && q.previousNodes[j] == null;
    }
    forall p, i: nat, q, j: nat | p in nodes && q in nodes && LeaveApart(plan, p, i, q, j)
                        && p.name in outputIds && i < |outputIds[p.name]|
                        && q.name in outputIds && j < |outputIds[q.name]|
      ensures outputIds[p.name][i] != outputIds[q.name][j]
    {
      LeavingIsNotConsumed(plan, nodes, p, i);
      LeavingIsNotConsumed(plan, nodes, q, j);
      assert InPlan(plan, p) && InPlan(plan, q);
    }
  }

  /** Gives a run that has been prepared its stream IDs. */
  method GiveIds(nodes: seq<QueryNode>, ghost plan: Plan, ghost done: set<QueryNode>)
    returns (ok: bool, inputIds: IdManager.IdMap, outputIds: IdManager.IdMap)
    requires NextRun(plan, done, nodes) && InRunOrder(plan, nodes) && RunReady(plan, nodes) && FilesFit(plan, nodes)
    ensures ok <==> StreamDemand(plan, nodes) <= MAX_IO_STREAM_COUNT
    ensures ok ==> StreamsNumbered(plan, nodes, inputIds, outputIds)
  {
    hide NextRun, InRunOrder, RunIdsFit, WellFormed;
    RunHasShape(plan, done, nodes);
    RunIsLinkedWithin(plan, nodes);
    DemandIsPlanned(plan, nodes);
    ok, inputIds, outputIds := IdManager.AllocateStreamIDs(nodes, plan.g.nodes);
    if ok {
      IdsOfRunFit(plan, nodes, inputIds, outputIds);
      NumberedAsPlanned(plan, done, nodes, inputIds, outputIds);
    }
  }

  lemma NumberedFit(plan: Plan, nodes: seq<QueryNode>, inputIds: IdManager.IdMap, outputIds: IdManager.IdMap)
    requires AllInPlan(plan, nodes) && StreamsNumbered(plan, nodes, inputIds, outputIds)
    ensures RunIdsFit(plan, nodes, inputIds, outputIds)
  {
  }

  /** All output sizes of the run are set, as far as they are known. */
  ghost predicate AllOutputsSized(plan: Plan, recordSizes: RecordSizes, nodes: seq<QueryNode>, outputs: SizeTable) {
    forall n {:trigger n in nodes} :: n in nodes ==>
      && n in plan.g.nodes && |plan.g.next[n]| <= |plan.g.previous[n]|
      && OutputsSized(plan, recordSizes, n, |plan.g.next[n]|, outputs)
  }

  /** The sizes of the inputs that wait for their consumer exist. */
  ghost predicate WaitingSized(plan: Plan, done: set<QueryNode>, inputs: SizeTable) {
    forall p {:trigger p in Waiting(plan, done)} :: p in Waiting(plan, done) ==>
      p.InputOf? && SizeEntry(inputs, p.name, p.index).Some?
  }

  /** The sizes of the inputs that wait for their consumer are what they were. */
  ghost predicate SizesWait(plan: Plan, done: set<QueryNode>, before: SizeTable, after: SizeTable) {
    forall p {:trigger p in Waiting(plan, done)} :: p in Waiting(plan, done) ==>
      p.InputOf? && SizeEntry(after, p.name, p.index) == SizeEntry(before, p.name, p.index)
  }

  lemma WaitingHasSizes(plan: Plan, done: set<QueryNode>, store: Store, sizes: Sizes)
    requires Idle(plan, done, store, sizes)
    ensures WaitingSized(plan, done, sizes.inputs)
  {
    forall p | p in Waiting(plan, done) ensures p.InputOf? && SizeEntry(sizes.inputs, p.name, p.index).Some? {
      assert store.At(p) != null;
    }
  }

  lemma NotHandedInside(plan: Plan, done: set<QueryNode>, nodes: seq<QueryNode>, node: QueryNode, j: nat)
    requires done <= plan.g.nodes && NextRun(plan, done, nodes) && node in nodes && InPlan(plan, node)
         && FedInside(plan, node, j)
    ensures InputOf(node.name, j) !in Targets(plan, done)
  {
    assert Satisfies(plan.g, NamesAreUnique) && NameIsOwn(plan.g.nodes, node);
    forall n, i: nat | n in done && MemoryLink(plan, n, i) ensures Target(plan, n, i) != InputOf(node.name, j) {
      assert plan.g.previous[node][j] in nodes && InPlan(plan, plan.g.previous[node][j]);
      assert plan.g.next[n][i] in plan.g.nodes;
    }
  }

  /** Setting up a run leaves the sizes that wait where they are, those of its own inputs included. */
  lemma WaitingSizesStay(plan: Plan, recordSizes: RecordSizes, done: set<QueryNode>, nodes: seq<QueryNode>,
                         start: SizeTable, before: SizeTable, inputs: SizeTable, outputs: SizeTable)
    requires done <= plan.g.nodes && NextRun(plan, done, nodes)
    requires WaitingSized(plan, done, start) && Extends(start, before)
    requires RunSized(plan, recordSizes, done, nodes, |nodes|, before, inputs, outputs)
    ensures SizesWait(plan, done, start, inputs)
  {
    hide Waiting, OutputsSized, WellFormed;
    forall p | p in Waiting(plan, done)
      ensures p.InputOf? && SizeEntry(inputs, p.name, p.index) == SizeEntry(start, p.name, p.index)
    {
      assert p.name in start && p.name in before;
      if inputs[p.name] != before[p.name] {
        var j :| 0 <= j < |nodes| && nodes[j].name == p.name;
        var n := nodes[j];
        assert n in nodes && InPlan(plan, n);
        if FedInside(plan, n, p.index) {
          NotHandedInside(plan, done, nodes, n, p.index);
          NotWaiting(plan, done, p);
        }
        assert InputSized(plan, recordSizes, done, n, p.index, before[n.name][p.index], inputs[n.name][p.index]);
      }
    }
  }

  lemma NotWaiting(plan: Plan, done: set<QueryNode>, p: Place)
    requires p !in Targets(plan, done)
    ensures p !in Waiting(plan, done)
  {
  }

  /**
   * The run is set up: blocks and sizes are there, the consumers of its memory links have their vectors, and the FPGA
   * can be told of it.
   */
  ghost predicate SetUp(plan: Plan, recordSizes: RecordSizes, done: set<QueryNode>, nodes: seq<QueryNode>,
                        setup: Setup, store: Store, sizes: Sizes)
    requires AllInPlan(plan, nodes)
    reads store, store.pool, sizes, nodes`outputFiles, nodes`moduleLocation
  {
    && Allocated(plan, done, nodes, |nodes|, store)
    && InputsShaped(plan, done, store.inputs) && OutputsShaped(plan, nodes, |nodes|, store.outputs)
    && AllTargetsReady(plan, nodes, store.inputs.Keys)
    && InStep(store.inputs, sizes.inputs) && AllOutputsSized(plan, recordSizes, nodes, sizes.outputs)
    && RunIdsFit(plan, nodes, setup.inputIds, setup.outputIds)
    && RunDescribed(nodes, |nodes|, setup.accelerated, setup.results, setup.inputIds, setup.outputIds,
                    Now(store, sizes))
  }

  /** What the set-up of a run results in. */
  datatype Setup = Setup(accelerated: seq<AcceleratedNode>, results: ResultMap, inputIds: IdManager.IdMap,
                         outputIds: IdManager.IdMap)

  lemma ShapesStay(plan: Plan, recordSizes: RecordSizes, done: set<QueryNode>, nodes: seq<QueryNode>, before: SizeTable,
                   earlier: Tables, later: Tables)
    requires AllInPlan(plan, nodes) && Kept(earlier, later)
    requires InputsShaped(plan, done, earlier.inputs) && OutputsShaped(plan, nodes, |nodes|, earlier.outputs)
    requires AllTargetsReady(plan, nodes, earlier.inputs.Keys) && InStep(earlier.inputs, earlier.inputSizes)
    requires RunSized(plan, recordSizes, done, nodes, |nodes|, before, later.inputSizes, later.outputSizes)
    requires forall j :: 0 <= j < |nodes| ==> SizesReachable(plan, nodes[j])
    ensures InputsShaped(plan, done, later.inputs) && OutputsShaped(plan, nodes, |nodes|, later.outputs)
    ensures AllTargetsReady(plan, nodes, later.inputs.Keys) && InStep(later.inputs, later.inputSizes)
    ensures AllOutputsSized(plan, recordSizes, nodes, later.outputSizes)
    ensures Grown(earlier.places, later.places)
  {
    hide OutputsSized, InputsSized;
  }

  lemma NothingStandsInTheWay(plan: Plan, recordSizes: RecordSizes, done: set<QueryNode>, nodes: seq<QueryNode>,
                              before: SizeTable, store: Store, sizes: Sizes)
    requires AllInPlan(plan, nodes) && SetUpTo(plan, recordSizes, done, nodes, |nodes|, before, store, sizes)
    requires StreamDemand(plan, nodes) <= MAX_IO_STREAM_COUNT
    ensures CanSetUp(plan, done, nodes)
    ensures RunSized(plan, recordSizes, done, nodes, |nodes|, before, sizes.inputs, sizes.outputs)
    ensures Allocated(plan, done, nodes, |nodes|, store)
    ensures forall j :: 0 <= j < |nodes| ==> SizesReachable(plan, nodes[j])
  {
    hide RunSized, FitsPool, Holds;
    HeldFit(store, RunNeeds(plan, done, nodes));
    forall n | n in nodes ensures SizesReachable(plan, n) && StreamsDescribed(plan.g, n) {
      var j :| 0 <= j < |nodes| && nodes[j] == n;
    }
  }

  lemma ObstacleStops(plan: Plan, done: set<QueryNode>, nodes: seq<QueryNode>, status: SetupStatus)
    requires AllInPlan(plan, nodes) && Obstacle(plan, done, nodes, status)
    ensures !CanSetUp(plan, done, nodes)
  {
  }

  lemma IsSetUp(plan: Plan, recordSizes: RecordSizes, done: set<QueryNode>, nodes: seq<QueryNode>, setup: Setup,
                store: Store, sizes: Sizes)
    requires AllInPlan(plan, nodes) && Allocated(plan, done, nodes, |nodes|, store)
    requires InputsShaped(plan, done, store.inputs) && OutputsShaped(plan, nodes, |nodes|, store.outputs)
    requires AllTargetsReady(plan, nodes, store.inputs.Keys)
    requires InStep(store.inputs, sizes.inputs) && AllOutputsSized(plan, recordSizes, nodes, sizes.outputs)
    requires RunIdsFit(plan, nodes, setup.inputIds, setup.outputIds)
    requires RunDescribed(nodes, |nodes|, setup.accelerated, setup.results, setup.inputIds, setup.outputIds,
                          Now(store, sizes))
    ensures SetUp(plan, recordSizes, done, nodes, setup, store, sizes)
  {
  }

  lemma AllNodesInPlan(plan: Plan, done: set<QueryNode>, nodes: seq<QueryNode>)
    requires NextRun(plan, done, nodes)
    ensures AllInPlan(plan, nodes)
  {
  }

  lemma TooManyIds(plan: Plan, done: set<QueryNode>, nodes: seq<QueryNode>)
    requires AllInPlan(plan, nodes)
    ensures Obstacle(plan, done, nodes, OutOfIDs) <==> StreamDemand(plan, nodes) > MAX_IO_STREAM_COUNT
  {
  }

  /**
   * Gives a run its vectors, its stream IDs, its memory blocks and the sizes of its streams, and describes it for the
   * FPGA. That succeeds exactly when nothing in the plan stands in the way, and a failure tells what does; stream IDs
   * come first. Inputs that earlier runs have handed over keep block and size.
   */
  method SetupAccelerationNodesForExecution(nodes: seq<QueryNode>, store: Store, sizes: Sizes,
                                            recordSizes: RecordSizes, ghost plan: Plan, ghost done: set<QueryNode>)
    returns (status: SetupStatus, setup: Setup, ghost before: SizeTable)
    requires done <= plan.g.nodes && NextRun(plan, done, nodes) && PreviousFit(plan)
    requires AsScheduled(plan, nodes) && InRunOrder(plan, nodes) && Idle(plan, done, store, sizes)
    modifies store`inputs, store`outputs, store`places, store.pool, sizes`inputs, sizes`outputs, nodes`nextNodes
    ensures AllInPlan(plan, nodes)
    ensures status == AllSet <==> CanSetUp(plan, done, nodes)
    ensures status != AllSet ==> Obstacle(plan, done, nodes, status)
    ensures status == OutOfIDs <==> Obstacle(plan, done, nodes, OutOfIDs)
    ensures status == AllSet ==> SetUp(plan, recordSizes, done, nodes, setup, store, sizes)
    ensures status == AllSet ==> StreamsNumbered(plan, nodes, setup.inputIds, setup.outputIds)
    ensures status == AllSet ==>
              Grown(old(store.places), store.places) && SizesWait(plan, done, old(sizes.inputs), sizes.inputs)
    ensures status == AllSet ==>
              Extends(old(sizes.inputs), before)
              && RunSized(plan, recordSizes, done, nodes, |nodes|, before, sizes.inputs, sizes.outputs)
  {
    hide *;
    AllNodesInPlan(plan, done, nodes);
    WaitingHasSizes(plan, done, store, sizes);
    setup := Setup([], map[], map[], map[]);
    PrepareRun(nodes, store, sizes, recordSizes, plan, done);
    before := sizes.inputs;
    InStepWhen(old(sizes.inputs), store.inputs, sizes.inputs);
    ghost var start := Now(store, sizes);
    TablesAreNow(store, sizes);
    var ok, inputIds, outputIds := GiveIds(nodes, plan, done);
    TooManyIds(plan, done, nodes);
    if !ok {
      status := OutOfIDs;
    } else {
      NumberedFit(plan, nodes, inputIds, outputIds);
      var accelerated, results;
      status, accelerated, results :=
        SetupNodes(nodes, inputIds, outputIds, store, sizes, recordSizes, plan, done, before);
      if status == AllSet {
        setup := Setup(accelerated, results, inputIds, outputIds);
        TablesAreNow(store, sizes);
        NothingStandsInTheWay(plan, recordSizes, done, nodes, before, store, sizes);
        ShapesStay(plan, recordSizes, done, nodes, before, start, Now(store, sizes));
        IsSetUp(plan, recordSizes, done, nodes, setup, store, sizes);
        WaitingSizesStay(plan, recordSizes, done, nodes, old(sizes.inputs), before, sizes.inputs, sizes.outputs);
      }
    }
    if status != AllSet {
      ObstacleStops(plan, done, nodes, status);
    }
  }
}
