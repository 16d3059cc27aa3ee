/** What is noted when a run has been executed: the record counts that the FPGA reports for its results. */
module RunResults {
  import opened Options
  import opened AccelerationConstants
  import opened MemoryManager
  import opened QueryNodes
  import opened ExternalLinks
  import opened BlockTables
  import opened BlockStore
  import opened MemoryPlan
  import opened StreamSizes
  import opened QueryManager
  import opened SetupConditions
  import opened AcceleratedNodes
  import opened NodeSetup
  import opened RunSetup
  import opened BlockRelease
  import IdManager

  /** The size noted for output `i` of `n` is its record size, with the count reported under its stream ID. */
  ghost predicate CountNoted(recordSizes: RecordSizes, n: QueryNode, i: nat, outputIds: IdManager.IdMap,
                             resultSizes: seq<int>, outputs: SizeTable) {
    && n.name in outputIds && i < |outputIds[n.name]| && outputIds[n.name][i] < |resultSizes|
    && SizeEntry(outputs, n.name, i) ==
       Some(Size(recordSizes(n.outputStreamParameters, i), resultSizes[outputIds[n.name][i]]))
  }

  /** Every output that leaves the run has its count noted. */
  ghost predicate CountsNoted(plan: Plan, recordSizes: RecordSizes, nodes: seq<QueryNode>, outputIds: IdManager.IdMap,
                              resultSizes: seq<int>, outputs: SizeTable)
    requires AllInPlan(plan, nodes)
  {
    forall n, i: nat {:trigger CountNoted(recordSizes, n, i, outputIds, resultSizes, outputs)} ::
      n in nodes && InPlan(plan, n) && i < |plan.g.next[n]| && KindOf(plan, n, i) != Internal ==>
      CountNoted(recordSizes, n, i, outputIds, resultSizes, outputs)
  }

  /** An output that leaves the run has a block. */
  lemma LeavingHasBlock(plan: Plan, done: set<QueryNode>, nodes: seq<QueryNode>, store: Store, n: QueryNode, i: nat)
    requires AllInPlan(plan, nodes) && Allocated(plan, done, nodes, |nodes|, store)
    requires n in nodes && InPlan(plan, n) && i < |plan.g.next[n]| && KindOf(plan, n, i) != Internal
    ensures n.name in store.outputs && i < |store.outputs[n.name]| && store.outputs[n.name][i] != null
  {
    assert nodes[..|nodes|] == nodes;
    RunTakes(plan, nodes, |nodes|, n);
    assert OutputOf(n.name, i) in OutputsTaken(plan, n, |plan.g.next[n]|);
    assert store.At(OutputOf(n.name, i)) != null;
  }

  /** The results of `n` to be read are its outputs with a block; each has an ID and a slot for its size. */
  ghost predicate ResultsKnown(plan: Plan, n: QueryNode, setup: Setup, blocks: BlockTable, outputs: SizeTable)
    reads n`outputFiles
  {
    && n in plan.g.nodes && n.name in outputs && |plan.g.next[n]| <= |outputs[n.name]|
    && n.name in setup.results && n.name in blocks
    && n.name in setup.outputIds && |setup.outputIds[n.name]| == |plan.g.next[n]|
    && (forall i :: 0 <= i < |setup.outputIds[n.name]| ==> setup.outputIds[n.name][i] < MAX_IO_STREAM_COUNT)
    && ListsResults(setup.results[n.name], setup.outputIds[n.name], blocks[n.name], n.outputFiles, n.isChecked)
  }

  lemma NodeResultsKnown(plan: Plan, recordSizes: RecordSizes, done: set<QueryNode>, nodes: seq<QueryNode>,
                         setup: Setup, store: Store, sizes: Sizes, n: QueryNode)
    requires AllInPlan(plan, nodes) && SetUp(plan, recordSizes, done, nodes, setup, store, sizes) && n in nodes
    ensures ResultsKnown(plan, n, setup, store.outputs, sizes.outputs)
  {
    hide Allocated, InputsShaped, OutputsShaped, AllTargetsReady, DescribesAll, ListsResults, InStep;
    var j :| 0 <= j < |nodes| && nodes[j] == n;
    assert IdsFit(plan, n, setup.inputIds, setup.outputIds);
  }

  lemma KnownResultsFit(plan: Plan, n: QueryNode, setup: Setup, blocks: BlockTable, outputs: SizeTable)
    requires ResultsKnown(plan, n, setup, blocks, outputs)
    ensures ResultsFit(setup.results[n.name], outputs[n.name])
  {
  }

  /** The descriptions of the results fit the sizes and the counts that there are. */
  lemma ResultsOfRunFit(plan: Plan, recordSizes: RecordSizes, done: set<QueryNode>, nodes: seq<QueryNode>,
                        setup: Setup, store: Store, sizes: Sizes)
    requires AllInPlan(plan, nodes) && SetUp(plan, recordSizes, done, nodes, setup, store, sizes)
    ensures forall name :: name in setup.results ==>
              name in sizes.outputs && ResultsFit(setup.results[name], sizes.outputs[name])
  {
    hide Allocated, InputsShaped, OutputsShaped, AllTargetsReady, ResultsFit, NodeDescribed, InStep;
    forall name | name in setup.results
      ensures name in sizes.outputs && ResultsFit(setup.results[name], sizes.outputs[name])
    {
      var j :| 0 <= j < |nodes| && nodes[j].name == name;
      NodeResultsKnown(plan, recordSizes, done, nodes, setup, store, sizes, nodes[j]);
      KnownResultsFit(plan, nodes[j], setup, store.outputs, sizes.outputs);
    }
  }

  /** The counts of one node are noted. */
  lemma NodeIsNoted(plan: Plan, recordSizes: RecordSizes, n: QueryNode, i: nat, setup: Setup, store: Store,
                    resultSizes: seq<int>, before: SizeTable, after: SizeTable)
    requires InPlan(plan, n) && i < |plan.g.next[n]|
    requires n.name in store.outputs && i < |store.outputs[n.name]| && store.outputs[n.name][i] != null
    requires ResultsKnown(plan, n, setup, store.outputs, before)
    requires OutputsSized(plan, recordSizes, n, |plan.g.next[n]|, before) && n.name in after
    requires AllNoted(setup.results[n.name], resultSizes, before[n.name], after[n.name])
    ensures CountNoted(recordSizes, n, i, setup.outputIds, resultSizes, after)
  {
    assert HasResult(setup.results[n.name], i);
    var r :| r in setup.results[n.name] && r.streamIndex == i;
    assert ResultNoted(setup.results[n.name], resultSizes, i, before[n.name][i], after[n.name][i]);
  }

  /** All that is held stays so; only output sizes have been noted. */
  lemma StaysInUse(plan: Plan, recordSizes: RecordSizes, done: set<QueryNode>, nodes: seq<QueryNode>, setup: Setup,
                   store: Store, sizes: Sizes)
    requires AllInPlan(plan, nodes) && SetUp(plan, recordSizes, done, nodes, setup, store, sizes)
    ensures InUse(plan, done, nodes, store, sizes)
  {
    hide Allocated, InputsShaped, OutputsShaped, AllTargetsReady, RunDescribed;
  }

  lemma OutputsStillHaveSizes(plan: Plan, nodes: seq<QueryNode>, before: SizeTable, after: SizeTable)
    requires OutputsHaveSizes(plan, nodes, before) && before.Keys == after.Keys
    requires forall name :: name in after ==> |after[name]| == |before[name]|
    ensures OutputsHaveSizes(plan, nodes, after)
  {
  }

  /** Notes the results of a run; afterwards every output that leaves the run has the count reported for it. */
  method NoteResults(results: ResultMap, resultSizes: seq<int>, sizes: Sizes, ghost recordSizes: RecordSizes,
                     ghost store: Store, ghost setup: Setup, ghost plan: Plan, ghost done: set<QueryNode>,
                     ghost nodes: seq<QueryNode>)
    requires AllInPlan(plan, nodes) && SetUp(plan, recordSizes, done, nodes, setup, store, sizes)
    requires results == setup.results && |resultSizes| == MAX_IO_STREAM_COUNT
    modifies sizes`outputs
    ensures InUse(plan, done, nodes, store, sizes)
    ensures CountsNoted(plan, recordSizes, nodes, setup.outputIds, resultSizes, sizes.outputs)
  {
    hide Allocated, InputsShaped, OutputsShaped, AllTargetsReady, RunDescribed, ListsResults, AllNoted, ResultsFit;
    hide CountNoted, OutputsSized, RunIdsFit;
    ghost var before := sizes.outputs;
    ResultsOfRunFit(plan, recordSizes, done, nodes, setup, store, sizes);
    forall n | n in nodes ensures ResultsKnown(plan, n, setup, store.outputs, before) {
      NodeResultsKnown(plan, recordSizes, done, nodes, setup, store, sizes, n);
    }
    StaysInUse(plan, recordSizes, done, nodes, setup, store, sizes);
    ProcessResults(results, resultSizes, sizes);
    LengthsStay(results, resultSizes, before, sizes.outputs);
    OutputsStillHaveSizes(plan, nodes, before, sizes.outputs);
    forall n, i: nat | n in nodes && InPlan(plan, n) && i < |plan.g.next[n]| && KindOf(plan, n, i) != Internal
      ensures CountNoted(recordSizes, n, i, setup.outputIds, resultSizes, sizes.outputs)
    {
      LeavingHasBlock(plan, done, nodes, store, n, i);
      assert ResultsKnown(plan, n, setup, store.outputs, before);
      NodeIsNoted(plan, recordSizes, n, i, setup, store, resultSizes, before, sizes.outputs);
    }
  }

  lemma LengthsStay(results: ResultMap, resultSizes: seq<int>, before: SizeTable, after: SizeTable)
    requires before.Keys == after.Keys
    requires forall name :: name in results && name in after ==>
               AllNoted(results[name], resultSizes, before[name], after[name])
    requires forall name :: name in after && name !in results ==> after[name] == before[name]
    ensures forall name :: name in after ==> |after[name]| == |before[name]|
  {
  }

  /** The block in a place, or null if there is none. */
  ghost predicate BlockIs(places: Places, place: Place, block: MemoryBlock?) {
    && (block != null ==> block in places && places[block] == place)
    && forall b {:trigger places[b]} :: b in places && places[b] == place ==> b == block
  }

  /** The FPGA is told ID, size and parameters of input `i` of `n`, and to read the block that is there. */
  ghost predicate InputTold(n: QueryNode, i: nat, stream: StreamData, inputIds: IdManager.IdMap, places: Places,
                            sizes: SizeTable) {
    && n.name in inputIds && i < |inputIds[n.name]|
    && Describes(stream, i, inputIds[n.name][i], n.inputStreamParameters, stream.block, stream.size)
    && BlockIs(places, InputOf(n.name, i), stream.block)
    && SizeEntry(sizes, n.name, i) == Some(stream.size)
  }

  /** The same for output `i`, whose records are yet to be counted, and the block it writes. */
  ghost predicate OutputTold(recordSizes: RecordSizes, n: QueryNode, i: nat, stream: StreamData,
                             outputIds: IdManager.IdMap, places: Places) {
    && n.name in outputIds && i < |outputIds[n.name]|
    && Describes(stream, i, outputIds[n.name][i], n.outputStreamParameters, stream.block, stream.size)
    && BlockIs(places, OutputOf(n.name, i), stream.block)
    && stream.size == Size(recordSizes(n.outputStreamParameters, i), 0)
  }

  ghost predicate NodeTold(g: QueryGraph, recordSizes: RecordSizes, n: QueryNode, told: AcceleratedNode,
                           inputIds: IdManager.IdMap, outputIds: IdManager.IdMap, places: Places, sizes: SizeTable) {
    && n in g.nodes && |told.inputs| == |g.previous[n]| && |told.outputs| == |g.next[n]|
    && told.operationType == n.operationType && told.operationParameters == n.operationParameters
    && (forall i {:trigger told.inputs[i]} :: 0 <= i < |told.inputs| ==>
          InputTold(n, i, told.inputs[i], inputIds, places, sizes))
    && forall i {:trigger told.outputs[i]} :: 0 <= i < |told.outputs| ==>
         OutputTold(recordSizes, n, i, told.outputs[i], outputIds, places)
  }

  /** The FPGA is told of every node of the run, in this order. */
  ghost predicate RunTold(g: QueryGraph, recordSizes: RecordSizes, nodes: seq<QueryNode>, told: seq<AcceleratedNode>,
                          inputIds: IdManager.IdMap, outputIds: IdManager.IdMap, places: Places, sizes: SizeTable) {
    && |told| == |nodes|
    && forall k {:trigger told[k]} :: 0 <= k < |nodes| ==>
         NodeTold(g, recordSizes, nodes[k], told[k], inputIds, outputIds, places, sizes)
  }

  lemma ContentIs(inputs: BlockTable, outputs: BlockTable, places: Places, place: Place)
    requires Located(inputs, outputs, places)
    ensures BlockIs(places, place, Content(inputs, outputs, place))
  {
  }

  lemma DescribedIsTold(plan: Plan, recordSizes: RecordSizes, n: QueryNode, description: Description, setup: Setup,
                        tables: Tables)
    requires Located(tables.inputs, tables.outputs, tables.places) && n in plan.g.nodes
    requires NodeDescribed(n, description, setup.inputIds, setup.outputIds, tables)
    requires IdsFit(plan, n, setup.inputIds, setup.outputIds)
    requires OutputsSized(plan, recordSizes, n, |plan.g.next[n]|, tables.outputSizes)
    ensures NodeTold(plan.g, recordSizes, n, description.node, setup.inputIds, setup.outputIds, tables.places,
                     tables.inputSizes)
  {
    hide Located, BlockIs, ListsResults;
    var told := description.node;
    forall i | 0 <= i < |told.inputs|
      ensures InputTold(n, i, told.inputs[i], setup.inputIds, tables.places, tables.inputSizes)
    {
      ContentIs(tables.inputs, tables.outputs, tables.places, InputOf(n.name, i));
    }
    forall i | 0 <= i < |told.outputs|
      ensures OutputTold(recordSizes, n, i, told.outputs[i], setup.outputIds, tables.places)
    {
      ContentIs(tables.inputs, tables.outputs, tables.places, OutputOf(n.name, i));
    }
  }

  /** What has been set up is what the FPGA is told. */
  lemma SetUpIsTold(plan: Plan, recordSizes: RecordSizes, done: set<QueryNode>, nodes: seq<QueryNode>, setup: Setup,
                    store: Store, sizes: Sizes)
    requires AllInPlan(plan, nodes) && SetUp(plan, recordSizes, done, nodes, setup, store, sizes)
    ensures RunTold(plan.g, recordSizes, nodes, setup.accelerated, setup.inputIds, setup.outputIds, store.places,
                    sizes.inputs)
  {
    hide InputsShaped, OutputsShaped, AllTargetsReady, InStep, NodeTold, NodeDescribed, OutputsSized, IdsFit, Located;
    forall k | 0 <= k < |nodes|
      ensures NodeTold(plan.g, recordSizes, nodes[k], setup.accelerated[k], setup.inputIds, setup.outputIds,
                       store.places, sizes.inputs)
    {
      var n := nodes[k];
      assert n in nodes && n.name in setup.results && IdsFit(plan, n, setup.inputIds, setup.outputIds);
      DescribedIsTold(plan, recordSizes, n, Description(setup.accelerated[k], setup.results[n.name]), setup,
                      Now(store, sizes));
    }
  }
}
