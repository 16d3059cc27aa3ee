/** What the FPGA is told about the nodes of a run, and what is noted of the results it reports. */
module AcceleratedNodes {
  import opened Options
  import opened AccelerationConstants
  import opened QueryOperations
  import opened QueryNodes
  import opened MemoryManager
  import opened StreamSizes

  datatype StreamData = StreamData(id: nat, size: Size, block: MemoryBlock?, projection: seq<int>, chunkCount: int)

  datatype AcceleratedNode = AcceleratedNode(inputs: seq<StreamData>, outputs: seq<StreamData>,
                                             operationType: OperationType, moduleLocation: int,
                                             operationParameters: seq<seq<int>>)

  /** A result to be read when the run has been executed: an output with a block. */
  datatype ResultParameters = ResultParameters(streamIndex: nat, outputId: nat, fileName: string, checkResults: bool)

  /** Stream `i` of a node; without a chunk count of its own it has -1. */
  ghost predicate Describes(stream: StreamData, i: nat, id: nat, parameters: seq<seq<int>>, block: MemoryBlock?,
                            size: Size) {
    && STREAM_PARAM_COUNT * (i + 1) <= |parameters|
    && stream.id == id && stream.size == size && stream.block == block
    && stream.projection == parameters[i * STREAM_PARAM_COUNT + PROJECTION_OFFSET]
    && var chunks := parameters[i * STREAM_PARAM_COUNT + CHUNK_COUNT_OFFSET];
    stream.chunkCount == if chunks == [] then -1 else chunks[0]
  }

  ghost predicate DescribesAll(streams: seq<StreamData>, ids: seq<nat>, parameters: seq<seq<int>>,
                               blocks: seq<MemoryBlock?>, sizes: seq<Size>) {
    && |streams| == |ids| <= |blocks| && |ids| <= |sizes|
    && forall i :: 0 <= i < |streams| ==> Describes(streams[i], i, ids[i], parameters, blocks[i], sizes[i])
  }

  /** Describes the streams of a node; fails where a parameter vector of one of them is missing. */
  method CreateStreamParams(ids: seq<nat>, parameters: seq<seq<int>>, blocks: seq<MemoryBlock?>, sizes: seq<Size>)
    returns (streams: Option<seq<StreamData>>)
    requires |ids| <= |blocks| && |ids| <= |sizes|
    ensures streams.None? <==> STREAM_PARAM_COUNT * |ids| > |parameters|
    ensures streams.Some? ==> DescribesAll(streams.value, ids, parameters, blocks, sizes)
  {
    var all := [];
    for i := 0 to |ids|
      invariant |all| == i && STREAM_PARAM_COUNT * i <= |parameters|
      invariant forall j :: 0 <= j < i ==> Describes(all[j], j, ids[j], parameters, blocks[j], sizes[j])
    {
      if i * STREAM_PARAM_COUNT + CHUNK_COUNT_OFFSET >= |parameters| {
        return None;
      }
      var chunks := parameters[i * STREAM_PARAM_COUNT + CHUNK_COUNT_OFFSET];
      all := all + [StreamData(ids[i], sizes[i], blocks[i], parameters[i * STREAM_PARAM_COUNT + PROJECTION_OFFSET],
                               if chunks == [] then -1 else chunks[0])];
    }
    streams := Some(all);
  }

  /** `results` lists exactly the outputs that have a block, with their IDs, files and check flags. */
  ghost predicate ListsResults(results: seq<ResultParameters>, ids: seq<nat>, blocks: seq<MemoryBlock?>,
                               files: seq<string>, checks: seq<bool>) {
    && |ids| <= |blocks| && |ids| <= |files| && |ids| <= |checks|
    && (forall r :: r in results ==>
          r.streamIndex < |ids| && blocks[r.streamIndex] != null && r.outputId == ids[r.streamIndex]
          && r.fileName == files[r.streamIndex] && r.checkResults == checks[r.streamIndex])
    && forall i :: 0 <= i < |ids| && blocks[i] != null ==> HasResult(results, i)
  }

  ghost predicate HasResult(results: seq<ResultParameters>, i: nat) {
    exists r :: r in results && r.streamIndex == i
  }

  method StoreStreamResultParameters(ids: seq<nat>, node: QueryNode, blocks: seq<MemoryBlock?>)
    returns (results: seq<ResultParameters>)
    requires |ids| <= |blocks| && |ids| <= |node.outputFiles| && |ids| <= |node.isChecked|
    ensures ListsResults(results, ids, blocks, node.outputFiles, node.isChecked)
  {
    results := [];
    for i := 0 to |ids|
      invariant forall r :: r in results ==>
                  r.streamIndex < i && blocks[r.streamIndex] != null && r.outputId == ids[r.streamIndex]
                  && r.fileName == node.outputFiles[r.streamIndex] && r.checkResults == node.isChecked[r.streamIndex]
      invariant forall j :: 0 <= j < i && blocks[j] != null ==> HasResult(results, j)
    {
      if blocks[i] != null {
        ghost var before := results;
        var result := ResultParameters(i, ids[i], node.outputFiles[i], node.isChecked[i]);
        results := results + [result];
        assert result in results && forall r :: r in before ==> r in results;
        assert forall j :: HasResult(before, j) ==> HasResult(results, j);
      }
    }
  }

  /** A merge sort is configured for its one stream, and has room for it. */
  ghost predicate MergeSortFits(node: AcceleratedNode) {
    node.operationType == MergeSort ==>
      && |node.inputs| == 1 && |node.operationParameters| == 1 && |node.operationParameters[0]| == 2
      && node.inputs[0].size.recordCount <= node.operationParameters[0][0] * node.operationParameters[0][1]
  }

  /** Whether the modules can take the streams they are given. */
  method IsRunValid(nodes: seq<AcceleratedNode>) returns (valid: bool)
    ensures valid <==> forall n :: n in nodes ==> MergeSortFits(n)
  {
    for k := 0 to |nodes|
      invariant forall n :: n in nodes[..k] ==> MergeSortFits(n)
    {
      var node := nodes[k];
      assert node in nodes;
      if node.operationType == MergeSort {
        if |node.inputs| != 1 || |node.operationParameters| != 1 || |node.operationParameters[0]| != 2 {
          return false;
        }
        if node.inputs[0].size.recordCount > node.operationParameters[0][0] * node.operationParameters[0][1] {
          return false;
        }
      }
      assert nodes[..k + 1] == nodes[..k] + [node];
    }
    assert nodes[..|nodes|] == nodes;
    valid := true;
  }

  /**
   * Executes a run, `told` what its nodes are. What the FPGA computes is not modelled: it may report any record count
   * for any stream.
   */
  method RunQueryAcceleration(nodes: seq<AcceleratedNode>)
    returns (resultSizes: seq<int>, ghost told: seq<AcceleratedNode>)
    ensures |resultSizes| == MAX_IO_STREAM_COUNT && told == nodes
  {
    told := nodes;
    resultSizes := [];
    while |resultSizes| < MAX_IO_STREAM_COUNT
      invariant |resultSizes| <= MAX_IO_STREAM_COUNT
    {
      var count: int := *;
      resultSizes := resultSizes + [count];
    }
  }

  /** The size of an output once its results, if there are any, have been noted. */
  ghost predicate ResultNoted(results: seq<ResultParameters>, resultSizes: seq<int>, i: nat, was: Size, size: Size) {
    && size.recordSize == was.recordSize
    && (forall r :: r in results && r.streamIndex == i ==>
          r.outputId < |resultSizes| && size.recordCount == resultSizes[r.outputId])
    && (!HasResult(results, i) ==> size == was)
  }

  /** There is one ID for every output with a result, and the output has a size. */
  ghost predicate ResultsFit(results: seq<ResultParameters>, sizes: seq<Size>) {
    && (forall r :: r in results ==> r.streamIndex < |sizes| && r.outputId < MAX_IO_STREAM_COUNT)
    && forall r, s :: r in results && s in results && r.streamIndex == s.streamIndex ==> r.outputId == s.outputId
  }

  ghost predicate AllNoted(results: seq<ResultParameters>, resultSizes: seq<int>, was: seq<Size>, sizes: seq<Size>) {
    |sizes| == |was| && forall i :: 0 <= i < |was| ==> ResultNoted(results, resultSizes, i, was[i], sizes[i])
  }

  /** Notes the record counts of the results of one node. */
  method ProcessNodeResults(name: string, results: seq<ResultParameters>, resultSizes: seq<int>, sizes: Sizes)
    requires name in sizes.outputs && ResultsFit(results, sizes.outputs[name])
    requires |resultSizes| == MAX_IO_STREAM_COUNT
    modifies sizes`outputs
    ensures sizes.outputs.Keys == old(sizes.outputs).Keys
    ensures sizes.outputs == old(sizes.outputs)[name := sizes.outputs[name]]
    ensures AllNoted(results, resultSizes, old(sizes.outputs)[name], sizes.outputs[name])
  {
    ghost var was := sizes.outputs[name];
    for k := 0 to |results|
      invariant sizes.outputs.Keys == old(sizes.outputs).Keys
      invariant sizes.outputs == old(sizes.outputs)[name := sizes.outputs[name]]
      invariant AllNoted(results[..k], resultSizes, was, sizes.outputs[name])
    {
      var r := results[k];
      assert r in results;
      ghost var before := sizes.outputs[name];
      sizes.SetRecordCount(name, r.streamIndex, resultSizes[r.outputId]);
      OneMoreNoted(results, k, resultSizes, was, before, sizes.outputs[name]);
    }
    assert results[..|results|] == results;
  }

  lemma OneMoreNoted(results: seq<ResultParameters>, k: nat, resultSizes: seq<int>, was: seq<Size>, before: seq<Size>,
                     after: seq<Size>)
    requires k < |results| && |resultSizes| == MAX_IO_STREAM_COUNT && ResultsFit(results, was)
    requires AllNoted(results[..k], resultSizes, was, before)
    requires var r := results[k];
             r.streamIndex < |before| && r.outputId < |resultSizes|
             && after == before[r.streamIndex := before[r.streamIndex].(recordCount := resultSizes[r.outputId])]
    ensures AllNoted(results[..k + 1], resultSizes, was, after)
  {
    var r := results[k];
    assert results[..k + 1] == results[..k] + [r];
    forall i | 0 <= i < |was| ensures ResultNoted(results[..k + 1], resultSizes, i, was[i], after[i]) {
      assert ResultNoted(results[..k], resultSizes, i, was[i], before[i]);
      assert r in results && forall s :: s in results[..k] ==> s in results;
      if HasResult(results[..k], i) {
        var s :| s in results[..k] && s.streamIndex == i;
        assert s in results[..k + 1];
      }
      assert i == r.streamIndex ==> r in results[..k + 1] && HasResult(results[..k + 1], i);
    }
  }

  /** Notes the record counts that the FPGA reports for the results of a run. */
  method ProcessResults(results: map<string, seq<ResultParameters>>, resultSizes: seq<int>, sizes: Sizes)
    requires forall name :: name in results ==> name in sizes.outputs && ResultsFit(results[name], sizes.outputs[name])
    requires |resultSizes| == MAX_IO_STREAM_COUNT
    modifies sizes`outputs
    ensures sizes.outputs.Keys == old(sizes.outputs).Keys
    ensures forall name :: name in results && name in sizes.outputs ==>
              AllNoted(results[name], resultSizes, old(sizes.outputs)[name], sizes.outputs[name])
    ensures forall name :: name in sizes.outputs && name !in results ==>
              sizes.outputs[name] == old(sizes.outputs)[name]
  {
    hide AllNoted, ResultsFit;
    var left := results.Keys;
    while left != {}
      invariant left <= results.Keys && sizes.outputs.Keys == old(sizes.outputs).Keys
      invariant forall name :: name in results && name !in left && name in sizes.outputs ==>
                  AllNoted(results[name], resultSizes, old(sizes.outputs)[name], sizes.outputs[name])
      invariant forall name :: name in sizes.outputs && (name !in results || name in left) ==>
                  sizes.outputs[name] == old(sizes.outputs)[name]
    {
      var name :| name in left;
      ProcessNodeResults(name, results[name], resultSizes, sizes);
      left := left - {name};
    }
  }
}
