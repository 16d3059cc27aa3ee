/** Setting up the nodes of a run: their memory blocks, the sizes of their streams, and what the FPGA is told. */
module NodeSetup {
  import opened Options
  import opened Sequences
  import opened AccelerationConstants
  import opened QueryNodes
  import opened ExternalLinks
  import opened MemoryManager
  import opened BlockTables
  import opened BlockStore
  import opened MemoryPlan
  import opened StreamSizes
  import opened QueryManager
  import opened SetupConditions
  import opened AcceleratedNodes
  import IdManager

  /** The record size of a stream, from the parameters of its node and its index. */
  type RecordSizes = (seq<seq<int>>, nat) -> int

  /** The node's vectors have a slot for each of its links. */
  ghost predicate HasVectors(plan: Plan, n: QueryNode, inputs: BlockTable, outputs: BlockTable)
    requires n in plan.g.nodes
  {
    && n.name in inputs && |inputs[n.name]| == |plan.g.previous[n]|
    && n.name in outputs && |outputs[n.name]| == |plan.g.next[n]|
  }

  /** The pointers to producers that survived: those inside the run. */
  ghost predicate PreviousCut(plan: Plan, n: QueryNode)
    requires InPlan(plan, n)
    reads n`previousNodes
  {
    && |n.previousNodes| == |plan.g.previous[n]|
    && forall j: nat {:trigger FedInside(plan, n, j)} :: j < |n.previousNodes| ==>
         n.previousNodes[j] == if FedInside(plan, n, j) then plan.g.previous[n][j] else null
  }

  /** The vectors of all nodes, and where the blocks are. */
  datatype Tables = Tables(inputs: BlockTable, outputs: BlockTable, inputSizes: SizeTable, outputSizes: SizeTable,
                           places: Places)

  ghost function Now(store: Store, sizes: Sizes): Tables
    reads store, sizes
  {
    Tables(store.inputs, store.outputs, sizes.inputs, sizes.outputs, store.places)
  }

  /** At most the vector of `name` has changed, and not its length. */
  ghost predicate OnlyAt<T>(before: map<string, seq<T>>, after: map<string, seq<T>>, name: string) {
    && before.Keys == after.Keys
    && forall n {:trigger before[n]} {:trigger after[n]} :: n in before ==>
         if n == name then |after[n]| == |before[n]| else after[n] == before[n]
  }

  /** Slots of node `name` have been filled. */
  ghost predicate Advanced(before: Tables, after: Tables, name: string) {
    && OnlyAt(before.inputs, after.inputs, name) && OnlyAt(before.outputs, after.outputs, name)
    && OnlyAt(before.inputSizes, after.inputSizes, name) && OnlyAt(before.outputSizes, after.outputSizes, name)
    && Grown(before.places, after.places)
  }

  lemma AdvancedOn(before: Tables, middle: Tables, after: Tables, name: string)
    requires Advanced(before, middle, name) && Advanced(middle, after, name)
    ensures Advanced(before, after, name)
  {
  }

  lemma NothingAdvanced(tables: Tables, name: string)
    ensures Advanced(tables, tables, name)
  {
  }

  method TakeOutput(name: string, index: nat, store: Store, ghost filled: iset<Place>) returns (ok: bool)
    requires Holds(store, filled) && OutputOf(name, index) !in filled
    requires name in store.outputs && index < |store.outputs[name]|
    modifies store`outputs, store`places, store.pool
    ensures !ok ==> !FitsPool(filled + iset{OutputOf(name, index)})
    ensures ok ==> Holds(store, filled + iset{OutputOf(name, index)})
    ensures ok ==> Grown(old(store.places), store.places) && OnlyAt(old(store.outputs), store.outputs, name)
  {
    assert store.At(OutputOf(name, index)) == null;
    if |store.pool.held| == MAX_POSSIBLE_ALLOCATIONS {
      PoolIsFull(store, filled, OutputOf(name, index));
    }
    ok := store.FillOutput(name, index);
  }

  method TakeInput(name: string, index: nat, store: Store, ghost filled: iset<Place>) returns (ok: bool)
    requires Holds(store, filled) && InputOf(name, index) !in filled
    requires name in store.inputs && index < |store.inputs[name]|
    modifies store`inputs, store`places, store.pool
    ensures !ok ==> !FitsPool(filled + iset{InputOf(name, index)})
    ensures ok ==> Holds(store, filled + iset{InputOf(name, index)})
    ensures ok ==> Grown(old(store.places), store.places) && OnlyAt(old(store.inputs), store.inputs, name)
  {
    assert store.At(InputOf(name, index)) == null;
    if |store.pool.held| == MAX_POSSIBLE_ALLOCATIONS {
      PoolIsFull(store, filled, InputOf(name, index));
    }
    ok := store.FillInput(name, index);
  }

  lemma OutputTaken(plan: Plan, n: QueryNode, i: nat, filled: iset<Place>)
    requires InPlan(plan, n) && i < |plan.g.next[n]|
    ensures filled + OutputsTaken(plan, n, i + 1) ==
            if KindOf(plan, n, i) == Internal then filled + OutputsTaken(plan, n, i)
            else filled + OutputsTaken(plan, n, i) + iset{OutputOf(n.name, i)}
  {
  }

  lemma InputTaken(plan: Plan, n: QueryNode, j: nat, filled: iset<Place>)
    requires InPlan(plan, n) && j < |plan.g.previous[n]|
    ensures filled + InputsTaken(plan, n, j + 1) ==
            if FedInside(plan, n, j) then filled + InputsTaken(plan, n, j)
            else filled + InputsTaken(plan, n, j) + iset{InputOf(n.name, j)}
  {
  }

  /** What stops the set-up at node `n`, which needs blocks in the given places. */
  ghost predicate StopsAt(plan: Plan, n: QueryNode, needed: iset<Place>, status: SetupStatus) {
    match status
    case AllSet => false
    case OutOfIDs => false
    case OutOfBlocks => !FitsPool(needed)
    case NotDescribed => !StreamsDescribed(plan.g, n)
    case BadAccess => !SizesReachable(plan, n)
  }

  lemma StopsWithMore(plan: Plan, n: QueryNode, needed: iset<Place>, more: iset<Place>, status: SetupStatus)
    requires StopsAt(plan, n, needed, status) && needed <= more
    ensures StopsAt(plan, n, more, status)
  {
    if FitsPool(more) {
      FewerFit(needed, more);
    }
  }

  /** The sizes of the first `limit` outputs of `n` are set, as far as they are known; the others are zero. */
  ghost predicate OutputsSized(plan: Plan, recordSizes: RecordSizes, n: QueryNode, limit: nat, outputs: SizeTable)
    requires n in plan.g.nodes
  {
    && n.name in outputs && limit <= |outputs[n.name]| == |plan.g.previous[n]|
    && forall i :: 0 <= i < |outputs[n.name]| ==>
         outputs[n.name][i] == if i < limit then Size(recordSizes(n.outputStreamParameters, i), 0) else Size(0, 0)
  }

  /** The block of one output, if nothing in the run takes it. */
  method AllocateOutputBlock(node: QueryNode, i: nat, store: Store, ghost filled: iset<Place>, ghost plan: Plan)
    returns (ok: bool)
    requires InPlan(plan, node) && i < |plan.g.next[node]|
    requires node.name in store.outputs && |store.outputs[node.name]| == |plan.g.next[node]|
    requires OutputsLinked(plan, node, |plan.g.next[node]|, node.nextNodes)
    requires OutputOf(node.name, i) !in filled && Holds(store, filled + OutputsTaken(plan, node, i))
    modifies store`outputs, store`places, store.pool
    ensures !ok ==> !FitsPool(filled + OutputsTaken(plan, node, i + 1))
    ensures ok ==> Holds(store, filled + OutputsTaken(plan, node, i + 1))
    ensures ok ==> Grown(old(store.places), store.places) && OnlyAt(old(store.outputs), store.outputs, node.name)
  {
    hide Holds, FitsPool;
    ok := true;
    OutputTaken(plan, node, i, filled);
    if node.nextNodes[i] == null {
      ok := TakeOutput(node.name, i, store, filled + OutputsTaken(plan, node, i));
    }
  }

  /** The record size of one output, for which its vector may have no slot. */
  method NoteRecordSize(node: QueryNode, i: nat, sizes: Sizes, recordSizes: RecordSizes, ghost plan: Plan)
    returns (status: SetupStatus)
    requires InPlan(plan, node) && i < |plan.g.next[node]|
    requires OutputsSized(plan, recordSizes, node, i, sizes.outputs)
    modifies sizes`outputs
    ensures status == BadAccess ==> !SizesReachable(plan, node)
    ensures status == NotDescribed ==> !StreamsDescribed(plan.g, node)
    ensures status in {AllSet, BadAccess, NotDescribed}
    ensures status == AllSet ==> OutputsSized(plan, recordSizes, node, i + 1, sizes.outputs)
    ensures status == AllSet ==> OnlyAt(old(sizes.outputs), sizes.outputs, node.name)
  {
    if i * STREAM_PARAM_COUNT + DATA_SIZES_OFFSET >= |node.outputStreamParameters| {
      return NotDescribed;
    }
    if i >= |sizes.outputs[node.name]| {
      return BadAccess;
    }
    sizes.SetRecordSize(node.name, i, recordSizes(node.outputStreamParameters, i));
    status := AllSet;
  }

  /** One output: its block, and its record size. */
  method AllocateOutput(node: QueryNode, i: nat, store: Store, sizes: Sizes, recordSizes: RecordSizes,
                        ghost filled: iset<Place>, ghost plan: Plan)
    returns (status: SetupStatus)
    requires InPlan(plan, node) && i < |plan.g.next[node]|
    requires node.name in store.outputs && |store.outputs[node.name]| == |plan.g.next[node]|
    requires OutputsLinked(plan, node, |plan.g.next[node]|, node.nextNodes)
    requires OutputOf(node.name, i) !in filled && Holds(store, filled + OutputsTaken(plan, node, i))
    requires OutputsSized(plan, recordSizes, node, i, sizes.outputs)
    modifies store`outputs, store`places, store.pool, sizes`outputs
    ensures status != AllSet ==> StopsAt(plan, node, filled + OutputsTaken(plan, node, i + 1), status)
    ensures status == AllSet ==> Holds(store, filled + OutputsTaken(plan, node, i + 1))
    ensures status == AllSet ==> OutputsSized(plan, recordSizes, node, i + 1, sizes.outputs)
    ensures status == AllSet ==> Advanced(old(Now(store, sizes)), Now(store, sizes), node.name)
  {
    hide Holds, OutputsSized, FitsPool, SizesReachable, StreamsDescribed, OutputsLinked, OutputsTaken;
    status := OutOfBlocks;
    var ok := AllocateOutputBlock(node, i, store, filled, plan);
    if ok {
      status := NoteRecordSize(node, i, sizes, recordSizes, plan);
    }
  }

  method AllocateOutputMemoryBlocks(node: QueryNode, store: Store, sizes: Sizes, recordSizes: RecordSizes,
                                    ghost filled: iset<Place>, ghost plan: Plan)
    returns (status: SetupStatus)
    requires InPlan(plan, node) && Holds(store, filled) && HasVectors(plan, node, store.inputs, store.outputs)
    requires OutputsLinked(plan, node, |plan.g.next[node]|, node.nextNodes)
    requires forall i: nat :: OutputOf(node.name, i) !in filled
    requires OutputsSized(plan, recordSizes, node, 0, sizes.outputs)
    modifies store`outputs, store`places, store.pool, sizes`outputs
    ensures status != AllSet ==>
              StopsAt(plan, node, filled + OutputsTaken(plan, node, |plan.g.next[node]|), status)
    ensures status == AllSet ==> Holds(store, filled + OutputsTaken(plan, node, |plan.g.next[node]|))
    ensures status == AllSet ==> OutputsSized(plan, recordSizes, node, |plan.g.next[node]|, sizes.outputs)
    ensures status == AllSet ==> Advanced(old(Now(store, sizes)), Now(store, sizes), node.name)
  {
    hide Holds, StopsAt, OutputsSized, Advanced, FitsPool, OutputsLinked;
    status := AllSet;
    assert |node.nextNodes| == |plan.g.next[node]| by {
      LinksCount(plan, node);
    }
    NothingAdvanced(Now(store, sizes), node.name);
    assert filled + OutputsTaken(plan, node, 0) == filled;
    for i := 0 to |node.nextNodes|
      invariant status == AllSet && Holds(store, filled + OutputsTaken(plan, node, i))
      invariant OutputsSized(plan, recordSizes, node, i, sizes.outputs)
      invariant Advanced(old(Now(store, sizes)), Now(store, sizes), node.name)
    {
      ghost var before := Now(store, sizes);
      AdvancedShape(old(Now(store, sizes)), before, node.name);
      status := AllocateOutput(node, i, store, sizes, recordSizes, filled, plan);
      if status != AllSet {
        StopsWithMore(plan, node, filled + OutputsTaken(plan, node, i + 1),
                      filled + OutputsTaken(plan, node, |plan.g.next[node]|), status);
        return;
      }
      AdvancedOn(old(Now(store, sizes)), before, Now(store, sizes), node.name);
    }
  }

  lemma LinksCount(plan: Plan, n: QueryNode)
    requires InPlan(plan, n) && OutputsLinked(plan, n, |plan.g.next[n]|, n.nextNodes)
    ensures |n.nextNodes| == |plan.g.next[n]|
  {
  }

  lemma AdvancedShape(before: Tables, after: Tables, name: string)
    requires Advanced(before, after, name)
    ensures SameShape(before.inputs, after.inputs) && SameShape(before.outputs, after.outputs)
  {
  }

  lemma NoInputTaken(plan: Plan, n: QueryNode, filled: iset<Place>)
    requires InPlan(plan, n)
    ensures filled + InputsTaken(plan, n, 0) == filled
  {
  }

  lemma FewerInputsTaken(plan: Plan, n: QueryNode, filled: iset<Place>, limit: nat)
    requires InPlan(plan, n) && limit <= |plan.g.previous[n]|
    ensures filled + InputsTaken(plan, n, limit) <= filled + InputsTaken(plan, n, |plan.g.previous[n]|)
  {
  }

  lemma VectorsStand(plan: Plan, n: QueryNode, before: Tables, after: Tables)
    requires n in plan.g.nodes && HasVectors(plan, n, before.inputs, before.outputs) && Advanced(before, after, n.name)
    ensures n.name in after.inputs && |after.inputs[n.name]| == |plan.g.previous[n]|
  {
  }

  lemma ProducerAt(plan: Plan, recordSizes: RecordSizes, n: QueryNode, j: nat, outputs: SizeTable)
    requires InPlan(plan, n) && ProducersReady(plan, recordSizes, n, outputs)
    ensures FedInside(plan, n, j) ==> ProducerReady(plan, recordSizes, n, j, outputs)
  {
  }

  lemma InputsCount(plan: Plan, n: QueryNode)
    requires InPlan(plan, n) && PreviousCut(plan, n)
    ensures |n.previousNodes| == |plan.g.previous[n]|
    ensures forall j: nat {:trigger LinkReachable(plan, n, j)} :: j >= |plan.g.previous[n]| ==>
              LinkReachable(plan, n, j)
  {
  }

  /** The producer of input `j` of `n` is in the run, points to `n`, and has all its output sizes. */
  ghost predicate ProducerReady(plan: Plan, recordSizes: RecordSizes, n: QueryNode, j: nat, outputs: SizeTable)
    requires InPlan(plan, n) && FedInside(plan, n, j)
    reads plan.g.nodes
  {
    var p := plan.g.previous[n][j];
    && InPlan(plan, p) && plan.homes[p] == plan.homes[n] && n in plan.homes[n]
    && OutputsLinked(plan, p, |plan.g.next[p]|, p.nextNodes)
    && OutputsSized(plan, recordSizes, p, |plan.g.next[p]|, outputs)
  }

  ghost predicate ProducersReady(plan: Plan, recordSizes: RecordSizes, n: QueryNode, outputs: SizeTable)
    requires InPlan(plan, n)
    reads plan.g.nodes
  {
    forall j: nat {:trigger FedInside(plan, n, j)} :: FedInside(plan, n, j) ==>
      ProducerReady(plan, recordSizes, n, j, outputs)
  }

  /** Which output of `p` feeds `n`, and what is left of the outputs before it. */
  lemma FeedingOutput(plan: Plan, p: QueryNode, n: QueryNode)
    requires InPlan(plan, p) && n in plan.g.nodes && p in plan.g.previous[n] && n in plan.homes[p]
    requires OutputsLinked(plan, p, |plan.g.next[p]|, p.nextNodes)
    ensures IndexOf<QueryNode?>(p.nextNodes, n) == IndexOf<QueryNode?>(plan.g.next[p], n) < |p.nextNodes|
    ensures LeavesBefore(plan, p, IndexOf<QueryNode?>(plan.g.next[p], n)) <==>
            exists i :: 0 <= i < IndexOf<QueryNode?>(p.nextNodes, n) && p.nextNodes[i] == null
  {
    assert Satisfies(plan.g, LinkEndsAgree);
    var o := IndexOf<QueryNode?>(plan.g.next[p], n);
    assert plan.g.next[p][o] == n && KindOf(plan, p, o) == Internal;
    assert p.nextNodes[o] == n;
    forall i | 0 <= i < o ensures p.nextNodes[i] == null <==> KindOf(plan, p, i) != Internal {
      assert p.nextNodes[i] != n;
    }
  }

  /**
   * Looks for the output of `producer` that feeds `node`. Every output before it is dereferenced, so that the scan
   * comes to nothing where one of them has left the run.
   */
  method FindOutput(producer: QueryNode, node: QueryNode, ghost plan: Plan) returns (index: Option<nat>)
    requires InPlan(plan, producer) && node in plan.g.nodes && producer in plan.g.previous[node]
    requires node in plan.homes[producer]
    requires OutputsLinked(plan, producer, |plan.g.next[producer]|, producer.nextNodes)
    ensures index.None? <==> LeavesBefore(plan, producer, IndexOf<QueryNode?>(plan.g.next[producer], node))
    ensures index.Some? ==> index.value == IndexOf<QueryNode?>(plan.g.next[producer], node) < |plan.g.next[producer]|
  {
    FeedingOutput(plan, producer, node);
    assert Satisfies(plan.g, NamesAreUnique) && NameIsOwn(plan.g.nodes, node);
    var k := 0;
    while k < |producer.nextNodes|
      invariant k <= IndexOf<QueryNode?>(producer.nextNodes, node)
      invariant forall i :: 0 <= i < k ==> producer.nextNodes[i] != null
    {
      if producer.nextNodes[k] == null {
        return None;
      }
      var candidate: QueryNode := producer.nextNodes[k];
      assert candidate == plan.g.next[producer][k] && candidate in plan.g.nodes;
      if node.SameValue(candidate) {
        return Some(k);
      }
      k := k + 1;
    }
    assert false;
  }

  /** The size of input `j` of `n`: that of the output it takes, that of the block handed over, or that of its file. */
  ghost predicate InputSized(plan: Plan, recordSizes: RecordSizes, done: set<QueryNode>, n: QueryNode, j: nat,
                             was: Size, size: Size)
    requires InPlan(plan, n)
  {
    if FedInside(plan, n, j) then
      var p := plan.g.previous[n][j];
      p in plan.g.nodes
      && size == Size(recordSizes(p.outputStreamParameters, IndexOf<QueryNode?>(plan.g.next[p], n)), 0)
    else if InputOf(n.name, j) in Waiting(plan, done) then size == was
    else size.recordSize == recordSizes(n.inputStreamParameters, j)
  }

  /** The sizes of the first `limit` inputs of `n` are set; the others are what they were. */
  ghost predicate InputsSized(plan: Plan, recordSizes: RecordSizes, done: set<QueryNode>, n: QueryNode, limit: nat,
                              before: SizeTable, inputs: SizeTable)
    requires InPlan(plan, n)
  {
    && n.name in before && n.name in inputs
    && limit <= |before[n.name]| == |inputs[n.name]| == |plan.g.previous[n]|
    && forall j :: 0 <= j < |inputs[n.name]| ==>
         if j < limit then InputSized(plan, recordSizes, done, n, j, before[n.name][j], inputs[n.name][j])
         else inputs[n.name][j] == before[n.name][j]
  }

  /** Reads an input file. Files are not modelled: there may be any number of records. */
  method WriteDataToMemory(recordSize: int) returns (size: Size)
    ensures size.recordSize == recordSize
  {
    var count: int := *;
    size := Size(recordSize, count);
  }

  /** Input `j`, filled from a file. */
  method FillFromFile(node: QueryNode, j: nat, store: Store, sizes: Sizes, recordSizes: RecordSizes,
                      ghost filled: iset<Place>, ghost plan: Plan, ghost done: set<QueryNode>, ghost before: SizeTable)
    returns (status: SetupStatus)
    requires InPlan(plan, node) && j < |plan.g.previous[node]| && !FedInside(plan, node, j)
    requires InputOf(node.name, j) !in Waiting(plan, done)
    requires node.name in store.inputs && |store.inputs[node.name]| == |plan.g.previous[node]|
    requires Holds(store, filled) && InputOf(node.name, j) !in filled
    requires InputsSized(plan, recordSizes, done, node, j, before, sizes.inputs)
    modifies store`inputs, store`places, store.pool, sizes`inputs
    ensures status != AllSet ==> StopsAt(plan, node, filled + iset{InputOf(node.name, j)}, status)
    ensures status == AllSet ==> Holds(store, filled + iset{InputOf(node.name, j)})
    ensures status == AllSet ==> InputsSized(plan, recordSizes, done, node, j + 1, before, sizes.inputs)
    ensures status == AllSet ==> Advanced(old(Now(store, sizes)), Now(store, sizes), node.name)
  {
    hide Holds, FitsPool, InputsSized, OnlyAt, Grown, StreamsDescribed, Waiting, FedInside;
    NothingChanged(store.outputs, node.name);
    NothingChanged(sizes.outputs, node.name);
    status := OutOfBlocks;
    var ok := TakeInput(node.name, j, store, filled);
    if ok {
      ok := NoteFileSize(node, j, sizes, recordSizes, plan, done, before);
      status := if ok then AllSet else NotDescribed;
    }
  }

  lemma NothingChanged<T>(table: map<string, seq<T>>, name: string)
    ensures OnlyAt(table, table, name)
  {
  }

  /** The size of input `j` is that of its file. */
  method NoteFileSize(node: QueryNode, j: nat, sizes: Sizes, recordSizes: RecordSizes, ghost plan: Plan,
                      ghost done: set<QueryNode>, ghost before: SizeTable)
    returns (ok: bool)
    requires InPlan(plan, node) && j < |plan.g.previous[node]| && !FedInside(plan, node, j)
    requires InputOf(node.name, j) !in Waiting(plan, done)
    requires InputsSized(plan, recordSizes, done, node, j, before, sizes.inputs)
    modifies sizes`inputs
    ensures ok <==> j * STREAM_PARAM_COUNT + DATA_SIZES_OFFSET < |node.inputStreamParameters|
    ensures !ok ==> !StreamsDescribed(plan.g, node)
    ensures ok ==> InputsSized(plan, recordSizes, done, node, j + 1, before, sizes.inputs)
    ensures ok ==> OnlyAt(old(sizes.inputs), sizes.inputs, node.name)
  {
    hide Waiting;
    ok := j * STREAM_PARAM_COUNT + DATA_SIZES_OFFSET < |node.inputStreamParameters|;
    if ok {
      var size := WriteDataToMemory(recordSizes(node.inputStreamParameters, j));
      sizes.inputs := WithSize(sizes.inputs, node.name, j, size);
    }
  }

  /** Input `j`, whose data comes from the run itself. */
  method FollowLink(node: QueryNode, j: nat, sizes: Sizes, recordSizes: RecordSizes, ghost plan: Plan,
                    ghost done: set<QueryNode>, ghost before: SizeTable)
    returns (ok: bool)
    requires InPlan(plan, node) && FedInside(plan, node, j)
    requires j < |node.previousNodes| && node.previousNodes[j] == plan.g.previous[node][j]
    requires ProducerReady(plan, recordSizes, node, j, sizes.outputs)
    requires InputsSized(plan, recordSizes, done, node, j, before, sizes.inputs)
    modifies sizes`inputs
    ensures ok <==> LinkReachable(plan, node, j)
    ensures ok ==> InputsSized(plan, recordSizes, done, node, j + 1, before, sizes.inputs)
    ensures OnlyAt(old(sizes.inputs), sizes.inputs, node.name)
  {
    hide OutputsLinked, LeavesBefore, Waiting;
    var producer := node.previousNodes[j];
    var index := FindOutput(producer, node, plan);
    ok := index.Some?;
    if ok {
      sizes.inputs := WithSize(sizes.inputs, node.name, j, sizes.outputs[producer.name][index.value]);
    }
  }

  lemma HandedOverIsSized(plan: Plan, recordSizes: RecordSizes, done: set<QueryNode>, n: QueryNode, j: nat,
                          before: SizeTable, inputs: SizeTable)
    requires InPlan(plan, n) && j < |plan.g.previous[n]| && !FedInside(plan, n, j)
    requires InputOf(n.name, j) in Waiting(plan, done)
    requires InputsSized(plan, recordSizes, done, n, j, before, inputs)
    ensures InputsSized(plan, recordSizes, done, n, j + 1, before, inputs)
  {
  }

  lemma UnreachableStops(plan: Plan, n: QueryNode, j: nat, needed: iset<Place>)
    requires InPlan(plan, n) && !LinkReachable(plan, n, j)
    ensures StopsAt(plan, n, needed, BadAccess)
  {
  }

  /** What a surviving pointer and a filled slot tell of an input. */
  lemma InputSource(node: QueryNode, j: nat, store: Store, filled: iset<Place>, plan: Plan, done: set<QueryNode>)
    requires InPlan(plan, node) && j < |plan.g.previous[node]| && PreviousCut(plan, node)
    requires node.name in store.inputs && |store.inputs[node.name]| == |plan.g.previous[node]|
    requires Holds(store, filled + InputsTaken(plan, node, j))
    requires InputOf(node.name, j) in filled <==> InputOf(node.name, j) in Waiting(plan, done)
    ensures j < |node.previousNodes| && (FedInside(plan, node, j) <==> node.previousNodes[j] != null)
    ensures FedInside(plan, node, j) ==> node.previousNodes[j] == plan.g.previous[node][j]
    ensures !FedInside(plan, node, j) ==> LinkReachable(plan, node, j)
    ensures InputOf(node.name, j) in filled + InputsTaken(plan, node, j) <==>
         InputOf(node.name, j) in Waiting(plan, done)
    ensures store.inputs[node.name][j] != null <==> InputOf(node.name, j) in Waiting(plan, done)
    ensures InputOf(node.name, j) in Waiting(plan, done) ==>
              filled + InputsTaken(plan, node, j + 1) == filled + InputsTaken(plan, node, j)
  {
    InputTaken(plan, node, j, filled);
    assert FedInside(plan, node, j) <==> node.previousNodes[j] != null;
    assert store.At(InputOf(node.name, j)) == store.inputs[node.name][j];
  }

  /** One input: from a file, from the run itself, or handed over by an earlier run. */
  method AllocateInput(node: QueryNode, j: nat, store: Store, sizes: Sizes, recordSizes: RecordSizes,
                       ghost filled: iset<Place>, ghost plan: Plan, ghost done: set<QueryNode>,
                       ghost before: SizeTable)
    returns (status: SetupStatus)
    requires InPlan(plan, node) && j < |plan.g.previous[node]| && PreviousCut(plan, node)
    requires node.name in store.inputs && |store.inputs[node.name]| == |plan.g.previous[node]|
    requires Holds(store, filled + InputsTaken(plan, node, j))
    requires InputOf(node.name, j) in filled <==> InputOf(node.name, j) in Waiting(plan, done)
    requires FedInside(plan, node, j) ==> ProducerReady(plan, recordSizes, node, j, sizes.outputs)
    requires InputsSized(plan, recordSizes, done, node, j, before, sizes.inputs)
    modifies store`inputs, store`places, store.pool, sizes`inputs
    ensures status != AllSet ==> StopsAt(plan, node, filled + InputsTaken(plan, node, j + 1), status)
    ensures status == AllSet ==> Holds(store, filled + InputsTaken(plan, node, j + 1))
    ensures status == AllSet ==> InputsSized(plan, recordSizes, done, node, j + 1, before, sizes.inputs)
    ensures status == AllSet ==> LinkReachable(plan, node, j)
    ensures status == AllSet ==> Advanced(old(Now(store, sizes)), Now(store, sizes), node.name)
  {
    hide Holds, FitsPool, InputsSized, ProducerReady, Waiting, Advanced, LinkReachable, FedInside, InputsTaken;
    hide PreviousCut, OnlyAt, StopsAt;
    NothingAdvanced(Now(store, sizes), node.name);
    status := AllSet;
    InputTaken(plan, node, j, filled);
    InputSource(node, j, store, filled, plan, done);
    if node.previousNodes[j] == null && store.inputs[node.name][j] == null {
      status := FillFromFile(node, j, store, sizes, recordSizes, filled + InputsTaken(plan, node, j), plan, done,
                             before);
    } else if node.previousNodes[j] != null {
      var ok := FollowLink(node, j, sizes, recordSizes, plan, done, before);
      if !ok {
        UnreachableStops(plan, node, j, filled + InputsTaken(plan, node, j + 1));
        return BadAccess;
      }
      OnlySizesAdvance(old(Now(store, sizes)), Now(store, sizes), node.name);
    } else {
      HandedOverIsSized(plan, recordSizes, done, node, j, before, sizes.inputs);
    }
  }

  lemma OnlySizesAdvance(before: Tables, after: Tables, name: string)
    requires OnlyAt(before.inputSizes, after.inputSizes, name)
    requires after == before.(inputSizes := after.inputSizes)
    ensures Advanced(before, after, name)
  {
  }

  method AllocateInputMemoryBlocks(node: QueryNode, store: Store, sizes: Sizes, recordSizes: RecordSizes,
                                   ghost filled: iset<Place>, ghost plan: Plan, ghost done: set<QueryNode>,
                                   ghost before: SizeTable)
    returns (status: SetupStatus)
    requires InPlan(plan, node) && Holds(store, filled) && HasVectors(plan, node, store.inputs, store.outputs)
    requires PreviousCut(plan, node) && ProducersReady(plan, recordSizes, node, sizes.outputs)
    requires forall j: nat :: InputOf(node.name, j) in filled <==> InputOf(node.name, j) in Waiting(plan, done)
    requires InputsSized(plan, recordSizes, done, node, 0, before, sizes.inputs)
    modifies store`inputs, store`places, store.pool, sizes`inputs
    ensures status != AllSet ==>
              StopsAt(plan, node, filled + InputsTaken(plan, node, |plan.g.previous[node]|), status)
    ensures status == AllSet ==> Holds(store, filled + InputsTaken(plan, node, |plan.g.previous[node]|))
    ensures status == AllSet ==>
              InputsSized(plan, recordSizes, done, node, |plan.g.previous[node]|, before, sizes.inputs)
    ensures status == AllSet ==> forall j: nat :: LinkReachable(plan, node, j)
    ensures status == AllSet ==> Advanced(old(Now(store, sizes)), Now(store, sizes), node.name)
  {
    hide Holds, StopsAt, InputsSized, Advanced, FitsPool, ProducerReady, LinkReachable, Waiting, PreviousCut, FedInside;
    hide SameShape, InputsTaken, ProducersReady;
    status := AllSet;
    NothingAdvanced(Now(store, sizes), node.name);
    InputsCount(plan, node);
    NoInputTaken(plan, node, filled);
    for j := 0 to |node.previousNodes|
      invariant status == AllSet && Holds(store, filled + InputsTaken(plan, node, j))
      invariant InputsSized(plan, recordSizes, done, node, j, before, sizes.inputs)
      invariant forall i: nat :: i < j ==> LinkReachable(plan, node, i)
      invariant Advanced(old(Now(store, sizes)), Now(store, sizes), node.name)
    {
      ghost var earlier := Now(store, sizes);
      VectorsStand(plan, node, old(Now(store, sizes)), earlier);
      ProducerAt(plan, recordSizes, node, j, sizes.outputs);
      status := AllocateInput(node, j, store, sizes, recordSizes, filled, plan, done, before);
      if status != AllSet {
        FewerInputsTaken(plan, node, filled, j + 1);
        StopsWithMore(plan, node, filled + InputsTaken(plan, node, j + 1),
                      filled + InputsTaken(plan, node, |plan.g.previous[node]|), status);
        return;
      }
      AdvancedOn(old(Now(store, sizes)), earlier, Now(store, sizes), node.name);
    }
  }

  lemma {:induction false} TakenByRun(plan: Plan, nodes: seq<QueryNode>, k: nat, p: Place)
    requires k <= |nodes| && AllInPlan(plan, nodes)
    ensures p in RunTaken(plan, nodes, k) ==> IsNamed(Members(nodes[..k]), p.name)
  {
    if k > 0 {
      TakenByRun(plan, nodes, k - 1, p);
      assert nodes[..k] == nodes[..k - 1] + [nodes[k - 1]];
    }
  }

  lemma NamesDiffer(plan: Plan, done: set<QueryNode>, nodes: seq<QueryNode>, k: nat)
    requires NextRun(plan, done, nodes) && k < |nodes|
    ensures nodes[k] in nodes && InPlan(plan, nodes[k]) && AllInPlan(plan, nodes)
    ensures nodes[k] in plan.homes && plan.homes[nodes[k]] == nodes
    ensures nodes[k] in plan.g.nodes && nodes[k] in plan.g.next && nodes[k] in plan.g.previous
    ensures forall j :: 0 <= j < |nodes| && j != k ==> nodes[j].name != nodes[k].name
  {
    var node := nodes[k];
    assert node in nodes && InPlan(plan, node);
    assert Satisfies(plan.g, NamesAreUnique) && NameIsOwn(plan.g.nodes, node);
    forall j | 0 <= j < |nodes| && j != k ensures nodes[j].name != node.name {
      assert nodes[j] in nodes && InPlan(plan, nodes[j]);
    }
  }

  /** Setting up node `k` finds its own slots empty, unless a block was handed over to them. */
  lemma OwnSlotsAreFree(plan: Plan, done: set<QueryNode>, nodes: seq<QueryNode>, k: nat)
    requires NextRun(plan, done, nodes) && k < |nodes|
    ensures InPlan(plan, nodes[k]) && AllInPlan(plan, nodes)
    ensures forall i: nat :: OutputOf(nodes[k].name, i) !in Waiting(plan, done) + RunTaken(plan, nodes, k)
    ensures forall j: nat :: InputOf(nodes[k].name, j) in Waiting(plan, done) + RunTaken(plan, nodes, k)
                             <==> InputOf(nodes[k].name, j) in Waiting(plan, done)
  {
    NamesDiffer(plan, done, nodes, k);
    forall p: Place | p.name == nodes[k].name ensures p !in RunTaken(plan, nodes, k) {
      TakenByRun(plan, nodes, k, p);
      assert !IsNamed(Members(nodes[..k]), nodes[k].name);
    }
  }

  /** What the set-up needs of the nodes of a run. */
  ghost predicate RunReady(plan: Plan, nodes: seq<QueryNode>)
    reads nodes
  {
    AllInPlan(plan, nodes) && forall n {:trigger InPlan(plan, n)} :: n in nodes ==>
      && PreviousCut(plan, n)
      && OutputsLinked(plan, n, |plan.g.next[n]|, n.nextNodes)
  }

  ghost predicate RunVectors(plan: Plan, nodes: seq<QueryNode>, inputs: BlockTable, outputs: BlockTable) {
    forall n {:trigger n in nodes} :: n in nodes ==> n in plan.g.nodes && HasVectors(plan, n, inputs, outputs)
  }

  lemma VectorsStay(plan: Plan, nodes: seq<QueryNode>, before: Tables, after: Tables, name: string)
    requires RunVectors(plan, nodes, before.inputs, before.outputs) && Advanced(before, after, name)
    ensures RunVectors(plan, nodes, after.inputs, after.outputs)
  {
  }

  /** The blocks of the first `k` nodes are allocated, on top of those handed over by earlier runs. */
  ghost predicate Allocated(plan: Plan, done: set<QueryNode>, nodes: seq<QueryNode>, k: nat, store: Store)
    requires k <= |nodes| && AllInPlan(plan, nodes)
    reads store, store.pool
  {
    && Holds(store, Waiting(plan, done) + RunTaken(plan, nodes, k))
    && RunVectors(plan, nodes, store.inputs, store.outputs)
  }

  /** Producers come before their consumers. */
  ghost predicate InRunOrder(plan: Plan, nodes: seq<QueryNode>)
    requires AllInPlan(plan, nodes)
  {
    forall k, p: QueryNode {:trigger p in nodes[..k]} ::
      0 <= k < |nodes| && InPlan(plan, nodes[k]) && p in plan.g.previous[nodes[k]] && p in nodes ==>
      p in nodes[..k]
  }

  ghost predicate FilesFit(plan: Plan, nodes: seq<QueryNode>)
    requires AllInPlan(plan, nodes)
    reads nodes`inputFiles, nodes`outputFiles
  {
    forall n {:trigger InPlan(plan, n)} :: n in nodes ==>
      && InPlan(plan, n) && |n.inputFiles| == |plan.g.previous[n]|
      && |n.outputFiles| == |plan.g.next[n]| == |n.isChecked|
  }

  /** All sizes of `n` are set. */
  ghost predicate NodeSized(plan: Plan, recordSizes: RecordSizes, done: set<QueryNode>, n: QueryNode,
                            before: SizeTable, inputs: SizeTable, outputs: SizeTable)
    requires InPlan(plan, n)
  {
    && OutputsSized(plan, recordSizes, n, |plan.g.next[n]|, outputs)
    && InputsSized(plan, recordSizes, done, n, |plan.g.previous[n]|, before, inputs)
  }

  /** The sizes of `n` are still those that earlier runs have left. */
  ghost predicate NodeUnsized(plan: Plan, recordSizes: RecordSizes, done: set<QueryNode>, n: QueryNode,
                              before: SizeTable, inputs: SizeTable, outputs: SizeTable)
    requires InPlan(plan, n)
  {
    && OutputsSized(plan, recordSizes, n, 0, outputs)
    && InputsSized(plan, recordSizes, done, n, 0, before, inputs)
  }

  /** The sizes of the first `k` nodes are set; those of all others are as they were. */
  ghost predicate RunSized(plan: Plan, recordSizes: RecordSizes, done: set<QueryNode>, nodes: seq<QueryNode>, k: nat,
                           before: SizeTable, inputs: SizeTable, outputs: SizeTable)
  {
    && (forall j {:trigger nodes[j]} :: 0 <= j < |nodes| ==>
          && InPlan(plan, nodes[j])
          && if j < k then NodeSized(plan, recordSizes, done, nodes[j], before, inputs, outputs)
             else NodeUnsized(plan, recordSizes, done, nodes[j], before, inputs, outputs))
    && forall name {:trigger inputs[name]} {:trigger name in before} :: name in before ==>
         name in inputs && (inputs[name] == before[name] || exists j :: 0 <= j < |nodes| && nodes[j].name == name)
  }

  lemma SizesStay(plan: Plan, recordSizes: RecordSizes, done: set<QueryNode>, n: QueryNode, before: SizeTable,
                  inputs: SizeTable, outputs: SizeTable, inputs': SizeTable, outputs': SizeTable, name: string)
    requires InPlan(plan, n) && n.name != name && OnlyAt(inputs, inputs', name) && OnlyAt(outputs, outputs', name)
    ensures NodeSized(plan, recordSizes, done, n, before, inputs, outputs) ==>
              NodeSized(plan, recordSizes, done, n, before, inputs', outputs')
    ensures NodeUnsized(plan, recordSizes, done, n, before, inputs, outputs) ==>
              NodeUnsized(plan, recordSizes, done, n, before, inputs', outputs')
  {
  }

  lemma OneMoreSized(plan: Plan, recordSizes: RecordSizes, done: set<QueryNode>, nodes: seq<QueryNode>, k: nat,
                     before: SizeTable, earlier: Tables, later: Tables)
    requires NextRun(plan, done, nodes) && k < |nodes| && InPlan(plan, nodes[k])
    requires RunSized(plan, recordSizes, done, nodes, k, before, earlier.inputSizes, earlier.outputSizes)
    requires Advanced(earlier, later, nodes[k].name)
    requires NodeSized(plan, recordSizes, done, nodes[k], before, later.inputSizes, later.outputSizes)
    ensures RunSized(plan, recordSizes, done, nodes, k + 1, before, later.inputSizes, later.outputSizes)
  {
    hide NodeSized, NodeUnsized, NextRun;
    NamesDiffer(plan, done, nodes, k);
    forall j | 0 <= j < |nodes| && j != k
      ensures InPlan(plan, nodes[j])
      ensures j < k ==>
                NodeSized(plan, recordSizes, done, nodes[j], before, later.inputSizes, later.outputSizes)
      ensures j > k ==>
                NodeUnsized(plan, recordSizes, done, nodes[j], before, later.inputSizes, later.outputSizes)
    {
      SizesStay(plan, recordSizes, done, nodes[j], before, earlier.inputSizes, earlier.outputSizes, later.inputSizes,
                later.outputSizes, nodes[k].name);
    }
    forall name | name in before
      ensures name in later.inputSizes
      ensures later.inputSizes[name] == before[name] || exists j :: 0 <= j < |nodes| && nodes[j].name == name
    {
      assert name in earlier.inputSizes;
    }
  }

  /** The node has an ID for each of its streams. */
  ghost predicate IdsFit(plan: Plan, n: QueryNode, inputIds: IdManager.IdMap, outputIds: IdManager.IdMap) {
    && n in plan.g.nodes
    && n.name in inputIds && |inputIds[n.name]| == |plan.g.previous[n]|
    && n.name in outputIds && |outputIds[n.name]| == |plan.g.next[n]|
    && forall i :: 0 <= i < |outputIds[n.name]| ==> outputIds[n.name][i] < MAX_IO_STREAM_COUNT
  }

  datatype Description = Description(node: AcceleratedNode, results: seq<ResultParameters>)

  /** What the FPGA is told of `n`, and which results are to be read, given its IDs and what the tables hold for it. */
  ghost predicate NodeDescribed(n: QueryNode, description: Description, inputIds: IdManager.IdMap,
                                outputIds: IdManager.IdMap, tables: Tables)
    reads n`outputFiles, n`moduleLocation
  {
    var name, node := n.name, description.node;
    && name in inputIds && name in outputIds && name in tables.inputs && name in tables.outputs
    && name in tables.inputSizes && name in tables.outputSizes
    && DescribesAll(node.inputs, inputIds[name], n.inputStreamParameters, tables.inputs[name],
                    tables.inputSizes[name])
    && DescribesAll(node.outputs, outputIds[name], n.outputStreamParameters, tables.outputs[name],
                    tables.outputSizes[name])
    && node.operationType == n.operationType && node.operationParameters == n.operationParameters
    && node.moduleLocation == n.moduleLocation
    && ListsResults(description.results, outputIds[name], tables.outputs[name], n.outputFiles, n.isChecked)
  }

  /** Describes a node whose blocks and sizes are set; fails where parameters of a stream are missing. */
  method DescribeNode(node: QueryNode, inputIds: IdManager.IdMap, outputIds: IdManager.IdMap, store: Store,
                      sizes: Sizes, ghost plan: Plan)
    returns (description: Option<Description>)
    requires IdsFit(plan, node, inputIds, outputIds) && HasVectors(plan, node, store.inputs, store.outputs)
    requires node.name in sizes.inputs && |sizes.inputs[node.name]| == |plan.g.previous[node]|
    requires node.name in sizes.outputs && |plan.g.next[node]| <= |sizes.outputs[node.name]|
    requires |node.outputFiles| == |plan.g.next[node]| == |node.isChecked|
    ensures description.Some? <==> StreamsDescribed(plan.g, node)
    ensures description.Some? ==> NodeDescribed(node, description.value, inputIds, outputIds, Now(store, sizes))
  {
    var name := node.name;
    var inputs := CreateStreamParams(inputIds[name], node.inputStreamParameters, store.inputs[name],
                                     sizes.inputs[name]);
    var outputs := CreateStreamParams(outputIds[name], node.outputStreamParameters, store.outputs[name],
                                      sizes.outputs[name]);
    if inputs.None? || outputs.None? {
      return None;
    }
    var described := AcceleratedNode(inputs.value, outputs.value, node.operationType, node.moduleLocation,
                                     node.operationParameters);
    var results := StoreStreamResultParameters(outputIds[name], node, store.outputs[name]);
    description := Some(Description(described, results));
  }

  /** The producers of node `k` that are in the run come before it, so their sizes are set. */
  lemma ProducersAreReady(plan: Plan, recordSizes: RecordSizes, done: set<QueryNode>, nodes: seq<QueryNode>, k: nat,
                          before: SizeTable, inputs: SizeTable, outputs: SizeTable, outputs': SizeTable)
    requires NextRun(plan, done, nodes) && RunReady(plan, nodes) && InRunOrder(plan, nodes)
    requires k < |nodes| && InPlan(plan, nodes[k])
    requires RunSized(plan, recordSizes, done, nodes, k, before, inputs, outputs)
    requires OnlyAt(outputs, outputs', nodes[k].name)
    ensures ProducersReady(plan, recordSizes, nodes[k], outputs')
  {
    hide InputsSized, OutputsLinked;
    var n := nodes[k];
    NamesDiffer(plan, done, nodes, k);
    forall j: nat | FedInside(plan, n, j) ensures ProducerReady(plan, recordSizes, n, j, outputs') {
      var p := plan.g.previous[n][j];
      assert p in nodes[..k];
      var i :| 0 <= i < k && nodes[i] == p;
      assert InPlan(plan, p);
      assert OutputsSized(plan, recordSizes, p, |plan.g.next[p]|, outputs);
    }
  }

  /** The places node `k` needs, on top of what was taken before. */
  lemma NodeTakes(plan: Plan, done: set<QueryNode>, nodes: seq<QueryNode>, k: nat)
    requires k < |nodes| && AllInPlan(plan, nodes) && InPlan(plan, nodes[k])
    ensures Waiting(plan, done) + RunTaken(plan, nodes, k) + OutputsTaken(plan, nodes[k], |plan.g.next[nodes[k]]|) +
            InputsTaken(plan, nodes[k], |plan.g.previous[nodes[k]]|) ==
            Waiting(plan, done) + RunTaken(plan, nodes, k + 1)
  {
  }

  /** What the set-up of a node starts from. */
  lemma NodeIsUnsized(plan: Plan, recordSizes: RecordSizes, done: set<QueryNode>, nodes: seq<QueryNode>, k: nat,
                      before: SizeTable, inputs: SizeTable, outputs: SizeTable)
    requires k < |nodes| && InPlan(plan, nodes[k])
    requires RunSized(plan, recordSizes, done, nodes, k, before, inputs, outputs)
    ensures OutputsSized(plan, recordSizes, nodes[k], 0, outputs)
    ensures InputsSized(plan, recordSizes, done, nodes[k], 0, before, inputs)
  {
  }

  lemma NodeIsReady(plan: Plan, nodes: seq<QueryNode>, node: QueryNode, inputs: BlockTable, outputs: BlockTable)
    requires RunReady(plan, nodes) && RunVectors(plan, nodes, inputs, outputs) && node in nodes
    ensures InPlan(plan, node) && HasVectors(plan, node, inputs, outputs)
    ensures PreviousCut(plan, node) && OutputsLinked(plan, node, |plan.g.next[node]|, node.nextNodes)
  {
    assert InPlan(plan, node);
  }

  lemma AllocatedParts(plan: Plan, done: set<QueryNode>, nodes: seq<QueryNode>, k: nat, store: Store)
    requires k <= |nodes| && AllInPlan(plan, nodes)
    ensures Allocated(plan, done, nodes, k, store) <==>
            Holds(store, Waiting(plan, done) + RunTaken(plan, nodes, k)) &&
            RunVectors(plan, nodes, store.inputs, store.outputs)
  {
  }

  lemma NodeIsReachable(plan: Plan, recordSizes: RecordSizes, n: QueryNode, outputs: SizeTable)
    requires InPlan(plan, n) && OutputsSized(plan, recordSizes, n, |plan.g.next[n]|, outputs)
    requires forall j: nat :: LinkReachable(plan, n, j)
    ensures SizesReachable(plan, n)
  {
  }

  lemma NodeIsSized(plan: Plan, recordSizes: RecordSizes, done: set<QueryNode>, n: QueryNode, before: SizeTable,
                    inputs: SizeTable, outputs: SizeTable)
    requires InPlan(plan, n) && OutputsSized(plan, recordSizes, n, |plan.g.next[n]|, outputs)
    requires InputsSized(plan, recordSizes, done, n, |plan.g.previous[n]|, before, inputs)
    ensures NodeSized(plan, recordSizes, done, n, before, inputs, outputs)
  {
  }

  /** Vectors stay where they are when slots are filled. */
  lemma NodeStaysReady(plan: Plan, n: QueryNode, before: Tables, after: Tables, name: string)
    requires n in plan.g.nodes && HasVectors(plan, n, before.inputs, before.outputs) && Advanced(before, after, name)
    ensures HasVectors(plan, n, after.inputs, after.outputs)
    ensures OnlyAt(before.outputSizes, after.outputSizes, name)
  {
  }

  /** The tables are those of the store and of the sizes. */
  lemma TablesAreNow(store: Store, sizes: Sizes)
    ensures Now(store, sizes).inputs == store.inputs && Now(store, sizes).outputs == store.outputs
    ensures Now(store, sizes).inputSizes == sizes.inputs && Now(store, sizes).outputSizes == sizes.outputs
    ensures Now(store, sizes).places == store.places
  {
  }

  /** Blocks and sizes of one node. */
  method AllocateForNode(k: nat, nodes: seq<QueryNode>, store: Store, sizes: Sizes, recordSizes: RecordSizes,
                         ghost plan: Plan, ghost done: set<QueryNode>, ghost before: SizeTable)
    returns (status: SetupStatus)
    requires NextRun(plan, done, nodes) && RunReady(plan, nodes) && InRunOrder(plan, nodes) && k < |nodes|
    requires AllInPlan(plan, nodes) && Allocated(plan, done, nodes, k, store)
    requires RunSized(plan, recordSizes, done, nodes, k, before, sizes.inputs, sizes.outputs)
    modifies store`inputs, store`outputs, store`places, store.pool, sizes`inputs, sizes`outputs
    ensures status != AllSet ==>
              StopsAt(plan, nodes[k], Waiting(plan, done) + RunTaken(plan, nodes, k + 1), status)
    ensures status == AllSet ==> Allocated(plan, done, nodes, k + 1, store)
    ensures status == AllSet ==>
              RunSized(plan, recordSizes, done, nodes, k + 1, before, sizes.inputs, sizes.outputs)
    ensures status == AllSet ==> SizesReachable(plan, nodes[k])
    ensures status == AllSet ==> Advanced(old(Now(store, sizes)), Now(store, sizes), nodes[k].name)
  {
    hide *;
    var node := nodes[k];
    NamesDiffer(plan, done, nodes, k);
    NodeTakes(plan, done, nodes, k);
    OwnSlotsAreFree(plan, done, nodes, k);
    AllocatedParts(plan, done, nodes, k, store);
    NodeIsReady(plan, nodes, node, store.inputs, store.outputs);
    NodeIsUnsized(plan, recordSizes, done, nodes, k, before, sizes.inputs, sizes.outputs);
    ghost var start, filled := Now(store, sizes), Waiting(plan, done) + RunTaken(plan, nodes, k);
    ghost var taken := filled + OutputsTaken(plan, node, |plan.g.next[node]|);
    TablesAreNow(store, sizes);
    status := AllocateOutputMemoryBlocks(node, store, sizes, recordSizes, filled, plan);
    if status != AllSet {
      StopsWithMore(plan, node, taken, Waiting(plan, done) + RunTaken(plan, nodes, k + 1), status);
      return;
    }
    ghost var middle := Now(store, sizes);
    TablesAreNow(store, sizes);
    NodeStaysReady(plan, node, start, middle, node.name);
    ProducersAreReady(plan, recordSizes, done, nodes, k, before, start.inputSizes, start.outputSizes, sizes.outputs);
    InputsNotTaken(plan, node, filled, |plan.g.next[node]|);
    status := AllocateInputMemoryBlocks(node, store, sizes, recordSizes, taken, plan, done, before);
    if status == AllSet {
      TablesAreNow(store, sizes);
      AdvancedOn(start, middle, Now(store, sizes), node.name);
      VectorsStay(plan, nodes, start, Now(store, sizes), node.name);
      NodeIsSized(plan, recordSizes, done, node, before, sizes.inputs, sizes.outputs);
      OneMoreSized(plan, recordSizes, done, nodes, k, before, start, Now(store, sizes));
      AllocatedParts(plan, done, nodes, k + 1, store);
      NodeIsReachable(plan, recordSizes, node, sizes.outputs);
    }
  }

  lemma InputsNotTaken(plan: Plan, n: QueryNode, filled: iset<Place>, limit: nat)
    requires InPlan(plan, n)
    ensures forall j: nat :: InputOf(n.name, j) in filled + OutputsTaken(plan, n, limit) <==>
              InputOf(n.name, j) in filled
  {
  }

  /** All vectors have kept their shape, and all blocks their places. */
  ghost predicate Kept(before: Tables, after: Tables) {
    && SameShape(before.inputs, after.inputs) && SameShape(before.outputs, after.outputs)
    && SameShape(before.inputSizes, after.inputSizes) && SameShape(before.outputSizes, after.outputSizes)
    && Grown(before.places, after.places)
  }

  lemma KeptOn(before: Tables, middle: Tables, after: Tables, name: string)
    requires Kept(before, middle) && Advanced(middle, after, name)
    ensures Kept(before, after)
  {
  }

  /** Node `k` can be described once its blocks and sizes are set. */
  lemma NodeFits(plan: Plan, recordSizes: RecordSizes, done: set<QueryNode>, nodes: seq<QueryNode>, k: nat,
                 before: SizeTable, inputs: SizeTable, outputs: SizeTable)
    requires k < |nodes| && InPlan(plan, nodes[k]) && AllInPlan(plan, nodes) && FilesFit(plan, nodes)
    requires RunSized(plan, recordSizes, done, nodes, k + 1, before, inputs, outputs) && SizesReachable(plan, nodes[k])
    ensures var n := nodes[k];
            && |n.outputFiles| == |plan.g.next[n]| == |n.isChecked|
            && n.name in inputs && |inputs[n.name]| == |plan.g.previous[n]|
            && n.name in outputs && |plan.g.next[n]| <= |outputs[n.name]|
  {
    assert nodes[k] in nodes && InPlan(plan, nodes[k]);
  }

  /** All nodes of the run have their IDs. */
  ghost predicate RunIdsFit(plan: Plan, nodes: seq<QueryNode>, inputIds: IdManager.IdMap, outputIds: IdManager.IdMap) {
    forall n {:trigger IdsFit(plan, n, inputIds, outputIds)} :: n in nodes ==> IdsFit(plan, n, inputIds, outputIds)
  }

  /** Blocks, sizes and description of node `k`. */
  method SetupNode(k: nat, nodes: seq<QueryNode>, inputIds: IdManager.IdMap, outputIds: IdManager.IdMap, store: Store,
                   sizes: Sizes, recordSizes: RecordSizes, ghost plan: Plan, ghost done: set<QueryNode>,
                   ghost before: SizeTable)
    returns (status: SetupStatus, description: Option<Description>)
    requires NextRun(plan, done, nodes) && RunReady(plan, nodes) && InRunOrder(plan, nodes) && k < |nodes|
    requires AllInPlan(plan, nodes) && FilesFit(plan, nodes) && RunIdsFit(plan, nodes, inputIds, outputIds)
    requires Allocated(plan, done, nodes, k, store)
    requires RunSized(plan, recordSizes, done, nodes, k, before, sizes.inputs, sizes.outputs)
    modifies store`inputs, store`outputs, store`places, store.pool, sizes`inputs, sizes`outputs
    ensures status != AllSet ==>
              StopsAt(plan, nodes[k], Waiting(plan, done) + RunTaken(plan, nodes, k + 1), status)
    ensures status == AllSet ==> Allocated(plan, done, nodes, k + 1, store)
    ensures status == AllSet ==>
              RunSized(plan, recordSizes, done, nodes, k + 1, before, sizes.inputs, sizes.outputs)
    ensures status == AllSet ==> SizesReachable(plan, nodes[k]) && StreamsDescribed(plan.g, nodes[k])
    ensures status == AllSet ==> Advanced(old(Now(store, sizes)), Now(store, sizes), nodes[k].name)
    ensures status == AllSet ==>
              description.Some?
              && NodeDescribed(nodes[k], description.value, inputIds, outputIds, Now(store, sizes))
  {
    hide *;
    description := None;
    NamesDiffer(plan, done, nodes, k);
    status := AllocateForNode(k, nodes, store, sizes, recordSizes, plan, done, before);
    if status == AllSet {
      NodeFits(plan, recordSizes, done, nodes, k, before, sizes.inputs, sizes.outputs);
      AllocatedParts(plan, done, nodes, k + 1, store);
      NodeIsReady(plan, nodes, nodes[k], store.inputs, store.outputs);
      NodeHasIds(plan, nodes, nodes[k], inputIds, outputIds);
      description := DescribeNode(nodes[k], inputIds, outputIds, store, sizes, plan);
      if description.None? {
        UndescribedStops(plan, nodes[k], Waiting(plan, done) + RunTaken(plan, nodes, k + 1));
        status := NotDescribed;
      }
    }
  }

  lemma NodeHasIds(plan: Plan, nodes: seq<QueryNode>, n: QueryNode, inputIds: IdManager.IdMap,
                   outputIds: IdManager.IdMap)
    requires RunIdsFit(plan, nodes, inputIds, outputIds) && n in nodes
    ensures IdsFit(plan, n, inputIds, outputIds)
  {
  }

  lemma UndescribedStops(plan: Plan, n: QueryNode, needed: iset<Place>)
    requires !StreamsDescribed(plan.g, n)
    ensures StopsAt(plan, n, needed, NotDescribed)
  {
  }

  /** What the FPGA is told of the first `k` nodes, and which of their results are to be read. */
  ghost predicate RunDescribed(nodes: seq<QueryNode>, k: nat, accelerated: seq<AcceleratedNode>, results: ResultMap,
                               inputIds: IdManager.IdMap, outputIds: IdManager.IdMap, tables: Tables)
    reads nodes`outputFiles, nodes`moduleLocation
  {
    && |accelerated| == k <= |nodes|
    && (forall j {:trigger nodes[j]} :: 0 <= j < k ==>
          && nodes[j].name in results
          && NodeDescribed(nodes[j], Description(accelerated[j], results[nodes[j].name]), inputIds, outputIds, tables))
    && forall name {:trigger name in results} :: name in results ==> exists j :: 0 <= j < k && nodes[j].name == name
  }

  /** The results to be read, by node name. */
  type ResultMap = map<string, seq<ResultParameters>>

  lemma DescriptionStays(n: QueryNode, description: Description, inputIds: IdManager.IdMap,
                         outputIds: IdManager.IdMap, before: Tables, after: Tables, name: string)
    requires NodeDescribed(n, description, inputIds, outputIds, before)
    requires n.name != name && Advanced(before, after, name)
    ensures NodeDescribed(n, description, inputIds, outputIds, after)
  {
    hide DescribesAll, ListsResults;
  }

  lemma OneMoreDescribed(plan: Plan, done: set<QueryNode>, nodes: seq<QueryNode>, k: nat,
                         accelerated: seq<AcceleratedNode>, results: ResultMap, inputIds: IdManager.IdMap,
                         outputIds: IdManager.IdMap, before: Tables, after: Tables, description: Description)
    requires NextRun(plan, done, nodes) && k < |nodes|
    requires RunDescribed(nodes, k, accelerated, results, inputIds, outputIds, before)
    requires Advanced(before, after, nodes[k].name)
    requires NodeDescribed(nodes[k], description, inputIds, outputIds, after)
    ensures RunDescribed(nodes, k + 1, accelerated + [description.node],
                         results[nodes[k].name := description.results], inputIds, outputIds, after)
  {
    hide NodeDescribed, Advanced, NextRun;
    NamesDiffer(plan, done, nodes, k);
    var more, all := accelerated + [description.node], results[nodes[k].name := description.results];
    forall j | 0 <= j < k + 1
      ensures nodes[j].name in all
      ensures NodeDescribed(nodes[j], Description(more[j], all[nodes[j].name]), inputIds, outputIds, after)
    {
      if j < k {
        DescriptionStays(nodes[j], Description(accelerated[j], results[nodes[j].name]), inputIds, outputIds, before,
                         after, nodes[k].name);
      }
    }
  }

  lemma StopsIsObstacle(plan: Plan, done: set<QueryNode>, nodes: seq<QueryNode>, k: nat, status: SetupStatus)
    requires k < |nodes| && AllInPlan(plan, nodes)
    requires StopsAt(plan, nodes[k], Waiting(plan, done) + RunTaken(plan, nodes, k + 1), status)
    ensures Obstacle(plan, done, nodes, status)
  {
    TakenGrows(plan, nodes, k + 1, |nodes|);
    if status == OutOfBlocks && FitsPool(RunNeeds(plan, done, nodes)) {
      FewerFit(Waiting(plan, done) + RunTaken(plan, nodes, k + 1), RunNeeds(plan, done, nodes));
    }
    assert nodes[k] in nodes;
  }

  /** The first `k` nodes are set up. */
  ghost predicate SetUpTo(plan: Plan, recordSizes: RecordSizes, done: set<QueryNode>, nodes: seq<QueryNode>, k: nat,
                          before: SizeTable, store: Store, sizes: Sizes)
    requires k <= |nodes| && AllInPlan(plan, nodes)
    reads store, store.pool, sizes
  {
    && Allocated(plan, done, nodes, k, store)
    && RunSized(plan, recordSizes, done, nodes, k, before, sizes.inputs, sizes.outputs)
    && forall j {:trigger nodes[j]} :: 0 <= j < k ==>
         SizesReachable(plan, nodes[j]) && StreamsDescribed(plan.g, nodes[j])
  }

  method SetupNodes(nodes: seq<QueryNode>, inputIds: IdManager.IdMap, outputIds: IdManager.IdMap, store: Store,
                    sizes: Sizes, recordSizes: RecordSizes, ghost plan: Plan, ghost done: set<QueryNode>,
                    ghost before: SizeTable)
    returns (status: SetupStatus, accelerated: seq<AcceleratedNode>, results: ResultMap)
    requires NextRun(plan, done, nodes) && RunReady(plan, nodes) && InRunOrder(plan, nodes)
    requires AllInPlan(plan, nodes) && FilesFit(plan, nodes) && RunIdsFit(plan, nodes, inputIds, outputIds)
    requires SetUpTo(plan, recordSizes, done, nodes, 0, before, store, sizes)
    modifies store`inputs, store`outputs, store`places, store.pool, sizes`inputs, sizes`outputs
    ensures status != AllSet ==> Obstacle(plan, done, nodes, status)
    ensures status == AllSet ==> SetUpTo(plan, recordSizes, done, nodes, |nodes|, before, store, sizes)
    ensures status == AllSet ==> Kept(old(Now(store, sizes)), Now(store, sizes))
    ensures status == AllSet ==>
              RunDescribed(nodes, |nodes|, accelerated, results, inputIds, outputIds, Now(store, sizes))
  {
    hide Allocated, RunSized, NodeDescribed, NextRun, RunReady, InRunOrder, FilesFit, RunIdsFit, StopsAt, Advanced;
    hide SizesReachable, StreamsDescribed, Kept, WellFormed, Waiting, RunTaken, Obstacle, RunDescribed;
    NothingDescribed(nodes, inputIds, outputIds, Now(store, sizes));
    status, accelerated, results := AllSet, [], map[];
    ghost var start := Now(store, sizes);
    NothingKept(start);
    for k := 0 to |nodes|
      invariant status == AllSet && SetUpTo(plan, recordSizes, done, nodes, k, before, store, sizes)
      invariant Kept(start, Now(store, sizes))
      invariant RunDescribed(nodes, k, accelerated, results, inputIds, outputIds, Now(store, sizes))
    {
      ghost var earlier := Now(store, sizes);
      var description;
      status, description :=
        SetupNode(k, nodes, inputIds, outputIds, store, sizes, recordSizes, plan, done, before);
      if status != AllSet {
        StopsIsObstacle(plan, done, nodes, k, status);
        return;
      }
      OneMoreDescribed(plan, done, nodes, k, accelerated, results, inputIds, outputIds, earlier, Now(store, sizes),
                       description.value);
      KeptOn(start, earlier, Now(store, sizes), nodes[k].name);
      accelerated := accelerated + [description.value.node];
      results := results[nodes[k].name := description.value.results];
    }
  }

  lemma NothingDescribed(nodes: seq<QueryNode>, inputIds: IdManager.IdMap, outputIds: IdManager.IdMap, tables: Tables)
    ensures RunDescribed(nodes, 0, [], map[], inputIds, outputIds, tables)
  {
  }

  lemma NothingKept(tables: Tables)
    ensures Kept(tables, tables)
  {
  }
}
