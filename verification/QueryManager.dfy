/** The vectors of a run: for the memory blocks of its streams, and for their sizes. */
module QueryManager {
  import opened QueryNodes
  import opened ExternalLinks
  import opened MemoryManager
  import opened BlockTables
  import opened BlockStore
  import opened MemoryPlan
  import opened StreamSizes

  /** All blocks that are held sit in the `filled` places, one in each. */
  ghost predicate Holds(store: Store, filled: iset<Place>)
    reads store, store.pool
  {
    store.Owned() && forall p {:trigger store.At(p)} {:trigger p in filled} :: store.At(p) != null <==> p in filled
  }

  /** The vector is that of a node that has not run, and it has a slot for every input. */
  ghost predicate VectorFits(plan: Plan, done: set<QueryNode>, name: string, count: nat) {
    exists t :: t in plan.g.nodes && t !in done && t.name == name && |plan.g.previous[t]| == count
  }

  ghost predicate InputsShaped(plan: Plan, done: set<QueryNode>, inputs: BlockTable) {
    forall name {:trigger inputs[name]} {:trigger name in inputs} :: name in inputs ==>
         VectorFits(plan, done, name, |inputs[name]|)
  }

  lemma VectorOf(plan: Plan, done: set<QueryNode>, inputs: BlockTable, t: QueryNode)
    requires InputsShaped(plan, done, inputs) && t in plan.g.nodes && t.name in inputs
    ensures |inputs[t.name]| == |plan.g.previous[t]| && t !in done
  {
    assert Satisfies(plan.g, NamesAreUnique) && NameIsOwn(plan.g.nodes, t);
    assert VectorFits(plan, done, t.name, |inputs[t.name]|);
  }

  /** No block moves, and vectors are only added, for nodes that have not run. */
  ghost predicate Prepared(store: Store, filled: iset<Place>, plan: Plan, done: set<QueryNode>)
    reads store, store.pool
  {
    Holds(store, filled) && InputsShaped(plan, done, store.inputs)
  }

  lemma VectorAdded(plan: Plan, done: set<QueryNode>, inputs: BlockTable, t: QueryNode, vector: seq<MemoryBlock?>)
    requires InputsShaped(plan, done, inputs)
    requires t in plan.g.nodes && t !in done && |vector| == |plan.g.previous[t]|
    ensures InputsShaped(plan, done, inputs[t.name := vector])
  {
  }

  /** Every input has a slot for its block and one for its size, and sizes once noted are still there. */
  ghost predicate InputsInStep(before: SizeTable, blocks: BlockTable, sizes: SizeTable) {
    InStep(blocks, sizes) && Extends(before, sizes)
  }

  lemma StepAdded(before: SizeTable, blocks: BlockTable, sizes: SizeTable, name: string, vector: seq<MemoryBlock?>)
    requires InputsInStep(before, blocks, sizes)
    ensures InputsInStep(before, if name in blocks then blocks else blocks[name := vector],
                         WithVector(sizes, name, |vector|))
  {
  }

  method EnsureInputBlocks(name: string, count: nat, store: Store, ghost filled: iset<Place>)
    requires Holds(store, filled)
    modifies store`inputs
    ensures Holds(store, filled)
    ensures store.inputs == if name in old(store.inputs) then old(store.inputs)
                            else old(store.inputs)[name := seq(count, _ => null)]
  {
    store.InitialiseInputs(name, count);
    assert forall p {:trigger p in filled} :: store.At(p) == old(store.At(p));
  }

  method EnsureOutputBlocks(name: string, count: nat, store: Store, ghost filled: iset<Place>)
    requires Holds(store, filled)
    modifies store`outputs
    ensures Holds(store, filled)
    ensures store.outputs == if name in old(store.outputs) then old(store.outputs)
                             else old(store.outputs)[name := seq(count, _ => null)]
  {
    store.InitialiseOutputs(name, count);
    assert forall p {:trigger p in filled} :: store.At(p) == old(store.At(p));
  }

  /** Gives a node its vectors of inputs, unless an earlier run has. */
  method EnsureInputs(t: QueryNode, store: Store, sizes: Sizes, ghost filled: iset<Place>, ghost plan: Plan,
                      ghost done: set<QueryNode>, ghost before: SizeTable)
    requires t in plan.g.nodes && t !in done && |t.previousNodes| == |plan.g.previous[t]|
    requires Prepared(store, filled, plan, done) && InputsInStep(before, store.inputs, sizes.inputs)
    modifies store`inputs, sizes`inputs
    ensures Prepared(store, filled, plan, done) && InputsInStep(before, store.inputs, sizes.inputs)
    ensures store.inputs.Keys == old(store.inputs).Keys + {t.name}
  {
    hide InputsInStep, Holds, InputsShaped;
    ghost var vector: seq<MemoryBlock?> := seq(|t.previousNodes|, _ => null);
    VectorAdded(plan, done, store.inputs, t, vector);
    StepAdded(before, store.inputs, sizes.inputs, t.name, vector);
    sizes.inputs := WithVector(sizes.inputs, t.name, |t.previousNodes|);
    EnsureInputBlocks(t.name, |t.previousNodes|, store, filled);
  }

  /** The outputs of `n` before output `limit` no longer lead out of the run. */
  ghost predicate OutputsLinked(plan: Plan, n: QueryNode, limit: nat, next: seq<QueryNode?>)
    requires InPlan(plan, n)
  {
    && |next| == |plan.g.next[n]|
    && forall i {:trigger next[i]} :: 0 <= i < |next| ==>
         next[i] == if i < limit && KindOf(plan, n, i) != Internal then null
                    else NextAfterCut(plan.g, plan.reuse, plan.homes[n], n, i)
  }

  /** The consumers of the first `limit` memory links of `n` have their vectors. */
  ghost predicate TargetsReady(plan: Plan, n: QueryNode, limit: nat, names: set<string>)
    requires InPlan(plan, n)
  {
    forall i: nat {:trigger MemoryLink(plan, n, i)} :: i < limit && MemoryLink(plan, n, i) ==>
         plan.g.next[n][i].name in names
  }

  /** No node of the graph has lost an input, only the pointer. */
  ghost predicate PreviousFit(plan: Plan)
    reads plan.g.nodes
  {
    forall t {:trigger t.previousNodes} :: t in plan.g.nodes ==> |t.previousNodes| == |plan.g.previous[t]|
  }

  ghost predicate Linked(plan: Plan, n: QueryNode, limit: nat, next: seq<QueryNode?>, names: set<string>)
    requires InPlan(plan, n)
  {
    OutputsLinked(plan, n, limit, next) && TargetsReady(plan, n, limit, names)
  }

  lemma LinkStep(plan: Plan, n: QueryNode, i: nat, names: set<string>, names': set<string>, next: seq<QueryNode?>)
    requires InPlan(plan, n) && i < |plan.g.next[n]|
    requires OutputsLinked(plan, n, i, next) && TargetsReady(plan, n, i, names)
    requires names <= names' && (next[i] != null ==> next[i].name in names')
    ensures TargetsReady(plan, n, i + 1, names')
    ensures next[i] == null || next[i] in plan.homes[n] ==> OutputsLinked(plan, n, i + 1, next)
    ensures next[i] != null && next[i] !in plan.homes[n] ==> OutputsLinked(plan, n, i + 1, next[i := null])
    ensures next[i] != null ==> next[i] == plan.g.next[n][i]
  {
  }

  /** A pointer that is left leads to a node that has not run. */
  lemma LinkAt(plan: Plan, done: set<QueryNode>, n: QueryNode, i: nat)
    requires InPlan(plan, n) && i < |plan.g.next[n]| && TargetsPending(plan, done, n) && PreviousFit(plan)
    requires OutputsLinked(plan, n, i, n.nextNodes)
    ensures |n.nextNodes| == |plan.g.next[n]|
    ensures n.nextNodes[i] != null ==>
              var t := plan.g.next[n][i];
              && n.nextNodes[i] == t && t in plan.g.nodes && t in plan.g.previous && t !in done
              && |t.previousNodes| == |plan.g.previous[t]|
  {
  }

  method LinkOutput(node: QueryNode, i: nat, nodes: seq<QueryNode>, store: Store, sizes: Sizes,
                    ghost filled: iset<Place>, ghost plan: Plan, ghost done: set<QueryNode>, ghost before: SizeTable)
    requires InPlan(plan, node) && plan.homes[node] == nodes && i < |plan.g.next[node]|
    requires TargetsPending(plan, done, node) && PreviousFit(plan)
    requires Prepared(store, filled, plan, done) && Linked(plan, node, i, node.nextNodes, store.inputs.Keys)
    requires InputsInStep(before, store.inputs, sizes.inputs)
    modifies store`inputs, sizes`inputs, node`nextNodes
    ensures Prepared(store, filled, plan, done) && Linked(plan, node, i + 1, node.nextNodes, store.inputs.Keys)
    ensures InputsInStep(before, store.inputs, sizes.inputs) && old(store.inputs).Keys <= store.inputs.Keys
  {
    hide InputsInStep, Prepared, TargetsReady, OutputsLinked, TargetsPending, PreviousFit, WellFormed;
    LinkAt(plan, done, node, i);
    var next := node.nextNodes[i];
    if next != null {
      EnsureInputs(next, store, sizes, filled, plan, done, before);
    }
    LinkStep(plan, node, i, old(store.inputs).Keys, store.inputs.Keys, node.nextNodes);
    if next != null && next !in nodes {
      node.nextNodes := node.nextNodes[i := null];
    }
  }

  method LinkOutputs(node: QueryNode, nodes: seq<QueryNode>, store: Store, sizes: Sizes, ghost filled: iset<Place>,
                     ghost plan: Plan, ghost done: set<QueryNode>, ghost before: SizeTable)
    requires InPlan(plan, node) && plan.homes[node] == nodes
    requires TargetsPending(plan, done, node) && PreviousFit(plan)
    requires Prepared(store, filled, plan, done) && Linked(plan, node, 0, node.nextNodes, store.inputs.Keys)
    requires InputsInStep(before, store.inputs, sizes.inputs)
    modifies store`inputs, sizes`inputs, node`nextNodes
    ensures Prepared(store, filled, plan, done)
    ensures Linked(plan, node, |plan.g.next[node]|, node.nextNodes, store.inputs.Keys)
    ensures InputsInStep(before, store.inputs, sizes.inputs) && old(store.inputs).Keys <= store.inputs.Keys
  {
    hide Prepared, InputsInStep, TargetsPending, TargetsReady;
    for i := 0 to |node.nextNodes|
      invariant Prepared(store, filled, plan, done) && Linked(plan, node, i, node.nextNodes, store.inputs.Keys)
      invariant InputsInStep(before, store.inputs, sizes.inputs) && old(store.inputs).Keys <= store.inputs.Keys
    {
      LinkOutput(node, i, nodes, store, sizes, filled, plan, done, before);
    }
  }

  /** The vectors of outputs belong to the first `k` nodes of the run. */
  ghost predicate OutputsShaped(plan: Plan, nodes: seq<QueryNode>, k: nat, outputs: BlockTable)
  {
    forall j {:trigger nodes[j]} :: 0 <= j < |nodes| ==>
      if j < k then nodes[j] in plan.g.nodes && nodes[j].name in outputs
           && |outputs[nodes[j].name]| == |plan.g.next[nodes[j]]|
      else nodes[j].name !in outputs
  }

  /** The vectors of output sizes, one slot per input, are still those of the first `k` nodes, and zero. */
  ghost predicate SizesShaped(plan: Plan, nodes: seq<QueryNode>, k: nat, outputs: SizeTable)
  {
    forall j {:trigger nodes[j]} :: 0 <= j < |nodes| ==>
      if j < k then nodes[j] in plan.g.nodes && nodes[j].name in outputs
           && outputs[nodes[j].name] == Zeros(|plan.g.previous[nodes[j]]|)
      else nodes[j].name !in outputs
  }

  lemma SizesAdded(plan: Plan, done: set<QueryNode>, nodes: seq<QueryNode>, k: nat, outputs: SizeTable)
    requires NextRun(plan, done, nodes) && k < |nodes| && nodes[k] in plan.g.nodes
    requires SizesShaped(plan, nodes, k, outputs)
    ensures SizesShaped(plan, nodes, k + 1, outputs[nodes[k].name := Zeros(|plan.g.previous[nodes[k]]|)])
  {
    assert Satisfies(plan.g, NamesAreUnique) && NameIsOwn(plan.g.nodes, nodes[k]);
    assert forall j :: 0 <= j < |nodes| ==> nodes[j] in nodes && InPlan(plan, nodes[j]);
  }

  ghost function LinkLimit(plan: Plan, nodes: seq<QueryNode>, k: nat, j: nat): nat
    requires j < |nodes| && InPlan(plan, nodes[j])
  {
    if j < k then |plan.g.next[nodes[j]]| else 0
  }

  /** The consumers the nodes still point to. */
  ghost function Pointers(nodes: seq<QueryNode>): map<QueryNode, seq<QueryNode?>>
    reads nodes
  {
    map n | n in nodes :: n.nextNodes
  }

  /** The first `k` nodes have their vectors and have lost the pointers that lead out of the run. */
  ghost predicate Initialised(plan: Plan, nodes: seq<QueryNode>, k: nat, next: map<QueryNode, seq<QueryNode?>>,
                              names: set<string>, outputs: BlockTable)
  {
    && OutputsShaped(plan, nodes, k, outputs)
    && forall j {:trigger nodes[j]} :: 0 <= j < |nodes| ==>
         && InPlan(plan, nodes[j]) && nodes[j] in next
         && (j < k ==> nodes[j].name in names)
         && Linked(plan, nodes[j], LinkLimit(plan, nodes, k, j), next[nodes[j]], names)
  }

  lemma StaysLinked(plan: Plan, n: QueryNode, limit: nat, next: seq<QueryNode?>, names: set<string>,
                    names': set<string>)
    requires InPlan(plan, n) && Linked(plan, n, limit, next, names) && names <= names'
    ensures Linked(plan, n, limit, next, names')
  {
  }

  lemma OutputsAdded(plan: Plan, done: set<QueryNode>, nodes: seq<QueryNode>, k: nat, outputs: BlockTable,
                     vector: seq<MemoryBlock?>)
    requires NextRun(plan, done, nodes) && k < |nodes| && nodes[k] in plan.g.nodes
    requires OutputsShaped(plan, nodes, k, outputs) && |vector| == |plan.g.next[nodes[k]]|
    ensures OutputsShaped(plan, nodes, k + 1, outputs[nodes[k].name := vector])
  {
    assert Satisfies(plan.g, NamesAreUnique) && NameIsOwn(plan.g.nodes, nodes[k]);
    assert forall j :: 0 <= j < |nodes| ==> nodes[j] in nodes && InPlan(plan, nodes[j]);
  }

  lemma OneMoreInitialised(plan: Plan, done: set<QueryNode>, nodes: seq<QueryNode>, k: nat,
                           next: map<QueryNode, seq<QueryNode?>>, names: set<string>, names': set<string>,
                           outputs: BlockTable, node: QueryNode, links: seq<QueryNode?>, vector: seq<MemoryBlock?>)
    requires NextRun(plan, done, nodes) && k < |nodes| && nodes[k] == node && InPlan(plan, node)
    requires Initialised(plan, nodes, k, next, names, outputs) && names + {node.name} <= names'
    requires Linked(plan, node, |plan.g.next[node]|, links, names') && |vector| == |plan.g.next[node]|
    ensures Initialised(plan, nodes, k + 1, next[node := links], names', outputs[node.name := vector])
  {
    OutputsAdded(plan, done, nodes, k, outputs, vector);
    forall j | 0 <= j < |nodes|
      ensures InPlan(plan, nodes[j])
      ensures Linked(plan, nodes[j], LinkLimit(plan, nodes, k + 1, j), next[node := links][nodes[j]], names')
    {
      if j != k {
        StaysLinked(plan, nodes[j], LinkLimit(plan, nodes, k, j), next[nodes[j]], names, names');
      }
    }
  }

  method GiveVectors(node: QueryNode, store: Store, sizes: Sizes, ghost filled: iset<Place>, ghost plan: Plan,
                     ghost done: set<QueryNode>, ghost before: SizeTable)
    requires node in plan.g.nodes && node !in done && |node.previousNodes| == |plan.g.previous[node]|
    requires Prepared(store, filled, plan, done) && InputsInStep(before, store.inputs, sizes.inputs)
    requires node.name !in store.outputs && node.name !in sizes.outputs
    modifies store`inputs, store`outputs, sizes`inputs, sizes`outputs
    ensures Prepared(store, filled, plan, done) && store.inputs.Keys == old(store.inputs).Keys + {node.name}
    ensures store.outputs == old(store.outputs)[node.name := seq(|node.nextNodes|, _ => null)]
    ensures InputsInStep(before, store.inputs, sizes.inputs)
    ensures sizes.outputs == old(sizes.outputs)[node.name := Zeros(|plan.g.previous[node]|)]
  {
    hide Holds, InputsShaped, InputsInStep;
    EnsureInputs(node, store, sizes, filled, plan, done, before);
    EnsureOutputBlocks(node.name, |node.nextNodes|, store, filled);
    sizes.outputs := WithVector(sizes.outputs, node.name, |node.previousNodes|);
  }

  /** Gives the node and its consumers their vectors, and drops the pointers that lead out of the run. */
  method InitialiseNode(node: QueryNode, nodes: seq<QueryNode>, store: Store, sizes: Sizes, ghost filled: iset<Place>,
                        ghost plan: Plan, ghost done: set<QueryNode>, ghost before: SizeTable)
    requires InPlan(plan, node) && node !in done && plan.homes[node] == nodes
    requires TargetsPending(plan, done, node) && PreviousFit(plan)
    requires node.name !in store.outputs && node.name !in sizes.outputs
    requires Prepared(store, filled, plan, done) && Linked(plan, node, 0, node.nextNodes, store.inputs.Keys)
    requires InputsInStep(before, store.inputs, sizes.inputs)
    modifies store`inputs, store`outputs, sizes`inputs, sizes`outputs, node`nextNodes
    ensures Prepared(store, filled, plan, done)
    ensures Linked(plan, node, |plan.g.next[node]|, node.nextNodes, store.inputs.Keys)
    ensures old(store.inputs).Keys + {node.name} <= store.inputs.Keys
    ensures store.outputs == old(store.outputs)[node.name := seq(|plan.g.next[node]|, _ => null)]
    ensures InputsInStep(before, store.inputs, sizes.inputs)
    ensures sizes.outputs == old(sizes.outputs)[node.name := Zeros(|plan.g.previous[node]|)]
  {
    hide Prepared, InputsInStep, TargetsPending;
    GiveVectors(node, store, sizes, filled, plan, done, before);
    StaysLinked(plan, node, 0, node.nextNodes, old(store.inputs).Keys, store.inputs.Keys);
    LinkOutputs(node, nodes, store, sizes, filled, plan, done, before);
  }

  method InitialiseNext(k: nat, nodes: seq<QueryNode>, store: Store, sizes: Sizes, ghost filled: iset<Place>,
                        ghost plan: Plan, ghost done: set<QueryNode>, ghost before: SizeTable)
    requires done <= plan.g.nodes && NextRun(plan, done, nodes) && PreviousFit(plan) && k < |nodes|
    requires Prepared(store, filled, plan, done) && InputsInStep(before, store.inputs, sizes.inputs)
    requires Initialised(plan, nodes, k, Pointers(nodes), store.inputs.Keys, store.outputs)
    requires SizesShaped(plan, nodes, k, sizes.outputs)
    modifies store`inputs, store`outputs, sizes`inputs, sizes`outputs, nodes`nextNodes
    ensures Prepared(store, filled, plan, done) && InputsInStep(before, store.inputs, sizes.inputs)
    ensures Initialised(plan, nodes, k + 1, Pointers(nodes), store.inputs.Keys, store.outputs)
    ensures SizesShaped(plan, nodes, k + 1, sizes.outputs)
  {
    hide Prepared, InputsInStep, Linked;
    var node := nodes[k];
    assert node in nodes && InPlan(plan, node);
    ghost var was := Pointers(nodes);
    InitialiseNode(node, nodes, store, sizes, filled, plan, done, before);
    OneMoreInitialised(plan, done, nodes, k, was, old(store.inputs).Keys, store.inputs.Keys, old(store.outputs), node,
                       node.nextNodes, seq(|plan.g.next[node]|, _ => null));
    SizesAdded(plan, done, nodes, k, old(sizes.outputs));
    assert Pointers(nodes) == was[node := node.nextNodes];
  }

  method InitialiseVectorSizes(nodes: seq<QueryNode>, store: Store, sizes: Sizes, ghost filled: iset<Place>,
                               ghost plan: Plan, ghost done: set<QueryNode>)
    requires done <= plan.g.nodes && NextRun(plan, done, nodes) && PreviousFit(plan)
    requires Prepared(store, filled, plan, done) && InStep(store.inputs, sizes.inputs)
    requires Initialised(plan, nodes, 0, Pointers(nodes), store.inputs.Keys, store.outputs)
    requires SizesShaped(plan, nodes, 0, sizes.outputs)
    modifies store`inputs, store`outputs, sizes`inputs, sizes`outputs, nodes`nextNodes
    ensures Prepared(store, filled, plan, done) && InputsInStep(old(sizes.inputs), store.inputs, sizes.inputs)
    ensures Initialised(plan, nodes, |nodes|, Pointers(nodes), store.inputs.Keys, store.outputs)
    ensures SizesShaped(plan, nodes, |nodes|, sizes.outputs)
  {
    hide Prepared, Initialised, SizesShaped, InStep, WellFormed, NextRun;
    for k := 0 to |nodes|
      invariant Prepared(store, filled, plan, done) && InputsInStep(old(sizes.inputs), store.inputs, sizes.inputs)
      invariant Initialised(plan, nodes, k, Pointers(nodes), store.inputs.Keys, store.outputs)
      invariant SizesShaped(plan, nodes, k, sizes.outputs)
    {
      InitialiseNext(k, nodes, store, sizes, filled, plan, done, old(sizes.inputs));
    }
  }
}
