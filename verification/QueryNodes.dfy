/** Query nodes, the graph they form, and the vocabulary for talking about that graph before it is cut into runs. */
module QueryNodes {
  import opened QueryOperations
  import opened Sequences
  import opened AccelerationConstants

  class QueryNode {
    const name: string
    const operationType: OperationType
    const inputStreamParameters: seq<seq<int>>
    const outputStreamParameters: seq<seq<int>>
    const operationParameters: seq<seq<int>>
    const isChecked: seq<bool>
    var inputFiles: seq<string>
    var outputFiles: seq<string>
    var nextNodes: seq<QueryNode?>
    var previousNodes: seq<QueryNode?>
    var moduleLocation: int

    constructor (input: seq<string>, output: seq<string>, operation: OperationType, next: seq<QueryNode?>,
                 previous: seq<QueryNode?>, inputParameters: seq<seq<int>>, outputParameters: seq<seq<int>>,
                 parameters: seq<seq<int>>, name: string, checks: seq<bool>)
      ensures inputFiles == input && outputFiles == output && operationType == operation
      ensures nextNodes == next && previousNodes == previous && moduleLocation == -1
      ensures inputStreamParameters == inputParameters && outputStreamParameters == outputParameters
      ensures operationParameters == parameters && this.name == name && isChecked == checks
    {
      inputFiles, outputFiles, operationType := input, output, operation;
      nextNodes, previousNodes, moduleLocation := next, previous, -1;
      inputStreamParameters, outputStreamParameters := inputParameters, outputParameters;
      operationParameters, isChecked := parameters, checks;
      this.name := name;
    }

    /** Nodes are compared by value, field by field. */
    predicate SameValue(other: QueryNode)
      reads this, other
    {
      && previousNodes == other.previousNodes
      && inputFiles == other.inputFiles
      && outputFiles == other.outputFiles
      && operationType == other.operationType
      && nextNodes == other.nextNodes
      && inputStreamParameters == other.inputStreamParameters
      && outputStreamParameters == other.outputStreamParameters
      && operationParameters == other.operationParameters
      && moduleLocation == other.moduleLocation
      && name == other.name
      && isChecked == other.isChecked
    }
  }

  /** The nodes and their links and files, as they were before scheduling. */
  datatype Graph = Graph(nodes: set<QueryNode>,
                         next: map<QueryNode, seq<QueryNode?>>, previous: map<QueryNode, seq<QueryNode?>>,
                         inputs: map<QueryNode, seq<string>>, outputs: map<QueryNode, seq<string>>)

  ghost function Snapshot(nodes: set<QueryNode>): Graph
    reads nodes
  {
    Graph(nodes,
          map n | n in nodes :: n.nextNodes,
          map n | n in nodes :: n.previousNodes,
          map n | n in nodes :: n.inputFiles,
          map n | n in nodes :: n.outputFiles)
  }

  /** No other node has the name of `a`. */
  ghost predicate NameIsOwn(nodes: set<QueryNode>, a: QueryNode) {
    forall b :: b in nodes && a.name == b.name ==> a == b
  }

  ghost predicate UniqueNames(nodes: set<QueryNode>) {
    forall a {:trigger NameIsOwn(nodes, a)} :: a in nodes ==> NameIsOwn(nodes, a)
  }

  /** What is assumed of a graph beyond its shape; of these, the input handling only sees to the names. */
  datatype GraphRule = NamesAreUnique | LinkEndsAgree | NoParallelLinks

  ghost predicate Satisfies(g: Graph, rule: GraphRule)
    requires HasShape(g)
  {
    match rule
    case NamesAreUnique => UniqueNames(g.nodes)
    case LinkEndsAgree =>
      forall p, c {:trigger c in g.next[p]} {:trigger p in g.previous[c]} ::
        p in g.nodes && c in g.nodes ==> (c in g.next[p] <==> p in g.previous[c])
    case NoParallelLinks => forall n :: n in g.nodes ==> NoRepeatedLink(g.next[n]) && NoRepeatedLink(g.previous[n])
  }

  /** The node linked at position `i` is not linked at any other. */
  ghost predicate LinkIsOwn(links: seq<QueryNode?>, i: int)
    requires 0 <= i < |links|
  {
    forall j :: 0 <= j < |links| && j != i && links[i] != null ==> links[i] != links[j]
  }

  ghost predicate NoRepeatedLink(links: seq<QueryNode?>) {
    forall i {:trigger LinkIsOwn(links, i)} :: 0 <= i < |links| ==> LinkIsOwn(links, i)
  }

  /** Links lead to nodes of the graph. That every output and every input has a file entry is assumed as well. */
  ghost predicate HasShape(g: Graph) {
    && g.next.Keys == g.previous.Keys == g.inputs.Keys == g.outputs.Keys == g.nodes
    && (forall n, i :: n in g.nodes && 0 <= i < |g.next[n]| && g.next[n][i] != null ==> g.next[n][i] in g.nodes)
    && (forall n, i :: n in g.nodes && 0 <= i < |g.previous[n]| && g.previous[n][i] != null ==>
          g.previous[n][i] in g.nodes)
    && (forall n :: n in g.nodes ==> |g.outputs[n]| == |g.next[n]| && |g.previous[n]| <= |g.inputs[n]|)
  }

  ghost predicate WellFormed(g: Graph) {
    && HasShape(g)
    && forall rule :: Satisfies(g, rule)
  }

  /** The graphs that have the shape and satisfy all rules. */
  type QueryGraph = g: Graph | WellFormed(g) ghost witness Graph({}, map[], map[], map[], map[])

  /** The stream parameters FindMinPosition reads for the link from `producer` to input `i` of `consumer` exist. */
  ghost predicate LinkParametersExist(g: Graph, producer: QueryNode, consumer: QueryNode, i: nat)
    requires producer in g.next
  {
    var o := IndexOf<QueryNode?>(g.next[producer], consumer) * STREAM_PARAM_COUNT + PROJECTION_OFFSET;
    var c := i * STREAM_PARAM_COUNT + PROJECTION_OFFSET;
    && o < |producer.outputStreamParameters|
    && (producer.outputStreamParameters[o] == [] ==>
          && c < |consumer.inputStreamParameters|
          && (consumer.inputStreamParameters[c] == [] ==> i < |producer.isChecked|))
  }

  ghost predicate ParametersExist(g: Graph)
    requires HasShape(g)
  {
    forall n, i :: n in g.nodes && 0 <= i < |g.previous[n]| && g.previous[n][i] != null
                   && n.operationType != PassThrough && g.previous[n][i].operationType != PassThrough
                   ==> LinkParametersExist(g, g.previous[n][i], n, i)
  }

  /** Every predecessor of `n` is among `scheduled`. */
  ghost predicate Ready(g: Graph, scheduled: seq<QueryNode>, n: QueryNode)
    requires n in g.previous
  {
    forall p: QueryNode :: p in g.previous[n] ==> p in scheduled
  }

  /** `order` repeats no node and lists every node after its predecessors. */
  ghost predicate TopologicalOrder(g: Graph, order: seq<QueryNode>)
    requires g.previous.Keys == g.nodes
  {
    && NoDuplicates(order)
    && (forall n :: n in order ==> n in g.nodes)
    && forall i :: 0 <= i < |order| ==> Ready(g, order[..i], order[i])
  }

  /** A node of `s` without predecessor in `s`. */
  ghost predicate IsSource(g: Graph, s: set<QueryNode>, n: QueryNode) {
    n in s && n in g.previous && forall p: QueryNode :: p in g.previous[n] ==> p !in s
  }

  /** Every non-empty set of nodes has a source: there is no cycle. */
  ghost predicate Acyclic(g: Graph) {
    forall s: set<QueryNode> :: s <= g.nodes && s != {} ==> exists n :: n in s && IsSource(g, s, n)
  }
}
