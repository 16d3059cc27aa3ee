/** What the node scheduler promises of a run and of a whole schedule, stated over the graph before it was cut. */
module SchedulingModel {
  import opened QueryOperations
  import opened Sequences
  import opened AccelerationConstants
  import opened QueryNodes
  import opened Placement

  /** One run: the modules of its bitstream, and the nodes executed with it. */
  datatype Run = Run(modules: ModulesVector, nodes: seq<QueryNode>)

  /** The accelerator library and the module library the scheduler consults. */
  datatype Libraries = Libraries(bitstreams: map<ModulesVector, string>, modules: ModuleLibrary)

  function ModuleTypes(modules: ModulesVector): (types: seq<OperationType>) {
    seq(|modules|, i requires 0 <= i < |modules| => modules[i].operationType)
  }

  /** The types of the nodes that need a module: pass-through nodes do not. */
  ghost function NodeTypes(nodes: seq<QueryNode>): seq<OperationType> {
    if nodes == [] then []
    else NodeTypes(nodes[..|nodes| - 1]) +
         (if nodes[|nodes| - 1].operationType == PassThrough then [] else [nodes[|nodes| - 1].operationType])
  }

  /** The modules are a library key, and there is one module of its type for every node that needs one. */
  ghost predicate RunSound(bitstreams: map<ModulesVector, string>, run: Run) {
    && (run.modules == [] <==> run.nodes == [])
    && (run.modules != [] ==> run.modules in bitstreams)
    && multiset(ModuleTypes(run.modules)) == multiset(NodeTypes(run.nodes))
  }

  ghost predicate DistinctTypes(nodes: seq<QueryNode>) {
    forall i, j :: 0 <= i < j < |nodes| && nodes[i].operationType != PassThrough
                   ==> nodes[i].operationType != nodes[j].operationType
  }

  /** All modules of type `first` come before all modules of type `second`. */
  ghost predicate Before(modules: ModulesVector, first: OperationType, second: OperationType) {
    forall i, j :: 0 <= i < |modules| && 0 <= j < |modules| &&
                   modules[i].operationType == first && modules[j].operationType == second
                   ==> i < j
  }

  /** A link between two nodes that have modules of their own. */
  ghost predicate ModuleLink(g: Graph, p: QueryNode, c: QueryNode) {
    && c in g.previous && p in g.previous[c]
    && p.operationType != PassThrough && c.operationType != PassThrough
  }

  /** A consumer's module comes after its producer's, for every link inside the run. */
  ghost predicate PipelineOrdered(g: Graph, run: Run) {
    DistinctTypes(run.nodes) ==>
      forall p, c :: p in run.nodes && c in run.nodes && ModuleLink(g, p, c) ==>
        Before(run.modules, p.operationType, c.operationType)
  }

  /** Input `i` of `n` comes from a node of the current run that has a module of its own. */
  ghost predicate FedByModule(g: Graph, current: seq<QueryNode>, n: QueryNode, i: int)
    requires n in g.previous
  {
    && 0 <= i < |g.previous[n]| && g.previous[n][i] != null
    && g.previous[n][i] in current && g.previous[n][i].operationType != PassThrough
  }

  /** The stream on the link asks for a projection or for its results to be checked, so it must leave the FPGA. */
  ghost predicate LinkNeedsMemory(g: Graph, n: QueryNode, i: nat)
    requires n in g.previous && i < |g.previous[n]| && g.previous[n][i] != null
  {
    var producer := g.previous[n][i];
    && producer in g.next
    && var o := IndexOf<QueryNode?>(g.next[producer], n) * STREAM_PARAM_COUNT + PROJECTION_OFFSET;
    && var c := i * STREAM_PARAM_COUNT + PROJECTION_OFFSET;
    || (o < |producer.outputStreamParameters| && producer.outputStreamParameters[o] != [])
    || (c < |n.inputStreamParameters| && n.inputStreamParameters[c] != [])
    || (i < |producer.isChecked| && producer.isChecked[i])
  }

  /** Some input of `n` comes from the current run, but may not be passed on inside it. */
  ghost predicate Blocked(g: Graph, current: seq<QueryNode>, n: QueryNode)
    requires n in g.previous
  {
    exists i :: FedByModule(g, current, n, i) && LinkNeedsMemory(g, n, i)
  }

  /** `position` lies after the first module of the type of every producer of `n` in the current run. */
  ghost predicate AfterProducers(g: Graph, current: seq<QueryNode>, modules: ModulesVector, n: QueryNode, position: int)
    requires n in g.previous
  {
    forall i :: FedByModule(g, current, n, i) ==>
      IndexOf(ModuleTypes(modules), g.previous[n][i].operationType) < position
  }

  /** The node could still join the run: the condition under which the scheduler takes it. */
  ghost predicate CanJoin(g: Graph, libraries: Libraries, run: Run, n: QueryNode)
    requires n in g.previous
  {
    if n.operationType == PassThrough then run.modules != [] else
    && n.operationType in libraries.modules
    && !Blocked(g, run.nodes, n)
    && exists position, parameters ::
         && 0 <= position <= |run.modules|
         && AfterProducers(g, run.nodes, run.modules, n, position)
         && Candidate(libraries.modules[n.operationType], parameters)
         && Supports(libraries.bitstreams, run.modules, position, n.operationType, parameters)
  }

  /** The unscheduled nodes whose predecessors are all scheduled. */
  ghost predicate IsFrontier(g: Graph, scheduled: seq<QueryNode>, starting: seq<QueryNode>)
    requires g.previous.Keys == g.nodes
  {
    && NoDuplicates(starting)
    && (forall n :: n in starting ==> n in g.nodes)
    && forall n {:trigger n in starting} {:trigger Ready(g, scheduled, n)} ::
         n in g.nodes ==> (n in starting <==> n !in scheduled && Ready(g, scheduled, n))
  }

  /** No node that is ready when the run closes could have joined it. */
  ghost predicate Maximal(g: Graph, libraries: Libraries, scheduled: seq<QueryNode>, run: Run)
    requires g.previous.Keys == g.nodes
  {
    forall n :: n in g.nodes && n !in scheduled && Ready(g, scheduled, n) ==> !CanJoin(g, libraries, run, n)
  }

  ghost function ScheduledNodes(runs: seq<Run>): seq<QueryNode> {
    if runs == [] then [] else ScheduledNodes(runs[..|runs| - 1]) + runs[|runs| - 1].nodes
  }

  /** Something is ready, but nothing can open a run: not even with the library's modules all free. */
  ghost predicate CannotStart(g: Graph, libraries: Libraries, scheduled: seq<QueryNode>)
    requires g.previous.Keys == g.nodes
  {
    && (exists n :: n in g.nodes && n !in scheduled && Ready(g, scheduled, n))
    && Maximal(g, libraries, scheduled, Run([], []))
  }

  /** The set holds all predecessors of the node. */
  ghost predicate HasPredecessors(g: Graph, s: set<QueryNode>, n: QueryNode) {
    n in g.previous && forall p: QueryNode :: p in g.previous[n] ==> p in s
  }

  /** Once the nodes of `s` have been scheduled, `n` is ready, but the library has no module of its type. */
  ghost predicate UnknownIsReady(g: Graph, libraries: Libraries, done: seq<QueryNode>, s: set<QueryNode>,
                                 n: QueryNode) {
    && (forall m :: m in done ==> m in s) && (forall m :: m in s ==> HasPredecessors(g, s, m))
    && n !in s && HasPredecessors(g, s, n)
    && n.operationType != PassThrough && n.operationType !in libraries.modules
  }

  /** After `done`, scheduling comes to a node whose type the library does not have. */
  ghost predicate NeedsUnknownModule(g: Graph, libraries: Libraries, done: seq<QueryNode>) {
    exists s: set<QueryNode>, n :: s <= g.nodes && n in g.nodes && UnknownIsReady(g, libraries, done, s, n)
  }

  /**
   * The stream from output `o` of `p` to input `i` of `c` is passed on as it is: there is no projection at either end,
   * and nobody checks it.
   */
  ghost predicate PassedOnAsIs(p: QueryNode, o: nat, c: QueryNode, i: nat) {
    && 4 * o < |p.outputStreamParameters| && p.outputStreamParameters[4 * o] == []
    && 4 * i < |c.inputStreamParameters| && c.inputStreamParameters[4 * i] == []
    && i < |p.isChecked| && !p.isChecked[i]
  }

  /** Output `o` of `p` is linked to input `i` of `c`, and both nodes have a module. */
  ghost predicate IsModuleLink(g: Graph, p: QueryNode, o: nat, c: QueryNode, i: nat) {
    && p in g.next && c in g.previous && o < |g.next[p]| && i < |g.previous[c]|
    && g.next[p][o] == c && g.previous[c][i] == p
    && p.operationType != PassThrough && c.operationType != PassThrough
  }

  /** Whatever goes from module to module inside the run is passed on as it is. */
  ghost predicate LinksMayStay(g: Graph, nodes: seq<QueryNode>) {
    forall p, o: nat, c, i: nat {:trigger IsModuleLink(g, p, o, c, i)} ::
      p in nodes && c in nodes && IsModuleLink(g, p, o, c, i) ==> PassedOnAsIs(p, o, c, i)
  }

  /** A run as it is closed, when `scheduled` are all nodes scheduled so far. */
  ghost predicate RunClosed(g: Graph, libraries: Libraries, scheduled: seq<QueryNode>, run: Run)
    requires g.previous.Keys == g.nodes
  {
    && run.nodes != []
    && RunSound(libraries.bitstreams, run)
    && PipelineOrdered(g, run) && LinksMayStay(g, run.nodes)
    && Maximal(g, libraries, scheduled, run)
  }

  /**
   * Every run is sound, ordered and maximal, no stream in it has to leave the FPGA, and the runs together are a
   * topological order without repetition.
   */
  ghost predicate ValidSchedule(g: Graph, libraries: Libraries, runs: seq<Run>)
    requires g.previous.Keys == g.nodes
  {
    && TopologicalOrder(g, ScheduledNodes(runs))
    && forall k :: 0 <= k < |runs| ==> RunClosed(g, libraries, ScheduledNodes(runs[..k + 1]), runs[k])
  }

  lemma TypesOfInserted(modules: ModulesVector, position: nat, m: QueryOperation)
    requires position <= |modules|
    ensures ModuleTypes(Inserted(modules, position, m)) == Inserted(ModuleTypes(modules), position, m.operationType)
    ensures multiset(ModuleTypes(Inserted(modules, position, m))) ==
            multiset(ModuleTypes(modules)) + multiset{m.operationType}
  {
    var types := ModuleTypes(modules);
    assert ModuleTypes(Inserted(modules, position, m)) == Inserted(types, position, m.operationType);
    assert types == types[..position] + types[position..];
  }

  lemma {:induction false} NodeTypesMember(nodes: seq<QueryNode>, operation: OperationType)
    ensures operation in NodeTypes(nodes) <==>
            operation != PassThrough && exists n :: n in nodes && n.operationType == operation
  {
    if nodes != [] {
      var front, last := nodes[..|nodes| - 1], nodes[|nodes| - 1];
      NodeTypesMember(front, operation);
      assert nodes == front + [last];
      assert last in nodes;
    }
  }

  lemma {:induction false} DistinctTypesCount(nodes: seq<QueryNode>, operation: OperationType)
    requires DistinctTypes(nodes)
    ensures multiset(NodeTypes(nodes))[operation] <= 1
  {
    if nodes != [] {
      var front, last := nodes[..|nodes| - 1], nodes[|nodes| - 1];
      DistinctTypesCount(front, operation);
      assert nodes == front + [last];
      if last.operationType != PassThrough && last.operationType == operation {
        NodeTypesMember(front, operation);
      }
    }
  }

  lemma OccursTwice<T>(s: seq<T>, i: nat, j: nat)
    requires i < j < |s| && s[i] == s[j]
    ensures multiset(s)[s[i]] >= 2
  {
    assert s == s[..i] + [s[i]] + s[i + 1..j] + [s[j]] + s[j + 1..];
  }

  lemma BeforeInserted(modules: ModulesVector, position: nat, m: QueryOperation, first: OperationType,
                       second: OperationType)
    requires position <= |modules| && Before(modules, first, second)
    requires m.operationType != first && m.operationType != second
    ensures Before(Inserted(modules, position, m), first, second)
  {
  }

  /** A module of a new type, placed after the only module of type `first`, comes after it. */
  lemma BeforeNewModule(modules: ModulesVector, position: nat, m: QueryOperation, first: OperationType)
    requires position <= |modules|
    requires m.operationType != first && m.operationType !in ModuleTypes(modules)
    requires multiset(ModuleTypes(modules))[first] <= 1
    requires IndexOf(ModuleTypes(modules), first) < position
    ensures Before(Inserted(modules, position, m), first, m.operationType)
  {
    var longer, types := Inserted(modules, position, m), ModuleTypes(modules);
    forall i, j | 0 <= i < |longer| && 0 <= j < |longer|
                  && longer[i].operationType == first && longer[j].operationType == m.operationType
      ensures i < j
    {
      assert forall k :: 0 <= k < |longer| && k != position
                         ==> longer[k].operationType == types[if k < position then k else k - 1] != m.operationType;
      assert j == position;
      if i > position {
        OccursTwice(types, IndexOf(types, first), i - 1);
      }
    }
  }

  /** Adding a module for `n` anywhere after its producers keeps the pipeline in order. */
  lemma InsertionKeepsOrder(g: Graph, bitstreams: map<ModulesVector, string>, run: Run, n: QueryNode, position: nat,
                            m: QueryOperation)
    requires n in g.previous
    requires RunSound(bitstreams, run) && PipelineOrdered(g, run)
    requires forall c :: c in run.nodes ==> c != n && c in g.previous && n !in g.previous[c]
    requires n !in g.previous[n]
    requires n.operationType != PassThrough && m.operationType == n.operationType
    requires position <= |run.modules| && AfterProducers(g, run.nodes, run.modules, n, position)
    ensures PipelineOrdered(g, Run(Inserted(run.modules, position, m), run.nodes + [n]))
  {
    var nodes, types := run.nodes + [n], ModuleTypes(run.modules);
    if DistinctTypes(nodes) {
      DistinctTypesOfPrefix(run.nodes, n);
      assert n.operationType !in multiset(NodeTypes(run.nodes));
      assert n.operationType !in multiset(types);
      forall p, c | p in nodes && c in nodes && ModuleLink(g, p, c)
        ensures Before(Inserted(run.modules, position, m), p.operationType, c.operationType)
      {
        assert p in run.nodes;
        DistinctTypesCount(run.nodes, p.operationType);
        NodeTypesMember(run.nodes, p.operationType);
        assert p.operationType in multiset(NodeTypes(run.nodes));
        if c == n {
          var k :| 0 <= k < |g.previous[n]| && g.previous[n][k] == p;
          assert FedByModule(g, run.nodes, n, k);
          BeforeNewModule(run.modules, position, m, p.operationType);
        } else {
          NodeTypesMember(run.nodes, c.operationType);
          BeforeInserted(run.modules, position, m, p.operationType, c.operationType);
        }
      }
    }
  }

  /** A link on its own: the inputs it connects are where the scheduler looks for them. */
  lemma LinkIsFound(g: QueryGraph, p: QueryNode, o: nat, c: QueryNode, i: nat)
    requires IsModuleLink(g, p, o, c, i)
    ensures p in g.nodes && c in g.nodes && IndexOf<QueryNode?>(g.next[p], c) == o
  {
    assert Satisfies(g, NoParallelLinks) && NoRepeatedLink(g.next[p]);
    assert LinkIsOwn(g.next[p], o) && c in g.next[p];
  }

  /** All parameters that are looked at for the streams from modules of the run are there. */
  ghost predicate LinksReadable(g: Graph, current: seq<QueryNode>, n: QueryNode)
    requires n in g.previous
  {
    forall i {:trigger FedByModule(g, current, n, i)} :: FedByModule(g, current, n, i) ==>
      g.previous[n][i] in g.next && LinkParametersExist(g, g.previous[n][i], n, i)
  }

  /** A node is blocked exactly if some stream it gets from a module of the run cannot be passed on as it is. */
  lemma BlockedIff(g: QueryGraph, current: seq<QueryNode>, n: QueryNode)
    requires n in g.nodes && n.operationType != PassThrough && LinksReadable(g, current, n)
    requires forall p :: p in current ==> p in g.nodes
    ensures Blocked(g, current, n) <==>
            exists p, o: nat, i: nat {:trigger IsModuleLink(g, p, o, n, i)} ::
              p in current && IsModuleLink(g, p, o, n, i) && !PassedOnAsIs(p, o, n, i)
  {
    forall p, o: nat, i: nat | p in current && IsModuleLink(g, p, o, n, i)
      ensures FedByModule(g, current, n, i) && g.previous[n][i] == p
      ensures LinkNeedsMemory(g, n, i) <==> !PassedOnAsIs(p, o, n, i)
    {
      LinkIsFound(g, p, o, n, i);
      assert FedByModule(g, current, n, i) && LinkParametersExist(g, p, n, i);
    }
    forall i | FedByModule(g, current, n, i)
      ensures exists o: nat :: IsModuleLink(g, g.previous[n][i], o, n, i)
    {
      var p := g.previous[n][i];
      assert p in g.previous[n] && Satisfies(g, LinkEndsAgree);
      assert IsModuleLink(g, p, IndexOf<QueryNode?>(g.next[p], n), n, i);
    }
  }

  /** A position is allowed exactly if a module of the type of every producer comes before it. */
  lemma AfterProducersIff(g: QueryGraph, current: seq<QueryNode>, modules: ModulesVector, n: QueryNode, position: nat)
    requires n in g.nodes && n.operationType != PassThrough && position <= |modules|
    requires forall p :: p in current ==> p in g.nodes
    ensures AfterProducers(g, current, modules, n, position) <==>
            forall p, o: nat, i: nat {:trigger IsModuleLink(g, p, o, n, i)} ::
              p in current && IsModuleLink(g, p, o, n, i) ==>
              exists k :: 0 <= k < position && modules[k].operationType == p.operationType
  {
    var types := ModuleTypes(modules);
    forall t: OperationType
      ensures IndexOf(types, t) < position <==> exists k :: 0 <= k < position && modules[k].operationType == t
    {
      assert forall k :: 0 <= k < |modules| ==> types[k] == modules[k].operationType;
    }
    forall i | FedByModule(g, current, n, i)
      ensures exists o: nat :: IsModuleLink(g, g.previous[n][i], o, n, i)
    {
      var p := g.previous[n][i];
      assert p in g.previous[n] && Satisfies(g, LinkEndsAgree);
      assert IsModuleLink(g, p, IndexOf<QueryNode?>(g.next[p], n), n, i);
    }
    assert forall p, o: nat, i: nat {:trigger IsModuleLink(g, p, o, n, i)} ::
        p in current && IsModuleLink(g, p, o, n, i) ==> FedByModule(g, current, n, i);
  }

  /** A node that is not blocked brings no stream into the run that could not stay there. */
  lemma UnblockedMayStay(g: QueryGraph, nodes: seq<QueryNode>, n: QueryNode)
    requires n in g.nodes && LinksMayStay(g, nodes)
    requires n.operationType == PassThrough || (!Blocked(g, nodes, n) && LinksReadable(g, nodes, n))
    requires forall c :: c in nodes ==> c in g.nodes && n !in g.previous[c]
    requires n !in g.previous[n]
    ensures LinksMayStay(g, nodes + [n])
  {
    if n.operationType != PassThrough {
      BlockedIff(g, nodes, n);
    }
    forall p, o: nat, c, i: nat | p in nodes + [n] && c in nodes + [n] && IsModuleLink(g, p, o, c, i)
      ensures PassedOnAsIs(p, o, c, i)
    {
      assert p in g.previous[c];
    }
  }

  lemma DistinctTypesOfPrefix(nodes: seq<QueryNode>, n: QueryNode)
    requires DistinctTypes(nodes + [n])
    ensures DistinctTypes(nodes)
    ensures n.operationType != PassThrough ==> n.operationType !in NodeTypes(nodes)
  {
    var longer := nodes + [n];
    assert forall i :: 0 <= i < |nodes| ==> longer[i] == nodes[i];
    assert longer[|nodes|] == n;
    NodeTypesMember(nodes, n.operationType);
  }

  /** A pass-through node takes no module, so it moves nothing. */
  lemma PassThroughKeepsOrder(g: Graph, run: Run, n: QueryNode)
    requires PipelineOrdered(g, run)
    requires n.operationType == PassThrough
    ensures PipelineOrdered(g, Run(run.modules, run.nodes + [n]))
    ensures NodeTypes(run.nodes + [n]) == NodeTypes(run.nodes)
  {
  }
}
