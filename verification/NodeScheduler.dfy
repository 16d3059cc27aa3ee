/** The greedy scheduler that partitions the query graph into runs. */
module NodeScheduler {
  import opened QueryOperations
  import opened Options
  import opened Sequences
  import opened AccelerationConstants
  import opened QueryNodes
  import opened Placement
  import opened SchedulingModel
  import opened ExternalLinks

  /** How scheduling can end: normally, with one of the two exceptions that can be thrown, or outside a vector. */
  datatype Status = Ok | FailedToSchedule | ParametersNotFound | ReadOutside

  /** The vectors the recursive scheduler takes by reference: it gets them and hands them back updated. */
  datatype Progress = Progress(starting: seq<QueryNode>, scheduled: seq<QueryNode>, run: Run)

  predicate IsNodeIncluded(nodes: seq<QueryNode>, searched: QueryNode)
    reads nodes, searched
  {
    exists i :: 0 <= i < |nodes| && nodes[i].SameValue(searched)
  }

  lemma IncludedIffMember(g: QueryGraph, nodes: seq<QueryNode>, searched: QueryNode)
    requires searched in g.nodes
    requires forall n :: n in nodes ==> n in g.nodes
    ensures IsNodeIncluded(nodes, searched) <==> searched in nodes
  {
    assert Satisfies(g, NamesAreUnique) && NameIsOwn(g.nodes, searched);
    if searched in nodes {
      var i :| 0 <= i < |nodes| && nodes[i] == searched;
      assert nodes[i].SameValue(searched);
    }
  }

  predicate IsNodeAvailable(scheduled: seq<QueryNode>, node: QueryNode)
    reads scheduled, node, node.previousNodes
  {
    forall i :: 0 <= i < |node.previousNodes| ==>
      var observed := node.previousNodes[i];
      observed != null ==> IsNodeIncluded(scheduled, observed)
  }

  lemma AvailableIffReady(g: QueryGraph, scheduled: seq<QueryNode>, node: QueryNode)
    requires node in g.nodes && node.previousNodes == g.previous[node]
    requires forall n :: n in scheduled ==> n in g.nodes
    ensures IsNodeAvailable(scheduled, node) <==> Ready(g, scheduled, node)
  {
    forall i | 0 <= i < |node.previousNodes| && node.previousNodes[i] != null
      ensures IsNodeIncluded(scheduled, node.previousNodes[i]) <==> node.previousNodes[i] in scheduled
    {
      IncludedIffMember(g, scheduled, node.previousNodes[i]);
    }
  }

  /** The links of all nodes outside `cut` are still those of the graph. */
  ghost predicate Uncut(g: Graph, cut: seq<QueryNode>)
    requires g.next.Keys == g.nodes && g.previous.Keys == g.nodes
    reads g.nodes
  {
    forall n :: n in g.nodes && n !in cut ==> n.nextNodes == g.next[n] && n.previousNodes == g.previous[n]
  }

  /** The first position of the node, or None where the source throws "No node found!". */
  method FindNextNodeLocation(nextNodes: seq<QueryNode?>, node: QueryNode) returns (location: Option<nat>)
    ensures location == if node in nextNodes then Some(IndexOf<QueryNode?>(nextNodes, node)) else None
  {
    var i := Find<QueryNode?>(nextNodes, node);
    location := if i < |nextNodes| then Some(i) else None;
  }

  /**
   * The lowest position input `i` of the node allows: -1 when its link may not stay inside the run. Nothing checks that
   * the parameters and the check flag are there.
   */
  method FindMinPositionForInput(node: QueryNode, i: nat, current: seq<QueryNode>, modules: ModulesVector,
                                 ghost g: QueryGraph)
    returns (readable: bool, minPosition: int)
    requires node in g.nodes && node.operationType != PassThrough
    requires node.previousNodes == g.previous[node] && i < |g.previous[node]|
    requires forall n :: n in current ==> n in g.nodes && n.nextNodes == g.next[n]
    ensures readable <==>
            (FedByModule(g, current, node, i) ==> LinkParametersExist(g, g.previous[node][i], node, i))
    ensures readable ==> minPosition == InputFloor(g, current, modules, node, i)
  {
    var observed := node.previousNodes[i];
    if observed != null {
      IncludedIffMember(g, current, observed);
      if IsNodeIncluded(current, observed) && observed.operationType != PassThrough {
        var location := FindNextNodeLocation(observed.nextNodes, node);
        assert observed in g.previous[node] && Satisfies(g, LinkEndsAgree);
        assert location.Some?;
        if !IsReadable(node, observed, i, location.value) {
          return false, 0;
        }
        if IsProjectionOperationDefined(node, observed, i, location.value) || observed.isChecked[i] {
          return true, -1;
        }
        var position := Find(ModuleTypes(modules), observed.operationType);
        return true, position + 1;
      }
    }
    return true, 0;
  }

  /** The vectors are long enough for what is looked at: the later ones only where the earlier are empty. */
  predicate IsReadable(node: QueryNode, previous: QueryNode, inputIndex: nat, outputIndex: nat) {
    && outputIndex * STREAM_PARAM_COUNT + PROJECTION_OFFSET < |previous.outputStreamParameters|
    && (previous.outputStreamParameters[outputIndex * STREAM_PARAM_COUNT + PROJECTION_OFFSET] == [] ==>
          && inputIndex * STREAM_PARAM_COUNT + PROJECTION_OFFSET < |node.inputStreamParameters|
          && (node.inputStreamParameters[inputIndex * STREAM_PARAM_COUNT + PROJECTION_OFFSET] == [] ==>
                inputIndex < |previous.isChecked|))
  }

  ghost function InputFloor(g: Graph, current: seq<QueryNode>, modules: ModulesVector, n: QueryNode,
                            i: nat): (floor: int)
    requires n in g.previous && i < |g.previous[n]|
    ensures -1 <= floor <= |modules| + 1
  {
    if !FedByModule(g, current, n, i) then 0
    else if LinkNeedsMemory(g, n, i) then -1
    else IndexOf(ModuleTypes(modules), g.previous[n][i].operationType) + 1
  }

  /** Some input makes the scheduler read outside a vector, before another one blocks the node. */
  ghost predicate ReadsOutside(g: Graph, current: seq<QueryNode>, n: QueryNode)
    requires n in g.previous
  {
    exists i :: ReadsOutsideAt(g, current, n, i)
  }

  ghost predicate ReadsOutsideAt(g: Graph, current: seq<QueryNode>, n: QueryNode, i: int)
    requires n in g.previous
  {
    && FedByModule(g, current, n, i) && g.previous[n][i] in g.next
    && !LinkParametersExist(g, g.previous[n][i], n, i)
    && forall j :: 0 <= j < i && FedByModule(g, current, n, j) ==> !LinkNeedsMemory(g, n, j)
  }

  method FindMinPosition(node: QueryNode, current: seq<QueryNode>, modules: ModulesVector, ghost g: QueryGraph)
    returns (readable: bool, minPosition: int)
    requires node in g.nodes && node.operationType != PassThrough
    requires node.previousNodes == g.previous[node]
    requires forall n :: n in current ==> n in g.nodes && n.nextNodes == g.next[n]
    requires forall n :: n in current && n.operationType != PassThrough ==> n.operationType in ModuleTypes(modules)
    ensures readable <==> !ReadsOutside(g, current, node)
    ensures readable ==> -1 <= minPosition <= |modules| && (minPosition == -1 <==> Blocked(g, current, node))
    ensures readable && minPosition != -1 ==>
              FirstAllowed(g, current, modules, node, minPosition) && LinksReadable(g, current, node)
  {
    minPosition := 0;
    for i := 0 to |node.previousNodes|
      invariant 0 <= minPosition <= |modules|
      invariant forall k :: 0 <= k < i ==> 0 <= InputFloor(g, current, modules, node, k) <= minPosition
      invariant forall k :: 0 <= k < i && FedByModule(g, current, node, k) ==>
                  !LinkNeedsMemory(g, node, k) && LinkParametersExist(g, g.previous[node][k], node, k)
      invariant minPosition == 0 || exists k :: 0 <= k < i && InputFloor(g, current, modules, node, k) == minPosition
    {
      var position;
      readable, position := FindMinPositionForInput(node, i, current, modules, g);
      if !readable {
        assert ReadsOutsideAt(g, current, node, i);
        return false, 0;
      }
      if position == -1 {
        assert FedByModule(g, current, node, i) && LinkNeedsMemory(g, node, i);
        return true, -1;
      }
      // The producer has a module, so "Something went wrong with scheduling!" cannot be thrown.
      assert position <= |modules|;
      if position > minPosition {
        minPosition := position;
      }
    }
    FloorIsFirstAllowed(g, current, modules, node, minPosition);
    readable := true;
  }

  lemma FloorIsFirstAllowed(g: Graph, current: seq<QueryNode>, modules: ModulesVector, n: QueryNode, floor: nat)
    requires n in g.previous
    requires forall k :: 0 <= k < |g.previous[n]| ==> 0 <= InputFloor(g, current, modules, n, k) <= floor
    requires floor == 0 || exists k :: 0 <= k < |g.previous[n]| && InputFloor(g, current, modules, n, k) == floor
    ensures !Blocked(g, current, n)
    ensures FirstAllowed(g, current, modules, n, floor)
  {
    forall i | FedByModule(g, current, n, i)
      ensures !LinkNeedsMemory(g, n, i)
      ensures IndexOf(ModuleTypes(modules),
                      g.previous[n][i].operationType) + 1 == InputFloor(g, current, modules, n, i) <= floor
    {
      assert 0 <= InputFloor(g, current, modules, n, i);
    }
    if floor > 0 {
      var k :| 0 <= k < |g.previous[n]| && InputFloor(g, current, modules, n, k) == floor;
      assert FedByModule(g, current, n, k);
    }
  }

  predicate IsProjectionOperationDefined(node: QueryNode, previous: QueryNode, inputIndex: nat, outputIndex: nat)
    requires outputIndex * STREAM_PARAM_COUNT + PROJECTION_OFFSET < |previous.outputStreamParameters|
    requires previous.outputStreamParameters[outputIndex * STREAM_PARAM_COUNT + PROJECTION_OFFSET] == [] ==>
               inputIndex * STREAM_PARAM_COUNT + PROJECTION_OFFSET < |node.inputStreamParameters|
  {
    previous.outputStreamParameters[outputIndex * STREAM_PARAM_COUNT + PROJECTION_OFFSET] != []
    || node.inputStreamParameters[inputIndex * STREAM_PARAM_COUNT + PROJECTION_OFFSET] != []
  }

  /** The positions after all producers are exactly those from `first` on. */
  ghost predicate FirstAllowed(g: Graph, current: seq<QueryNode>, modules: ModulesVector, n: QueryNode, first: int)
    requires n in g.previous
  {
    0 <= first && forall position: nat :: first <= position <==> AfterProducers(g, current, modules, n, position)
  }

  /** `r` is the best combination of modules with which `n` can join the run; its module comes at `location`. */
  ghost predicate SuitableFor(g: Graph, libraries: Libraries, run: Run, n: QueryNode, location: int, r: ModulesVector)
    requires n in g.previous
  {
    if n.operationType == PassThrough then r == run.modules else
    && n.operationType in libraries.modules
    && exists first :: FirstAllowed(g, run.nodes, run.modules, n, first) &&
         BestPlacement(libraries.bitstreams, run.modules, first, n.operationType,
                       libraries.modules[n.operationType], location, r)
  }

  /** Looks for modules with which the node can join the run. An empty vector means that there are none. */
  method FindSuitableModuleCombination(node: QueryNode, current: seq<QueryNode>, modules: ModulesVector,
                                       libraries: Libraries, ghost g: QueryGraph)
    returns (status: Status, r: ModulesVector)
    requires node in g.nodes
    requires node.previousNodes == g.previous[node]
    requires forall n :: n in current ==> n in g.nodes && n.nextNodes == g.next[n]
    requires forall n :: n in current && n.operationType != PassThrough ==> n.operationType in ModuleTypes(modules)
    modifies node`moduleLocation
    ensures status in {Ok, ParametersNotFound, ReadOutside}
    ensures status == ReadOutside <==> node.operationType != PassThrough && ReadsOutside(g, current, node)
    ensures status == ParametersNotFound <==>
            && node.operationType != PassThrough && node.operationType !in libraries.modules
            && !ReadsOutside(g, current, node) && !Blocked(g, current, node)
    ensures status == Ok ==> (r != [] <==> CanJoin(g, libraries, Run(modules, current), node))
    ensures status == Ok && r != [] ==> node.operationType == PassThrough || LinksReadable(g, current, node)
    ensures status == Ok && r != [] ==>
              SuitableFor(g, libraries, Run(modules, current), node, node.moduleLocation - 1, r)
    ensures status != Ok || r == [] || node.operationType == PassThrough ==>
         node.moduleLocation == old(node.moduleLocation)
  {
    if node.operationType == PassThrough {
      return Ok, modules;
    }
    var readable, first := FindMinPosition(node, current, modules, g);
    if !readable {
      return ReadOutside, [];
    }
    if first == -1 {
      return Ok, [];
    }
    if node.operationType !in libraries.modules {
      return ParametersNotFound, [];
    }
    var options := libraries.modules[node.operationType];
    var position;
    r, position := FindPlacement(node.operationType, first, modules, options, libraries.bitstreams);
    if r != [] {
      node.moduleLocation := position + 1;
    }
    JoinIffPlaced(g, libraries, Run(modules, current), node, first, position, r);
    return Ok, r;
  }

  /** The outcome of the search from the first allowed position decides whether the node can join the run. */
  lemma JoinIffPlaced(g: Graph, libraries: Libraries, run: Run, n: QueryNode, first: nat, position: nat,
                      r: ModulesVector)
    requires n in g.previous && n.operationType != PassThrough && n.operationType in libraries.modules
    requires !Blocked(g, run.nodes, n) && FirstAllowed(g, run.nodes, run.modules, n, first) && first <= |run.modules|
    requires r == [] ==> forall p :: first <= p <= |run.modules| ==>
               NoneSupported(libraries.bitstreams, run.modules, p, n.operationType, libraries.modules[n.operationType])
    requires r != [] ==> BestPlacement(libraries.bitstreams, run.modules, first, n.operationType,
                                       libraries.modules[n.operationType], position, r)
    ensures r != [] <==> CanJoin(g, libraries, run, n)
  {
    if r != [] {
      assert AfterProducers(g, run.nodes, run.modules, n, position);
      assert Supports(libraries.bitstreams, run.modules, position, n.operationType, r[position].elasticity);
    } else {
      forall p, parameters | 0 <= p <= |run.modules| && AfterProducers(g, run.nodes, run.modules, n, p)
                             && Candidate(libraries.modules[n.operationType], parameters)
        ensures !Supports(libraries.bitstreams, run.modules, p, n.operationType, parameters)
      {
        assert first <= p;
        assert NoneSupported(libraries.bitstreams, run.modules, p, n.operationType, libraries.modules[n.operationType]);
      }
    }
  }

  /** What holds of the vectors between two steps: `done` are the nodes of the earlier runs. */
  ghost predicate WorkInvariant(g: Graph, libraries: Libraries, done: seq<QueryNode>, state: Progress)
    requires g.previous.Keys == g.nodes
  {
    && state.scheduled == done + state.run.nodes
    && TopologicalOrder(g, state.scheduled)
    && IsFrontier(g, state.scheduled, state.starting)
    && RunSound(libraries.bitstreams, state.run)
    && PipelineOrdered(g, state.run) && LinksMayStay(g, state.run.nodes)
  }

  lemma {:induction false} DistinctNodesFit(nodes: seq<QueryNode>, all: set<QueryNode>)
    requires NoDuplicates(nodes) && forall n :: n in nodes ==> n in all
    ensures |nodes| <= |all|
  {
    if nodes != [] {
      var front, last := nodes[..|nodes| - 1], nodes[|nodes| - 1];
      assert forall i :: 0 <= i < |front| ==> front[i] != last;
      DistinctNodesFit(front, all - {last});
    }
  }

  lemma ScheduledAreReady(g: QueryGraph, order: seq<QueryNode>, n: QueryNode)
    requires TopologicalOrder(g, order) && n in order
    ensures Ready(g, order, n)
  {
  }

  /** A node that becomes ready with `node` is a successor of it, and was not scheduled before. */
  lemma NewlyReady(g: QueryGraph, before: seq<QueryNode>, starting: seq<QueryNode>, node: QueryNode, m: QueryNode)
    requires m in g.nodes && TopologicalOrder(g, before)
    requires IsFrontier(g, before, starting) && node in starting
    ensures m !in before && !Ready(g, before, m) && Ready(g, before + [node], m) ==> m in g.next[node]
    ensures m in g.next[node] ==> m !in before + [node] && !Ready(g, before, m)
    ensures Ready(g, before, m) ==> Ready(g, before + [node], m)
  {
    assert node !in before && Satisfies(g, LinkEndsAgree);
    if m in g.next[node] {
      var i :| 0 <= i < |g.next[node]| && g.next[node][i] == m;
      assert node in g.previous[m];
      var k :| 0 <= k < |g.previous[m]| && g.previous[m][k] == node;
      if m in before {
        ScheduledAreReady(g, before, m);
      }
    }
  }

  /** Appends the successors of `node` that have become ready. */
  method PushReadyNodes(node: QueryNode, starting: seq<QueryNode>, scheduled: seq<QueryNode>, ghost g: QueryGraph,
                        ghost before: seq<QueryNode>)
    returns (pushed: seq<QueryNode>)
    requires TopologicalOrder(g, before)
    requires IsFrontier(g, before, starting) && node in starting
    requires scheduled == before + [node]
    requires Uncut(g, before)
    ensures Pushed(g, before, starting, node, pushed)
  {
    pushed := starting;
    for i := 0 to |node.nextNodes|
      invariant starting <= pushed && NoDuplicates(pushed)
      invariant forall m :: m in pushed ==> m in g.nodes
      invariant forall m :: m in pushed <==> m in starting || (m in g.next[node][..i] && Ready(g, before + [node], m))
    {
      var next := node.nextNodes[i];
      if next != null {
        NewlyReady(g, before, starting, node, next);
        IncludedIffMember(g, pushed, next);
        AvailableIffReady(g, scheduled, next);
        if !IsNodeIncluded(pushed, next) && IsNodeAvailable(scheduled, next) {
          pushed := pushed + [next];
        }
      }
    }
    assert g.next[node][..|node.nextNodes|] == g.next[node];
    forall m | m in g.nodes { NewlyReady(g, before, starting, node, m); }
  }

  /** `pushed` extends `starting` by the nodes that `node` makes ready. */
  ghost predicate Pushed(g: Graph, before: seq<QueryNode>, starting: seq<QueryNode>, node: QueryNode,
                         pushed: seq<QueryNode>)
    requires g.previous.Keys == g.nodes
  {
    && starting <= pushed && NoDuplicates(pushed)
    && (forall m :: m in pushed ==> m in g.nodes)
    && forall m {:trigger m in pushed} {:trigger Ready(g, before + [node], m)} :: m in g.nodes ==>
         (m in pushed <==> m in starting || (m !in before && Ready(g, before + [node], m)))
  }

  /** Taking the scheduled node off the list leaves the frontier of what is scheduled now. */
  lemma FrontierAfter(g: Graph, before: seq<QueryNode>, starting: seq<QueryNode>, pushed: seq<QueryNode>, index: nat)
    requires g.previous.Keys == g.nodes && TopologicalOrder(g, before) && IsFrontier(g, before, starting)
    requires index < |starting| && Pushed(g, before, starting, starting[index], pushed)
    ensures IsFrontier(g, before + [starting[index]], pushed[..index] + pushed[index + 1..])
    ensures TopologicalOrder(g, before + [starting[index]])
  {
    var node := starting[index];
    assert node in starting && pushed[index] == node;
    WithoutOne(pushed, index);
    var after, rest := before + [node], pushed[..index] + pushed[index + 1..];
    forall m | m in g.nodes ensures m in rest <==> m !in after && Ready(g, after, m) {
      assert Ready(g, before, m) ==> Ready(g, after, m);
    }
    ScheduleOneMore(g, before, node);
  }

  lemma WithoutOne<T>(s: seq<T>, index: nat)
    requires NoDuplicates(s) && index < |s|
    ensures NoDuplicates(s[..index] + s[index + 1..])
    ensures forall x :: x in s[..index] + s[index + 1..] <==> x in s && x != s[index]
  {
    var rest := s[..index] + s[index + 1..];
    assert forall k :: 0 <= k < |rest| ==> rest[k] == s[if k < index then k else k + 1];
    assert forall k :: 0 <= k < |s| && k != index ==> s[k] == rest[if k < index then k else k - 1];
  }

  lemma ScheduleOneMore(g: Graph, before: seq<QueryNode>, node: QueryNode)
    requires g.previous.Keys == g.nodes
    requires TopologicalOrder(g, before)
    requires node in g.nodes && node !in before && Ready(g, before, node)
    ensures TopologicalOrder(g, before + [node])
  {
    var after := before + [node];
    forall i | 0 <= i < |after| ensures Ready(g, after[..i], after[i]) {
      assert after[..i] == before[..i];
    }
  }

  /** The run stays sound and ordered when a node joins with a suitable combination of modules. */
  lemma JoinKeepsRun(g: QueryGraph, libraries: Libraries, scheduled: seq<QueryNode>, starting: seq<QueryNode>, run: Run,
                     n: QueryNode, location: int, r: ModulesVector)
    requires TopologicalOrder(g, scheduled) && IsFrontier(g, scheduled, starting)
    requires RunSound(libraries.bitstreams, run) && PipelineOrdered(g, run)
    requires forall c :: c in run.nodes ==> c in scheduled
    requires n in starting && r != []
    requires SuitableFor(g, libraries, run, n, location, r)
    ensures RunSound(libraries.bitstreams, Run(r, run.nodes + [n]))
    ensures PipelineOrdered(g, Run(r, run.nodes + [n]))
  {
    var nodes := run.nodes + [n];
    assert nodes[..|run.nodes|] == run.nodes;
    if n.operationType == PassThrough {
      PassThroughKeepsOrder(g, run, n);
    } else {
      var m := QueryOperation(n.operationType, r[location].elasticity);
      TypesOfInserted(run.modules, location, m);
      var first :| FirstAllowed(g, run.nodes, run.modules, n, first) && first <= location;
      assert AfterProducers(g, run.nodes, run.modules, n, location as nat);
      forall c | c in run.nodes ensures c != n && n !in g.previous[c] {
        assert c in scheduled;
        ScheduledAreReady(g, scheduled, c);
      }
      InsertionKeepsOrder(g, libraries.bitstreams, run, n, location, m);
    }
  }

  /** Each node of the run that needs a module has one of its type. */
  lemma RunTypesPresent(bitstreams: map<ModulesVector, string>, run: Run)
    requires RunSound(bitstreams, run)
    ensures forall n :: n in run.nodes && n.operationType != PassThrough ==> n.operationType in ModuleTypes(run.modules)
  {
    forall n | n in run.nodes && n.operationType != PassThrough ensures n.operationType in ModuleTypes(run.modules) {
      NodeTypesMember(run.nodes, n.operationType);
      assert n.operationType in multiset(NodeTypes(run.nodes));
    }
  }

  /** Schedules the starting node at `index`, which makes the nodes beyond those of `starting` in `pushed` ready. */
  function Take(state: Progress, index: nat, r: ModulesVector, pushed: seq<QueryNode>): Progress
    requires index < |state.starting| <= |pushed|
  {
    Progress(pushed[..index] + pushed[index + 1..], state.scheduled + [state.starting[index]],
             Run(r, state.run.nodes + [state.starting[index]]))
  }

  lemma TakenMayStay(g: QueryGraph, libraries: Libraries, scheduled: seq<QueryNode>, starting: seq<QueryNode>,
                     run: Run, n: QueryNode)
    requires TopologicalOrder(g, scheduled) && IsFrontier(g, scheduled, starting)
    requires LinksMayStay(g, run.nodes) && forall c :: c in run.nodes ==> c in scheduled
    requires n in starting && CanJoin(g, libraries, run, n)
    requires n.operationType == PassThrough || LinksReadable(g, run.nodes, n)
    ensures LinksMayStay(g, run.nodes + [n])
  {
    hide LinksMayStay, LinksReadable, Blocked, AfterProducers;
    forall c | c in run.nodes ensures c in g.nodes && n !in g.previous[c] {
      assert c in scheduled;
      ScheduledAreReady(g, scheduled, c);
    }
    UnblockedMayStay(g, run.nodes, n);
  }

  lemma TakeKeepsInvariant(g: QueryGraph, libraries: Libraries, done: seq<QueryNode>, state: Progress, index: nat,
                           location: int, r: ModulesVector, pushed: seq<QueryNode>)
    requires WorkInvariant(g, libraries, done, state)
    requires index < |state.starting| && r != []
    requires state.starting[index].operationType == PassThrough
             || LinksReadable(g, state.run.nodes, state.starting[index])
    requires CanJoin(g, libraries, state.run, state.starting[index])
    requires SuitableFor(g, libraries, state.run, state.starting[index], location, r)
    requires Pushed(g, state.scheduled, state.starting, state.starting[index], pushed)
    ensures WorkInvariant(g, libraries, done, Take(state, index, r, pushed))
    ensures |state.scheduled| < |g.nodes|
  {
    var node := state.starting[index];
    assert node in state.starting;
    JoinKeepsRun(g, libraries, state.scheduled, state.starting, state.run, node, location, r);
    TakenMayStay(g, libraries, state.scheduled, state.starting, state.run, node);
    FrontierAfter(g, state.scheduled, state.starting, pushed, index);
    assert state.scheduled + [node] == done + (state.run.nodes + [node]);
    DistinctNodesFit(state.scheduled + [node], g.nodes);
  }

  /** The precondition of the search for modules follows from the invariant. */
  lemma ReadyForSearch(g: QueryGraph, libraries: Libraries, done: seq<QueryNode>, state: Progress, index: nat)
    requires WorkInvariant(g, libraries, done, state) && Uncut(g, done)
    requires index < |state.starting|
    ensures state.starting[index] in g.nodes
    ensures state.starting[index].previousNodes == g.previous[state.starting[index]]
    ensures forall n :: n in state.run.nodes ==> n in g.nodes && n.nextNodes == g.next[n]
    ensures forall n :: n in state.run.nodes && n.operationType != PassThrough ==>
              n.operationType in ModuleTypes(state.run.modules)
    ensures Uncut(g, state.scheduled)
  {
    var node := state.starting[index];
    assert node in state.starting;
    assert forall n :: n in done ==> n in state.scheduled;
    RunTypesPresent(libraries.bitstreams, state.run);
    CurrentIsUncut(g, state.scheduled, done, state.run.nodes);
  }

  ghost predicate NoneCanJoin(g: Graph, libraries: Libraries, run: Run, nodes: seq<QueryNode>) {
    forall k :: 0 <= k < |nodes| ==> nodes[k] in g.previous && !CanJoin(g, libraries, run, nodes[k])
  }

  lemma OneMoreCannotJoin(g: Graph, libraries: Libraries, run: Run, nodes: seq<QueryNode>, index: nat)
    requires index < |nodes| && NoneCanJoin(g, libraries, run, nodes[..index])
    requires nodes[index] in g.previous && !CanJoin(g, libraries, run, nodes[index])
    ensures NoneCanJoin(g, libraries, run, nodes[..index + 1])
    ensures index + 1 == |nodes| ==> nodes[..index + 1] == nodes
  {
  }

  lemma OutsideIsMissing(g: QueryGraph, current: seq<QueryNode>, n: QueryNode)
    requires n in g.nodes && n.operationType != PassThrough && ReadsOutside(g, current, n)
    ensures !ParametersExist(g)
  {
    var i :| ReadsOutsideAt(g, current, n, i);
  }

  lemma UnknownComesNext(g: QueryGraph, libraries: Libraries, done: seq<QueryNode>, state: Progress, index: nat)
    requires WorkInvariant(g, libraries, done, state) && index < |state.starting|
    requires var n := state.starting[index];
             n in g.nodes && n.operationType != PassThrough && n.operationType !in libraries.modules
    ensures NeedsUnknownModule(g, libraries, done)
  {
    var n, s := state.starting[index], set m | m in state.scheduled;
    assert n in state.starting && Ready(g, state.scheduled, n);
    forall m | m in s ensures HasPredecessors(g, s, m) {
      ScheduledAreReady(g, state.scheduled, m);
    }
    assert UnknownIsReady(g, libraries, done, s, n);
  }

  /** Takes the starting node at `index` if there are modules with which it can join the run. */
  method TryNode(index: nat, state: Progress, libraries: Libraries, ghost g: QueryGraph, ghost done: seq<QueryNode>)
    returns (status: Status, taken: bool, after: Progress)
    requires WorkInvariant(g, libraries, done, state) && Uncut(g, done)
    requires index < |state.starting|
    modifies g.nodes`moduleLocation
    ensures Uncut(g, done)
    ensures status in {Ok, ParametersNotFound, ReadOutside}
    ensures status == ReadOutside ==> !ParametersExist(g)
    ensures status == ParametersNotFound ==> NeedsUnknownModule(g, libraries, done)
    ensures status == Ok && taken ==> WorkInvariant(g, libraries, done, after) && |state.scheduled| < |after.scheduled|
    ensures status == Ok && !taken ==> state.starting[index] in g.nodes
    ensures status == Ok && !taken ==> !CanJoin(g, libraries, state.run, state.starting[index])
    ensures status == Ok && taken ==> CanJoin(g, libraries, state.run, state.starting[index])
  {
    hide CanJoin, SuitableFor, PipelineOrdered, RunSound, TopologicalOrder, ParametersExist, LinksReadable;
    hide ReadsOutside;
    var node := state.starting[index];
    ReadyForSearch(g, libraries, done, state, index);
    var combination;
    status, combination := FindSuitableModuleCombination(node, state.run.nodes, state.run.modules, libraries, g);
    if status == ReadOutside {
      OutsideIsMissing(g, state.run.nodes, node);
    }
    if status == ParametersNotFound {
      UnknownComesNext(g, libraries, done, state, index);
    }
    taken, after := status == Ok && combination != [], state;
    assert Uncut(g, done) && Uncut(g, state.scheduled);
    if taken {
      assert node in state.starting;
      var pushed := PushReadyNodes(node, state.starting, state.scheduled + [node], g, state.scheduled);
      TakeKeepsInvariant(g, libraries, done, state, index, node.moduleLocation - 1, combination, pushed);
      after := Take(state, index, combination, pushed);
    }
  }

  /**
   * Tries the starting node at `index`; takes it and starts over, or goes on to the next one. When it returns
   * normally the run is closed: nothing that could be started now can join it.
   */
  method CheckNodeForModuleSet(index: nat, state: Progress, libraries: Libraries, ghost g: QueryGraph,
                               ghost done: seq<QueryNode>)
    returns (status: Status, after: Progress)
    requires WorkInvariant(g, libraries, done, state) && Uncut(g, done)
    requires index < |state.starting|
    requires NoneCanJoin(g, libraries, state.run, state.starting[..index])
    modifies g.nodes`moduleLocation
    ensures status in {Ok, ParametersNotFound, ReadOutside}
    ensures status == ReadOutside ==> !ParametersExist(g)
    ensures status == ParametersNotFound ==> NeedsUnknownModule(g, libraries, done)
    ensures status == Ok ==> WorkInvariant(g, libraries, done, after)
    ensures status == Ok ==> NoneCanJoin(g, libraries, after.run, after.starting)
    decreases |g.nodes| - |state.scheduled|, |state.starting| - index
  {
    DistinctNodesFit(state.scheduled, g.nodes);
    var taken;
    status, taken, after := TryNode(index, state, libraries, g, done);
    if status != Ok {
      return;
    }
    if taken {
      DistinctNodesFit(after.scheduled, g.nodes);
      if after.starting != [] {
        status, after := CheckNodeForModuleSet(0, after, libraries, g, done);
      }
    } else {
      OneMoreCannotJoin(g, libraries, state.run, state.starting, index);
      if index + 1 != |state.starting| {
        status, after := CheckNodeForModuleSet(index + 1, state, libraries, g, done);
      } else {
        after := state;
      }
    }
  }

  lemma CurrentIsUncut(g: QueryGraph, scheduled: seq<QueryNode>, done: seq<QueryNode>, current: seq<QueryNode>)
    requires TopologicalOrder(g, scheduled) && scheduled == done + current
    ensures forall n :: n in current ==> n !in done
  {
    forall n | n in current ensures n !in done {
      var i :| 0 <= i < |current| && current[i] == n;
      assert scheduled[|done| + i] == n;
      assert forall j :: 0 <= j < |done| ==> scheduled[j] == done[j];
    }
  }

  /** For every scheduled node, the nodes of its run. */
  ghost function HomesOf(runs: seq<Run>): Homes {
    if runs == [] then map[] else
    var last := runs[|runs| - 1];
    Joined(HomesOf(runs[..|runs| - 1]), last.nodes, |last.nodes|)
  }

  lemma {:induction false} HomesAreScheduled(runs: seq<Run>)
    ensures forall n :: n in HomesOf(runs) <==> n in ScheduledNodes(runs)
  {
    if runs != [] {
      var front, last := runs[..|runs| - 1], runs[|runs| - 1];
      HomesAreScheduled(front);
      forall n ensures n in HomesOf(runs) <==> n in ScheduledNodes(runs) {
        JoinedAt(HomesOf(front), last.nodes, |last.nodes|, n);
        assert last.nodes[..|last.nodes|] == last.nodes;
      }
    }
  }

  /** What the outer loop keeps: the runs so far are valid, and everything outside them is untouched. */
  ghost predicate ScheduleSoFar(g: Graph, libraries: Libraries, runs: seq<Run>, starting: seq<QueryNode>,
                                scheduled: seq<QueryNode>)
    requires g.previous.Keys == g.nodes
  {
    && scheduled == ScheduledNodes(runs)
    && ValidSchedule(g, libraries, runs)
    && IsFrontier(g, scheduled, starting)
  }

  lemma RunStarts(g: Graph, libraries: Libraries, runs: seq<Run>, starting: seq<QueryNode>, scheduled: seq<QueryNode>)
    requires g.previous.Keys == g.nodes
    requires ScheduleSoFar(g, libraries, runs, starting, scheduled)
    ensures WorkInvariant(g, libraries, scheduled, Progress(starting, scheduled, Run([], [])))
    ensures NoneCanJoin(g, libraries, Run([], []), starting[..0])
  {
  }

  lemma RunCloses(g: Graph, libraries: Libraries, runs: seq<Run>, starting: seq<QueryNode>,
                  scheduled: seq<QueryNode>, state: Progress)
    requires g.previous.Keys == g.nodes
    requires ScheduleSoFar(g, libraries, runs, starting, scheduled)
    requires WorkInvariant(g, libraries, scheduled, state) && state.run.nodes != []
    requires NoneCanJoin(g, libraries, state.run, state.starting)
    ensures ScheduleSoFar(g, libraries, runs + [state.run], state.starting, state.scheduled)
    ensures |scheduled| < |state.scheduled| <= |g.nodes|
  {
    DistinctNodesFit(state.scheduled, g.nodes);
    assert RunClosed(g, libraries, state.scheduled, state.run);
    OneMoreRun(g, libraries, runs, state.run);
  }

  lemma OneMoreRun(g: Graph, libraries: Libraries, runs: seq<Run>, run: Run)
    requires g.previous.Keys == g.nodes && ValidSchedule(g, libraries, runs)
    requires TopologicalOrder(g, ScheduledNodes(runs) + run.nodes)
    requires RunClosed(g, libraries, ScheduledNodes(runs) + run.nodes, run)
    ensures ScheduledNodes(runs + [run]) == ScheduledNodes(runs) + run.nodes
    ensures ValidSchedule(g, libraries, runs + [run])
  {
    hide TopologicalOrder, RunClosed;
    var longer := runs + [run];
    assert longer[..|runs|] == runs && longer[..|longer|] == longer;
    forall k | 0 <= k < |longer| ensures RunClosed(g, libraries, ScheduledNodes(longer[..k + 1]), longer[k]) {
      if k < |runs| {
        assert longer[..k + 1] == runs[..k + 1];
        assert RunClosed(g, libraries, ScheduledNodes(runs[..k + 1]), runs[k]);
      } else {
        assert longer[..k + 1] == longer;
      }
    }
  }

  lemma RunIsUncut(g: QueryGraph, libraries: Libraries, runs: seq<Run>, scheduled: seq<QueryNode>, state: Progress)
    requires scheduled == ScheduledNodes(runs)
    requires WorkInvariant(g, libraries, scheduled, state)
    ensures RunUncut(g, HomesOf(runs), state.run.nodes)
  {
    var nodes := state.run.nodes;
    HomesAreScheduled(runs);
    CurrentIsUncut(g, state.scheduled, scheduled, nodes);
    assert forall i :: 0 <= i < |nodes| ==> nodes[i] == state.scheduled[|scheduled| + i];
    TopologicalPrefix(g, state.scheduled, |scheduled|);
    assert state.scheduled[..|scheduled|] == scheduled;
    forall n | n in nodes ensures n in g.nodes && n !in HomesOf(runs) && TargetsUncut(g, HomesOf(runs), n) {
      LaterTargets(g, scheduled, n);
    }
  }

  /** What a node feeds is scheduled after it. */
  lemma LaterTargets(g: QueryGraph, order: seq<QueryNode>, n: QueryNode)
    requires TopologicalOrder(g, order) && n in g.nodes && n !in order
    ensures forall i :: 0 <= i < |g.next[n]| && g.next[n][i] != null ==> g.next[n][i] !in order
  {
    forall i | 0 <= i < |g.next[n]| && g.next[n][i] != null ensures g.next[n][i] !in order {
      assert g.next[n][i] in g.next[n] && Satisfies(g, LinkEndsAgree);
      if g.next[n][i] in order {
        ScheduledAreReady(g, order, g.next[n][i]);
      }
    }
  }

  lemma TopologicalPrefix(g: QueryGraph, order: seq<QueryNode>, n: nat)
    requires TopologicalOrder(g, order) && n <= |order|
    ensures TopologicalOrder(g, order[..n])
  {
  }

  /** When nothing more can be started, everything has been scheduled exactly if the graph has no cycle. */
  lemma CoversIffAcyclic(g: QueryGraph, order: seq<QueryNode>)
    requires TopologicalOrder(g, order) && IsFrontier(g, order, [])
    ensures (forall n :: n in g.nodes ==> n in order) <==> Acyclic(g)
  {
    if Acyclic(g) {
      AcyclicIsCovered(g, order);
    }
    if forall n :: n in g.nodes ==> n in order {
      forall s: set<QueryNode> | s <= g.nodes && s != {}
        ensures exists n :: n in s && IsSource(g, s, n)
      {
        var n := FirstOf(g, order, s);
      }
    }
  }

  lemma AcyclicIsCovered(g: QueryGraph, order: seq<QueryNode>)
    requires Acyclic(g) && IsFrontier(g, order, [])
    ensures forall n :: n in g.nodes ==> n in order
  {
    hide TopologicalOrder, WellFormed;
    var rest := set n | n in g.nodes && n !in order;
    assert forall n :: n in g.nodes ==> n in order || n in rest;
    if rest != {} {
      assert rest <= g.nodes;
      var n :| n in rest && IsSource(g, rest, n);
      var p := StuckBehind(g, order, n);
    }
  }

  /** A node that can never be started has a predecessor that was not scheduled either. */
  lemma StuckBehind(g: QueryGraph, order: seq<QueryNode>, n: QueryNode) returns (p: QueryNode)
    requires IsFrontier(g, order, []) && n in g.nodes && n !in order
    ensures p in g.nodes && p in g.previous[n] && p !in order
  {
    assert !Ready(g, order, n);
    p :| p in g.previous[n] && p !in order;
    var i :| 0 <= i < |g.previous[n]| && g.previous[n][i] == p;
  }

  /** The first node of a topological order that is in `s` has no predecessor in `s`. */
  lemma {:induction false} FirstOf(g: QueryGraph, order: seq<QueryNode>, s: set<QueryNode>) returns (n: QueryNode)
    requires TopologicalOrder(g, order) && exists m :: m in s && m in order
    ensures n in order && IsSource(g, s, n)
  {
    var front, last := order[..|order| - 1], order[|order| - 1];
    TopologicalPrefix(g, order, |order| - 1);
    if exists m :: m in s && m in front {
      n := FirstOf(g, front, s);
    } else {
      n := last;
      assert Ready(g, front, last);
      var m :| m in s && m in order;
      assert m == last by {
        assert order == front + [last];
      }
    }
  }

  /** Partitions the graph below the starting nodes into runs, cutting each run off when it is closed. */
  method FindAcceleratedQueryNodeSets(startingNodes: seq<QueryNode>, libraries: Libraries, reuse: ReusePolicy,
                                      ghost g: QueryGraph)
    returns (status: Status, runs: seq<Run>, links: LinkMap)
    requires g == Snapshot(g.nodes)
    requires IsFrontier(g, [], startingNodes)
    modifies g.nodes
    ensures ValidSchedule(g, libraries, runs)
    ensures status == FailedToSchedule ==> CannotStart(g, libraries, ScheduledNodes(runs))
    ensures status == ReadOutside ==> !ParametersExist(g)
    ensures status == ParametersNotFound ==> NeedsUnknownModule(g, libraries, ScheduledNodes(runs))
    ensures status == Ok ==> ((forall n :: n in g.nodes ==> n in ScheduledNodes(runs)) <==> Acyclic(g))
    ensures status == Ok ==> CutState(g, reuse, HomesOf(runs)) && LinksRecorded(g, reuse, HomesOf(runs), links)
  {
    var starting, scheduled := startingNodes, [];
    status, runs, links := Ok, [], map[];
    NothingCutYet(g, reuse);
    while starting != []
      invariant status == Ok
      invariant ScheduleSoFar(g, libraries, runs, starting, scheduled)
      invariant RunCut(g, reuse, HomesOf(runs), [], 0, links)
      decreases |g.nodes| - |scheduled|
    {
      var state;
      status, state, links := ScheduleNextRun(starting, scheduled, runs, links, libraries, reuse, g);
      if status != Ok {
        return;
      }
      starting, scheduled, runs := state.starting, state.scheduled, runs + [state.run];
    }
    CoversIffAcyclic(g, scheduled);
  }

  lemma NothingCutYet(g: QueryGraph, reuse: ReusePolicy)
    requires g == Snapshot(g.nodes)
    ensures RunCut(g, reuse, map[], [], 0, map[])
  {
  }

  /** Fills a run; the locations it writes are no part of what cutting looks at. */
  method FillRun(starting: seq<QueryNode>, scheduled: seq<QueryNode>, libraries: Libraries, ghost g: QueryGraph,
                 ghost reuse: ReusePolicy, ghost homes: Homes, ghost links: LinkMap)
    returns (status: Status, state: Progress)
    requires starting != []
    requires WorkInvariant(g, libraries, scheduled, Progress(starting, scheduled, Run([], [])))
    requires Uncut(g, scheduled) && RunCut(g, reuse, homes, [], 0, links)
    modifies g.nodes`moduleLocation
    ensures status in {Ok, ParametersNotFound, ReadOutside}
    ensures status == ReadOutside ==> !ParametersExist(g)
    ensures status == ParametersNotFound ==> NeedsUnknownModule(g, libraries, scheduled)
    ensures status == Ok ==> WorkInvariant(g, libraries, scheduled, state)
    ensures status == Ok ==> NoneCanJoin(g, libraries, state.run, state.starting)
    ensures RunCut(g, reuse, homes, [], 0, links)
  {
    status, state := CheckNodeForModuleSet(0, Progress(starting, scheduled, Run([], [])), libraries, g, scheduled);
    forall n | n in g.nodes ensures NodeState(g, reuse, homes, n) && InputFilesAre(g, reuse, homes, n, n.inputFiles) {
      assert old(NodeState(g, reuse, homes, n));
      assert old(InputFilesAre(g, reuse, homes, n, n.inputFiles));
    }
  }

  lemma NothingStarted(g: Graph, libraries: Libraries, starting: seq<QueryNode>, scheduled: seq<QueryNode>,
                       state: Progress)
    requires g.previous.Keys == g.nodes
    requires IsFrontier(g, scheduled, starting) && starting != []
    requires WorkInvariant(g, libraries, scheduled, state) && state.run.nodes == []
    requires NoneCanJoin(g, libraries, state.run, state.starting)
    ensures CannotStart(g, libraries, scheduled)
  {
    assert starting[0] in starting && state.scheduled == scheduled;
    assert Ready(g, scheduled, starting[0]);
    forall n | n in g.nodes && n !in scheduled && Ready(g, scheduled, n)
      ensures !CanJoin(g, libraries, Run([], []), n)
    {
      assert n in state.starting;
    }
  }

  /** One iteration of the outer loop: fills a run, closes it and cuts it off. */
  method ScheduleNextRun(starting: seq<QueryNode>, scheduled: seq<QueryNode>, runs: seq<Run>, links: LinkMap,
                         libraries: Libraries, reuse: ReusePolicy, ghost g: QueryGraph)
    returns (status: Status, state: Progress, links': LinkMap)
    requires starting != []
    requires ScheduleSoFar(g, libraries, runs, starting, scheduled)
    requires RunCut(g, reuse, HomesOf(runs), [], 0, links)
    modifies g.nodes
    ensures status == Ok ==> ScheduleSoFar(g, libraries, runs + [state.run], state.starting, state.scheduled)
    ensures status == Ok ==> RunCut(g, reuse, HomesOf(runs + [state.run]), [], 0, links')
    ensures status == Ok ==> |scheduled| < |state.scheduled| <= |g.nodes|
    ensures status == FailedToSchedule ==> CannotStart(g, libraries, scheduled)
    ensures status == ReadOutside ==> !ParametersExist(g)
    ensures status == ParametersNotFound ==> NeedsUnknownModule(g, libraries, scheduled)
  {
    hide NeedsUnknownModule, CannotStart, Satisfies, ValidSchedule, ParametersExist, TopologicalOrder;
    RunStarts(g, libraries, runs, starting, scheduled);
    UncutOutsideRuns(g, reuse, runs, scheduled);
    links' := links;
    status, state := FillRun(starting, scheduled, libraries, g, reuse, HomesOf(runs), links);
    if status == Ok {
      if state.run.nodes == [] {
        NothingStarted(g, libraries, starting, scheduled, state);
        status := FailedToSchedule;
      } else {
        RunCloses(g, libraries, runs, starting, scheduled, state);
        RunIsUncut(g, libraries, runs, scheduled, state);
        links' := CheckExternalLinks(state.run.nodes, links, reuse, g, HomesOf(runs));
        assert (runs + [state.run])[..|runs|] == runs;
      }
    }
  }

  lemma UncutOutsideRuns(g: QueryGraph, reuse: ReusePolicy, runs: seq<Run>, scheduled: seq<QueryNode>)
    requires scheduled == ScheduledNodes(runs) && CutState(g, reuse, HomesOf(runs))
    ensures Uncut(g, scheduled)
  {
    HomesAreScheduled(runs);
    forall n | n in g.nodes && n !in scheduled ensures n.nextNodes == g.next[n] && n.previousNodes == g.previous[n] {
      assert NodeState(g, reuse, HomesOf(runs), n);
    }
  }
}
