/** Check flags: the scheduler looks at the flag with the number of the input, where that of the output is meant. */
module CheckedStreams {
  import opened Sequences
  import opened QueryOperations
  import opened QueryNodes
  import opened Placement
  import opened SchedulingModel

  /** Without projections, being passed on inside a run means not being checked exactly if the two flags are equal. */
  lemma FlagIsHonouredIff(p: QueryNode, o: nat, c: QueryNode, i: nat)
    requires 4 * o < |p.outputStreamParameters| && p.outputStreamParameters[4 * o] == []
    requires 4 * i < |c.inputStreamParameters| && c.inputStreamParameters[4 * i] == []
    requires i < |p.isChecked| && o < |p.isChecked|
    ensures (PassedOnAsIs(p, o, c, i) <==> !p.isChecked[o]) <==> p.isChecked[i] == p.isChecked[o]
  {
  }

  /** An output that is to be checked stays inside its run only if it feeds an input of another number. */
  lemma CheckedLeaveUnlessRenumbered(g: QueryGraph, libraries: Libraries, runs: seq<Run>, k: nat, p: QueryNode, o: nat,
                                     c: QueryNode, i: nat)
    requires ValidSchedule(g, libraries, runs) && k < |runs| && p in runs[k].nodes && c in runs[k].nodes
    requires IsModuleLink(g, p, o, c, i) && o < |p.isChecked| && p.isChecked[o]
    ensures i != o
  {
    assert RunClosed(g, libraries, ScheduledNodes(runs[..k + 1]), runs[k]);
  }

  const JOIN := QueryOperation(Join, [])
  const FILTER := QueryOperation(Filter, [])

  /** One bitstream, for a join followed by a filter, and one for the join alone. */
  const LIBRARIES := Libraries(map[[JOIN] := "join", [JOIN, FILTER] := "join_filter"], map[Join := [], Filter := []])

  /** The second output of a join is to be checked, and feeds a filter. */
  ghost predicate IsCheckedJoin(g: Graph, join: QueryNode, filter: QueryNode) {
    && join != filter && join.operationType == Join && filter.operationType == Filter && g.nodes == {join, filter}
    && g.next == map[join := [null, filter], filter := [null]]
    && g.previous == map[join := [null, null], filter := [join]]
    && join.isChecked == [false, true] && join.outputStreamParameters == seq(8, _ => [])
    && filter.inputStreamParameters == seq(4, _ => [])
  }

  /** The filter joins the run of the join all the same. */
  lemma CheckedStaysInside(g: QueryGraph, join: QueryNode, filter: QueryNode)
    requires IsCheckedJoin(g, join, filter)
    ensures CanJoin(g, LIBRARIES, Run([JOIN], [join]), filter)
    ensures LinksReadable(g, [join], filter)
    ensures ValidSchedule(g, LIBRARIES, [Run([JOIN, FILTER], [join, filter])])
  {
    FilterCanJoin(g, join, filter);
    ScheduleIsValid(g, join, filter);
  }

  lemma FilterCanJoin(g: QueryGraph, join: QueryNode, filter: QueryNode)
    requires IsCheckedJoin(g, join, filter)
    ensures CanJoin(g, LIBRARIES, Run([JOIN], [join]), filter) && LinksReadable(g, [join], filter)
  {
    assert ModuleTypes([JOIN]) == [Join];
    assert IndexOf<QueryNode?>(g.next[join], filter) == 1;
    assert Inserted([JOIN], 1, FILTER) == [JOIN, FILTER];
    assert Supports(LIBRARIES.bitstreams, [JOIN], 1, Filter, []);
    assert AfterProducers(g, [join], [JOIN], filter, 1);
    assert Candidate(LIBRARIES.modules[Filter], []);
  }

  lemma ScheduleIsValid(g: QueryGraph, join: QueryNode, filter: QueryNode)
    requires IsCheckedJoin(g, join, filter)
    ensures ValidSchedule(g, LIBRARIES, [Run([JOIN, FILTER], [join, filter])])
  {
    hide *;
    var run := Run([JOIN, FILTER], [join, filter]);
    RunIsClosed(g, join, filter);
    OneRun(g, run);
  }

  lemma RunIsClosed(g: QueryGraph, join: QueryNode, filter: QueryNode)
    requires IsCheckedJoin(g, join, filter)
    ensures RunClosed(g, LIBRARIES, [join, filter], Run([JOIN, FILTER], [join, filter]))
    ensures TopologicalOrder(g, [join, filter])
  {
    var run := Run([JOIN, FILTER], [join, filter]);
    TypesOfBoth(join, filter);
    MayStay(g, join, filter);
    BothInOrder(g, join, filter);
    hide LinksMayStay, TopologicalOrder, WellFormed;
    assert RunSound(LIBRARIES.bitstreams, run);
    assert PipelineOrdered(g, run);
    assert Maximal(g, LIBRARIES, run.nodes, run);
  }

  lemma BothInOrder(g: QueryGraph, join: QueryNode, filter: QueryNode)
    requires IsCheckedJoin(g, join, filter)
    ensures TopologicalOrder(g, [join, filter])
  {
    assert [join, filter][..1] == [join] && [join, filter][..0] == [];
    assert Ready(g, [], join) && Ready(g, [join], filter);
  }

  lemma MayStay(g: QueryGraph, join: QueryNode, filter: QueryNode)
    requires IsCheckedJoin(g, join, filter)
    ensures LinksMayStay(g, [join, filter])
  {
    forall p, o: nat, c, i: nat | p in [join, filter] && c in [join, filter] && IsModuleLink(g, p, o, c, i)
      ensures PassedOnAsIs(p, o, c, i)
    {
      assert p == join && c == filter && o == 1 && i == 0;
    }
  }

  lemma TypesOfBoth(join: QueryNode, filter: QueryNode)
    requires join.operationType == Join && filter.operationType == Filter
    ensures ModuleTypes([JOIN, FILTER]) == [Join, Filter] == NodeTypes([join, filter])
  {
    assert [join, filter][..1] == [join] && [join][..0] == [];
    assert NodeTypes([join]) == NodeTypes([]) + [Join];
  }

  lemma OneRun(g: QueryGraph, run: Run)
    requires RunClosed(g, LIBRARIES, run.nodes, run) && TopologicalOrder(g, run.nodes)
    ensures ValidSchedule(g, LIBRARIES, [run])
  {
    hide RunClosed, TopologicalOrder;
    assert [run][..0] == [] && [run][..1] == [run] && ScheduledNodes([run]) == run.nodes;
  }
}
