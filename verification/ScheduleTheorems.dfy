/** What a finished schedule means: for links, for the real accelerator library, and for the pipeline. */
module ScheduleTheorems {
  import opened QueryOperations
  import opened Sequences
  import opened QueryNodes
  import opened ConfigCreator
  import opened Placement
  import opened SchedulingModel
  import opened ExternalLinks
  import opened Decimals
  import opened NodeScheduler

  /** The link stays inside a run: both pointers survive, and no data leaves the FPGA. */
  ghost predicate KeptInside(g: QueryGraph, links: LinkMap, n: QueryNode, i: nat)
    requires n in g.nodes && i < |g.next[n]| && g.next[n][i] != null
    reads n, g.next[n][i]
  {
    var t, slot := g.next[n][i], Slot(g, n, i);
    && i < |n.nextNodes| && n.nextNodes[i] == t
    && slot < |t.previousNodes| && t.previousNodes[slot] == n
    && slot < |t.inputFiles| && t.inputFiles[slot] == g.inputs[t][slot]
    && !(n.name in links && i in links[n.name])
  }

  /** The link became a memory link that names exactly the consumer and its input. */
  ghost predicate CutToMemory(g: QueryGraph, links: LinkMap, n: QueryNode, i: nat)
    requires n in g.nodes && i < |g.next[n]| && g.next[n][i] != null
    reads n, g.next[n][i]
  {
    var t, slot := g.next[n][i], Slot(g, n, i);
    && n.name in links && i in links[n.name] && links[n.name][i] == [(t.name, slot)]
    && i < |n.nextNodes| && n.nextNodes[i] == t
    && slot < |t.previousNodes| && t.previousNodes[slot] == null
    && slot < |t.inputFiles| && t.inputFiles[slot] == g.inputs[t][slot]
  }

  /** The link became a file that the producer writes and the consumer reads, and nothing else joins them. */
  ghost predicate CutToFile(g: QueryGraph, links: LinkMap, n: QueryNode, i: nat)
    requires n in g.nodes && i < |g.next[n]| && g.next[n][i] != null
    reads n, g.next[n][i]
  {
    var t, slot := g.next[n][i], Slot(g, n, i);
    && i < |n.nextNodes| == |n.outputFiles| && n.nextNodes[i] == null
    && slot < |t.previousNodes| && t.previousNodes[slot] == null
    && slot < |t.inputFiles| && t.inputFiles[slot] == n.outputFiles[i] != ""
    && !(n.name in links && i in links[n.name])
  }

  /** Being in the same run is the same seen from either node. */
  ghost predicate HomesAgree(homes: Homes) {
    forall a, b :: a in homes && b in homes ==> (a in homes[b] <==> b in homes[a])
  }

  /** Every link of the original graph ends in exactly one of the three ways, as its kind says. */
  lemma LinkOutcome(g: QueryGraph, reuse: ReusePolicy, homes: Homes, links: LinkMap, n: QueryNode, i: nat)
    requires CutState(g, reuse, homes) && LinksRecorded(g, reuse, homes, links) && HomesAgree(homes)
    requires n in g.nodes && i < |g.next[n]| && g.next[n][i] != null
    requires n in homes && g.next[n][i] in homes
    ensures KeptInside(g, links, n, i) <==> g.next[n][i] in homes[n]
    ensures CutToMemory(g, links, n, i) <==>
            g.next[n][i] !in homes[n] && g.outputs[n][i] == "" && reuse(n, g.next[n][i])
    ensures CutToFile(g, links, n, i) <==>
            g.next[n][i] !in homes[n] && !(g.outputs[n][i] == "" && reuse(n, g.next[n][i]))
  {
    var t, slot := g.next[n][i], Slot(g, n, i);
    LinkPositions(g, n, i);
    NodeLinksAt(g, reuse, homes[n], n, |g.next[n]|, i);
    assert NodeState(g, reuse, homes, n) && NodeState(g, reuse, homes, t);
    assert InputFilesAre(g, reuse, homes, t, t.inputFiles);
    assert t.inputFiles[slot] == InputFile(g, reuse, homes, t, slot);
    assert FedByFile(g, reuse, homes, t, slot) <==> LinkKindOf(g, reuse, homes[n], n, i) == File;
  }

  /** With the policy in force, an output that is given no file and leaves its run is handed over in memory. */
  lemma MemoryIsReused(g: QueryGraph, homes: Homes, links: LinkMap, n: QueryNode, i: nat)
    requires CutState(g, ReuseMemory, homes) && LinksRecorded(g, ReuseMemory, homes, links) && HomesAgree(homes)
    requires n in g.nodes && i < |g.next[n]| && g.next[n][i] != null
    requires n in homes && g.next[n][i] in homes && g.next[n][i] !in homes[n]
    ensures if g.outputs[n][i] == "" then CutToMemory(g, links, n, i) else CutToFile(g, links, n, i)
  {
    LinkOutcome(g, ReuseMemory, homes, links, n, i);
  }

  /**
   * Which file an output has once its run is cut off: the one it was given; or else the name of the node and the number
   * of the output, where it is written to a file; or else none.
   */
  lemma FileOfOutput(g: QueryGraph, reuse: ReusePolicy, homes: Homes, n: QueryNode, i: nat)
    requires CutState(g, reuse, homes) && n in g.nodes && n in homes && i < |g.next[n]|
    ensures i < |n.outputFiles| && i < |g.outputs[n]|
    ensures g.outputs[n][i] != "" ==> n.outputFiles[i] == g.outputs[n][i]
    ensures g.outputs[n][i] == "" && (g.next[n][i] == null || (g.next[n][i] !in homes[n]
                                                               && !reuse(n, g.next[n][i]))) ==>
              n.outputFiles[i] == n.name + "_" + ToString(i) + ".csv"
    ensures g.outputs[n][i] == "" && g.next[n][i] != null && (g.next[n][i] in homes[n] || reuse(n, g.next[n][i])) ==>
              n.outputFiles[i] == ""
  {
    assert NodeState(g, reuse, homes, n);
  }

  /** An input keeps the file it was given if no node feeds it, or none that has been cut off. */
  lemma FileOfInput(g: QueryGraph, reuse: ReusePolicy, homes: Homes, n: QueryNode, j: nat)
    requires CutState(g, reuse, homes) && n in g.nodes && j < |g.previous[n]|
    requires g.previous[n][j] == null || g.previous[n][j] !in homes
    ensures j < |n.inputFiles| && j < |g.inputs[n]| && n.inputFiles[j] == g.inputs[n][j]
  {
    assert InputFilesAre(g, reuse, homes, n, n.inputFiles);
  }

  /** Outputs that are given a file automatically are given different ones, so that none overwrites another. */
  lemma AutomaticFilesDiffer(g: QueryGraph, reuse: ReusePolicy, homes: Homes, n: QueryNode, i: nat, m: QueryNode,
                             j: nat)
    requires CutState(g, reuse, homes) && n in g.nodes && m in g.nodes && n in homes && m in homes
    requires i < |g.outputs[n]| && g.outputs[n][i] == "" && j < |g.outputs[m]| && g.outputs[m][j] == ""
    requires i < |n.outputFiles| && n.outputFiles[i] != "" && j < |m.outputFiles| && m.outputFiles[j] != ""
    requires n.outputFiles[i] == m.outputFiles[j]
    ensures n == m && i == j
  {
    assert NodeState(g, reuse, homes, n) && NodeState(g, reuse, homes, m);
    FileNameTellsOutput(n.name, i, m.name, j);
    assert Satisfies(g, NamesAreUnique) && NameIsOwn(g.nodes, n);
  }

  /** Different links feed different inputs. */
  lemma LinksHaveOwnSlots(g: QueryGraph, n: QueryNode, i: nat, m: QueryNode, j: nat)
    requires n in g.nodes && i < |g.next[n]| && g.next[n][i] != null
    requires m in g.nodes && j < |g.next[m]| && g.next[m][j] != null
    requires g.next[n][i] == g.next[m][j] && Slot(g, n, i) == Slot(g, m, j)
    ensures n == m && i == j
  {
    LinkPositions(g, n, i);
    LinkPositions(g, m, j);
  }

  /** Predecessors that are still known after cutting are nodes of the same run. */
  lemma PredecessorsStayInRun(g: QueryGraph, reuse: ReusePolicy, homes: Homes, n: QueryNode, j: nat)
    requires CutState(g, reuse, homes) && n in g.nodes && n in homes
    requires j < |n.previousNodes| && n.previousNodes[j] != null
    ensures n.previousNodes[j] in homes[n] && j < |g.previous[n]| && n.previousNodes[j] == g.previous[n][j]
  {
    assert NodeState(g, reuse, homes, n);
  }

  lemma {:induction false} HomesOfRunsAgree(runs: seq<Run>)
    requires NoDuplicates(ScheduledNodes(runs))
    ensures HomesAgree(HomesOf(runs))
    ensures forall n :: n in HomesOf(runs) ==> n in HomesOf(runs)[n]
    ensures forall n, m :: n in HomesOf(runs) && m in HomesOf(runs)[n] ==> m in ScheduledNodes(runs)
  {
    if runs != [] {
      var front, last := runs[..|runs| - 1], runs[|runs| - 1];
      var scheduled := ScheduledNodes(front);
      assert forall i :: 0 <= i < |scheduled| ==> scheduled[i] == ScheduledNodes(runs)[i];
      HomesOfRunsAgree(front);
      HomesAreScheduled(front);
      assert last.nodes[..|last.nodes|] == last.nodes;
      forall n, m | n in last.nodes && m in scheduled ensures n != m {
        var i :| 0 <= i < |last.nodes| && last.nodes[i] == n;
        var j :| 0 <= j < |scheduled| && scheduled[j] == m;
        assert ScheduledNodes(runs)[|scheduled| + i] == n && ScheduledNodes(runs)[j] == m;
      }
      forall n | n in HomesOf(runs)
        ensures n in last.nodes ==> HomesOf(runs)[n] == last.nodes
        ensures n !in last.nodes ==> n in HomesOf(front) && HomesOf(runs)[n] == HomesOf(front)[n]
      {
        JoinedAt(HomesOf(front), last.nodes, |last.nodes|, n);
      }
      forall a, b | a in HomesOf(runs) && b in HomesOf(runs)
        ensures a in HomesOf(runs)[b] <==> b in HomesOf(runs)[a]
      {
        if a in last.nodes && b !in last.nodes {
          assert a !in scheduled;
        } else if a !in last.nodes && b in last.nodes {
          assert b !in scheduled;
        }
      }
    }
  }

  /**
   * Maximality against the real library: once run `k` is closed, no node that is ready can be added to its
   * modules, with any parameters at all, at any position after its producers.
   */
  lemma ClosedRunCannotGrow(g: QueryGraph, keys: seq<ModulesVector>, libraries: Libraries, runs: seq<Run>, k: nat,
                            n: QueryNode, position: nat, parameters: seq<int>)
    requires ValidSchedule(g, libraries, runs) && k < |runs|
    requires forall key :: key in libraries.bitstreams <==> key in keys
    requires Factored(Occurrences(keys), libraries.modules) && UniformParameters(Occurrences(keys))
    requires n in g.nodes && n !in ScheduledNodes(runs[..k + 1]) && Ready(g, ScheduledNodes(runs[..k + 1]), n)
    requires position <= |runs[k].modules| && AfterProducers(g, runs[k].nodes, runs[k].modules, n, position)
    ensures n.operationType != PassThrough
    ensures Blocked(g, runs[k].nodes, n) ||
            !Supports(libraries.bitstreams, runs[k].modules, position, n.operationType, parameters)
  {
    var run := runs[k];
    assert RunClosed(g, libraries, ScheduledNodes(runs[..k + 1]), run);
    assert !CanJoin(g, libraries, run, n);
    if Supports(libraries.bitstreams, run.modules, position, n.operationType, parameters) {
      var m := QueryOperation(n.operationType, parameters);
      var key := Inserted(run.modules, position, m);
      assert key[position] == m;
      KeyModulesOccur(keys, key, m);
      assert OperationOccurs(Occurrences(keys), n.operationType);
      SupportedIsCandidate(keys, libraries.bitstreams, libraries.modules, run.modules, position, n.operationType,
                           parameters);
    }
  }
}
