/** Blocks and sizes in each run: what a producer wrote is what its consumer finds, however many runs lie between. */
module BlockHistory {
  import opened QueryNodes
  import opened SchedulingModel
  import opened BlockTables
  import opened MemoryPlan
  import opened StreamSizes
  import opened RunSetup
  import opened BlockRelease
  import opened ExecutionPlan

  /** Output `i` of `n`, a node of run `a`, has a memory link to a node of run `b`. */
  ghost predicate LinkBetween(plan: Plan, runs: seq<Run>, a: nat, b: nat, n: QueryNode, i: nat)
    requires a < |runs| && b < |runs|
  {
    n in runs[a].nodes && MemoryLink(plan, n, i) && plan.g.next[n][i] in runs[b].nodes
  }

  /** If output `i` of `n` has a link from run `a` to run `b`, what was found at its target is what was written. */
  ghost predicate FoundAsWritten(plan: Plan, runs: seq<Run>, a: nat, b: nat, n: QueryNode, i: nat, written: Inventory,
                                 found: Inventory)
    requires a < |runs| && b < |runs|
  {
    LinkBetween(plan, runs, a, b, n, i) ==> Carried(written, OutputOf(n.name, i), found, Target(plan, n, i))
  }

  /** In the recorded runs every consumer found the very block that its producer wrote, and the size it noted. */
  ghost predicate Delivered(plan: Plan, runs: seq<Run>, snapshots: seq<Inventory>)
    requires |snapshots| <= |runs|
  {
    forall a: nat, b: nat, n, i: nat {:trigger FoundAsWritten(plan, runs, a, b, n, i, snapshots[a], snapshots[b])} ::
      a < |snapshots| && b < |snapshots| && n in runs[a].nodes ==>
      FoundAsWritten(plan, runs, a, b, n, i, snapshots[a], snapshots[b])
  }

  /** The link leads from run `a` to a node that has not run. */
  ghost predicate LinkPending(plan: Plan, runs: seq<Run>, a: nat, k: nat, n: QueryNode, i: nat)
    requires a < |runs| && k <= |runs|
  {
    n in runs[a].nodes && MemoryLink(plan, n, i) && plan.g.next[n][i] !in Executed(runs, k)
  }

  /** Every block on its way to a consumer is the one that its producer wrote. */
  ghost predicate Underway(plan: Plan, runs: seq<Run>, snapshots: seq<Inventory>, now: Inventory)
    requires |snapshots| <= |runs|
  {
    forall a: nat, n, i: nat {:trigger LinkPending(plan, runs, a, |snapshots|, n, i)} ::
      a < |snapshots| && n in runs[a].nodes && LinkPending(plan, runs, a, |snapshots|, n, i) ==>
      Carried(snapshots[a], OutputOf(n.name, i), now, Target(plan, n, i))
  }

  /** Blocks that wait are still under way when more blocks come, and sizes that wait stay. */
  lemma StaysUnderway(plan: Plan, runs: seq<Run>, snapshots: seq<Inventory>, now: Inventory, more: Inventory)
    requires |snapshots| <= |runs| && TopologicalOrder(plan.g, ScheduledNodes(runs))
    requires Underway(plan, runs, snapshots, now) && Grown(now.places, more.places)
    requires SizesWait(plan, Executed(runs, |snapshots|), now.inputs, more.inputs)
    ensures Underway(plan, runs, snapshots, more)
  {
    hide TopologicalOrder, Carried, Waiting, Executed, Grown;
    forall a: nat, n, i: nat | a < |snapshots| && n in runs[a].nodes && LinkPending(plan, runs, a, |snapshots|, n, i)
      ensures Carried(snapshots[a], OutputOf(n.name, i), more, Target(plan, n, i))
    {
      TargetWaits(plan, runs, a, |snapshots|, n, i);
      CarriedStays(snapshots[a], OutputOf(n.name, i), now, Target(plan, n, i), more);
    }
  }

  lemma SameSizesWait(plan: Plan, done: set<QueryNode>, inputs: SizeTable)
    ensures SizesWait(plan, done, inputs, inputs)
  {
  }

  lemma UnderwayAt(plan: Plan, runs: seq<Run>, snapshots: seq<Inventory>, now: Inventory, a: nat, b: nat, n: QueryNode,
                   i: nat)
    requires |snapshots| <= |runs| && Underway(plan, runs, snapshots, now)
    requires a < |snapshots| && b < |runs| && LinkBetween(plan, runs, a, b, n, i)
    requires plan.g.next[n][i] !in Executed(runs, |snapshots|)
    ensures MemoryLink(plan, n, i)
    ensures Carried(snapshots[a], OutputOf(n.name, i), now, Target(plan, n, i))
  {
    assert LinkPending(plan, runs, a, |snapshots|, n, i);
  }

  /** What a run finds at the target of an earlier link is what the producer wrote. */
  lemma RunFindsBlock(plan: Plan, runs: seq<Run>, snapshots: seq<Inventory>, before: Inventory, a: nat, n: QueryNode,
                      i: nat)
    requires plan == PlanOf(plan.g, plan.reuse, runs) && TopologicalOrder(plan.g, ScheduledNodes(runs))
    requires a <= |snapshots| < |runs| && Underway(plan, runs, snapshots, before)
    ensures FoundAsWritten(plan, runs, a, |snapshots|, n, i, (snapshots + [before])[a], before)
  {
    hide TopologicalOrder, PlanOf, Underway, Executed, Target, Carried;
    if LinkBetween(plan, runs, a, |snapshots|, n, i) {
      LinksLeadOn(plan, runs, a, |snapshots|, n, i);
      NotYetExecuted(plan.g, runs, |snapshots|, plan.g.next[n][i]);
      UnderwayAt(plan, runs, snapshots, before, a, |snapshots|, n, i);
    }
  }

  lemma LinkIsForward(plan: Plan, runs: seq<Run>, a: nat, b: nat, n: QueryNode, i: nat, written: Inventory,
                      found: Inventory)
    requires plan == PlanOf(plan.g, plan.reuse, runs) && TopologicalOrder(plan.g, ScheduledNodes(runs))
    requires b <= a < |runs|
    ensures FoundAsWritten(plan, runs, a, b, n, i, written, found)
  {
    hide TopologicalOrder, PlanOf, Target, Carried;
    if LinkBetween(plan, runs, a, b, n, i) {
      LinksLeadOn(plan, runs, a, b, n, i);
    }
  }

  lemma Appended<T>(s: seq<T>, x: T, j: nat)
    requires j <= |s|
    ensures (s + [x])[j] == if j < |s| then s[j] else x
  {
  }

  lemma LinkFindsBlock(plan: Plan, runs: seq<Run>, snapshots: seq<Inventory>, before: Inventory, a: nat, b: nat,
                       n: QueryNode, i: nat)
    requires plan == PlanOf(plan.g, plan.reuse, runs) && TopologicalOrder(plan.g, ScheduledNodes(runs))
    requires |snapshots| < |runs| && Delivered(plan, runs, snapshots) && Underway(plan, runs, snapshots, before)
    requires a <= |snapshots| && b <= |snapshots| && n in runs[a].nodes
    ensures FoundAsWritten(plan, runs, a, b, n, i, (snapshots + [before])[a], (snapshots + [before])[b])
  {
    hide TopologicalOrder, PlanOf, Underway, FoundAsWritten;
    Appended(snapshots, before, a);
    Appended(snapshots, before, b);
    if b <= a {
      LinkIsForward(plan, runs, a, b, n, i, (snapshots + [before])[a], (snapshots + [before])[b]);
    } else if b == |snapshots| {
      RunFindsBlock(plan, runs, snapshots, before, a, n, i);
    } else {
      assert FoundAsWritten(plan, runs, a, b, n, i, snapshots[a], snapshots[b]);
    }
  }

  lemma AllDelivered(plan: Plan, runs: seq<Run>, snapshots: seq<Inventory>)
    requires |snapshots| <= |runs|
    requires forall a: nat, b: nat, n, i: nat
               {:trigger FoundAsWritten(plan, runs, a, b, n, i, snapshots[a], snapshots[b])} ::
               a < |snapshots| && b < |snapshots| && n in runs[a].nodes ==>
               FoundAsWritten(plan, runs, a, b, n, i, snapshots[a], snapshots[b])
    ensures Delivered(plan, runs, snapshots)
  {
    hide FoundAsWritten;
  }

  /** What the next run finds at the targets of all earlier links is what their producers wrote. */
  lemma RunFindsBlocks(plan: Plan, runs: seq<Run>, snapshots: seq<Inventory>, before: Inventory)
    requires plan == PlanOf(plan.g, plan.reuse, runs) && TopologicalOrder(plan.g, ScheduledNodes(runs))
    requires |snapshots| < |runs| && Delivered(plan, runs, snapshots) && Underway(plan, runs, snapshots, before)
    ensures Delivered(plan, runs, snapshots + [before])
  {
    hide *;
    var all := snapshots + [before];
    forall a: nat, b: nat, n, i: nat | a < |all| && b < |all| && n in runs[a].nodes
      ensures FoundAsWritten(plan, runs, a, b, n, i, all[a], all[b])
    {
      LinkFindsBlock(plan, runs, snapshots, before, a, b, n, i);
    }
    AllDelivered(plan, runs, all);
  }

  lemma NotYetExecuted(g: QueryGraph, runs: seq<Run>, k: nat, t: QueryNode)
    requires TopologicalOrder(g, ScheduledNodes(runs)) && k < |runs| && t in runs[k].nodes
    ensures t !in Executed(runs, k)
  {
    OrderUpTo(g, runs, k);
    SegmentIsNew(g, ScheduledNodes(runs[..k]), runs[k].nodes);
  }

  /** A memory link leads to a later run. */
  lemma LinksLeadOn(plan: Plan, runs: seq<Run>, a: nat, b: nat, n: QueryNode, i: nat)
    requires plan == PlanOf(plan.g, plan.reuse, runs) && TopologicalOrder(plan.g, ScheduledNodes(runs))
    requires a < |runs| && b < |runs| && LinkBetween(plan, runs, a, b, n, i)
    ensures a < b
  {
    hide *;
    LinkEnds(plan, runs, a, b, n, i);
    RunsFollow(plan.g, plan.reuse, runs, a);
    TargetIsLater(plan, Executed(runs, a), runs[a].nodes, n, i);
    if b < a {
      ExecutedBefore(runs, b, a, plan.g.next[n][i]);
    }
  }

  lemma ExecutedBefore(runs: seq<Run>, j: nat, k: nat, n: QueryNode)
    requires j < k <= |runs| && n in runs[j].nodes
    ensures n in Executed(runs, k)
  {
    NodesBefore(runs, j, k, n);
  }

  lemma LinkEnds(plan: Plan, runs: seq<Run>, a: nat, b: nat, n: QueryNode, i: nat)
    requires a < |runs| && b < |runs| && LinkBetween(plan, runs, a, b, n, i)
    ensures n in runs[a].nodes && MemoryLink(plan, n, i)
    ensures n in plan.g.next && i < |plan.g.next[n]| && plan.g.next[n][i] in runs[b].nodes
  {
  }

  lemma OwnBlockIsSent(plan: Plan, runs: seq<Run>, k: nat, before: Inventory, after: Inventory, n: QueryNode, i: nat)
    requires TopologicalOrder(plan.g, ScheduledNodes(runs)) && k < |runs| && LinkPending(plan, runs, k, k + 1, n, i)
    requires HandedOn(plan, runs[k].nodes, Waiting(plan, Executed(runs, k + 1)), before, after)
    ensures Carried(before, OutputOf(n.name, i), after, Target(plan, n, i))
  {
    TargetWaits(plan, runs, k, k + 1, n, i);
    OriginOfTarget(plan, runs[k].nodes, n, i);
  }

  lemma HandedOnAt(plan: Plan, nodes: seq<QueryNode>, waiting: iset<Place>, before: Inventory, after: Inventory,
                   p: Place)
    requires HandedOn(plan, nodes, waiting, before, after) && p in waiting
    ensures Carried(before, Origin(plan, nodes, p), after, p)
  {
  }

  lemma EarlierBlockIsSent(plan: Plan, runs: seq<Run>, a: nat, k: nat, before: Inventory, after: Inventory,
                           n: QueryNode,
                           i: nat, written: Inventory)
    requires plan == PlanOf(plan.g, plan.reuse, runs) && TopologicalOrder(plan.g, ScheduledNodes(runs))
    requires a < k < |runs| && LinkPending(plan, runs, a, k + 1, n, i) && MemoryLink(plan, n, i)
         && OneEach(before.places)
    requires Carried(written, OutputOf(n.name, i), before, Target(plan, n, i))
    requires HandedOn(plan, runs[k].nodes, Waiting(plan, Executed(runs, k + 1)), before, after)
    ensures Carried(written, OutputOf(n.name, i), after, Target(plan, n, i))
  {
    hide *;
    TargetWaits(plan, runs, a, k + 1, n, i);
    EarlierBlockStays(plan, runs, a, k, n, i);
    HandedOnAt(plan, runs[k].nodes, Waiting(plan, Executed(runs, k + 1)), before, after, Target(plan, n, i));
    CarriedOn(written, OutputOf(n.name, i), before, Target(plan, n, i), after, Target(plan, n, i));
  }

  /** Clearing run `k` sends its own blocks on their way, and leaves the others there. */
  lemma RunSendsBlocks(plan: Plan, runs: seq<Run>, snapshots: seq<Inventory>, before: Inventory, after: Inventory)
    requires plan == PlanOf(plan.g, plan.reuse, runs) && TopologicalOrder(plan.g, ScheduledNodes(runs))
    requires |snapshots| < |runs| && Underway(plan, runs, snapshots, before) && OneEach(before.places)
    requires HandedOn(plan, runs[|snapshots|].nodes, Waiting(plan, Executed(runs, |snapshots| + 1)), before, after)
    ensures Underway(plan, runs, snapshots + [before], after)
  {
    hide TopologicalOrder, WellFormed, OneEach, HandedOn, PlanOf, Carried, Target, Executed, Waiting;
    forall a: nat, n, i: nat |
      a <= |snapshots| && n in runs[a].nodes && LinkPending(plan, runs, a, |snapshots| + 1, n, i)
      ensures Carried((snapshots + [before])[a], OutputOf(n.name, i), after, Target(plan, n, i))
    {
      var k := |snapshots|;
      if a == k {
        OwnBlockIsSent(plan, runs, k, before, after, n, i);
      } else {
        EarlierBlockStays(plan, runs, a, k, n, i);
        EarlierBlockIsSent(plan, runs, a, k, before, after, n, i, snapshots[a]);
      }
    }
  }

  /** The target of a link to a node that has not run is a place where a block waits. */
  lemma TargetWaits(plan: Plan, runs: seq<Run>, a: nat, k: nat, n: QueryNode, i: nat)
    requires TopologicalOrder(plan.g, ScheduledNodes(runs)) && a < k <= |runs| && LinkPending(plan, runs, a, k, n, i)
    ensures Target(plan, n, i) in Waiting(plan, Executed(runs, k))
  {
    ExecutedBefore(runs, a, k, n);
    ExecutedAreNodes(plan.g, runs, k);
    NameIsUnused(plan, Executed(runs, k), plan.g.next[n][i]);
  }

  lemma ExecutedAreNodes(g: QueryGraph, runs: seq<Run>, k: nat)
    requires TopologicalOrder(g, ScheduledNodes(runs)) && k <= |runs|
    ensures Executed(runs, k) <= g.nodes
  {
    PrefixOfSchedule(runs, k);
    forall m | m in ScheduledNodes(runs[..k]) ensures m in g.nodes {
      assert m in ScheduledNodes(runs);
    }
  }

  lemma NameIsUnused(plan: Plan, nodes: set<QueryNode>, t: QueryNode)
    requires nodes <= plan.g.nodes && t in plan.g.nodes && t !in nodes
    ensures !IsNamed(nodes, t.name)
  {
    assert Satisfies(plan.g, NamesAreUnique) && NameIsOwn(plan.g.nodes, t);
  }

  lemma EarlierBlockStays(plan: Plan, runs: seq<Run>, a: nat, k: nat, n: QueryNode, i: nat)
    requires plan == PlanOf(plan.g, plan.reuse, runs) && TopologicalOrder(plan.g, ScheduledNodes(runs))
    requires a < k < |runs| && LinkPending(plan, runs, a, k + 1, n, i)
    ensures LinkPending(plan, runs, a, k, n, i)
    ensures Origin(plan, runs[k].nodes, Target(plan, n, i)) == Target(plan, n, i)
  {
    RunIsSegment(runs, k);
    TargetWaits(plan, runs, a, k, n, i);
    RunsFollow(plan.g, plan.reuse, runs, k);
    OriginOfTaken(plan, Executed(runs, k), runs[k].nodes, Target(plan, n, i));
  }
}
