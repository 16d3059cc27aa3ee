/** Which inputs wait for which run with a block that an earlier run has handed over. */
module MemoryPlan {
  import opened Sequences
  import opened QueryNodes
  import opened ExternalLinks
  import opened BlockTables

  /** A scheduled graph: what it was, and which nodes share a run. */
  datatype Plan = Plan(g: QueryGraph, reuse: ReusePolicy, homes: Homes)

  ghost predicate InPlan(plan: Plan, n: QueryNode) {
    n in plan.g.nodes && n in plan.homes
  }

  ghost function KindOf(plan: Plan, n: QueryNode, i: int): LinkKind
    requires InPlan(plan, n) && 0 <= i < |plan.g.next[n]|
  {
    LinkKindOf(plan.g, plan.reuse, plan.homes[n], n, i)
  }

  ghost predicate MemoryLink(plan: Plan, n: QueryNode, i: nat) {
    InPlan(plan, n) && i < |plan.g.next[n]| && KindOf(plan, n, i) == Memory
  }

  /** The input slot a memory link leads to. */
  ghost function Target(plan: Plan, n: QueryNode, i: nat): Place
    requires MemoryLink(plan, n, i)
  {
    InputOf(plan.g.next[n][i].name, Slot(plan.g, n, i))
  }

  ghost function Targets(plan: Plan, producers: set<QueryNode>): iset<Place> {
    iset n, i: nat | n in producers && MemoryLink(plan, n, i) :: Target(plan, n, i)
  }

  ghost predicate IsNamed(nodes: set<QueryNode>, name: string) {
    exists n :: n in nodes && n.name == name
  }

  ghost function InputsOf(nodes: set<QueryNode>): iset<Place> {
    iset p: Place | p.InputOf? && IsNamed(nodes, p.name)
  }

  /** The inputs that nodes in `done` have handed a block to, and whose own nodes are still to run. */
  ghost function Waiting(plan: Plan, done: set<QueryNode>): iset<Place> {
    Targets(plan, done) - InputsOf(done)
  }

  ghost function Members(nodes: seq<QueryNode>): set<QueryNode> {
    set n | n in nodes
  }

  ghost predicate AllInPlan(plan: Plan, nodes: seq<QueryNode>) {
    forall n {:trigger InPlan(plan, n)} :: n in nodes ==> InPlan(plan, n)
  }

  /** `nodes` is a run of the plan, and neither its nodes nor what they feed have run. */
  ghost predicate NextRun(plan: Plan, done: set<QueryNode>, nodes: seq<QueryNode>) {
    && NoDuplicates(nodes) && AllInPlan(plan, nodes)
    && forall n {:trigger InPlan(plan, n)} :: n in nodes ==>
         InPlan(plan, n) && n !in done && plan.homes[n] == nodes && TargetsPending(plan, done, n)
  }

  ghost predicate TargetsPending(plan: Plan, done: set<QueryNode>, n: QueryNode)
    requires n in plan.g.nodes
  {
    forall i {:trigger plan.g.next[n][i]} :: 0 <= i < |plan.g.next[n]| && plan.g.next[n][i] != null ==>
         plan.g.next[n][i] !in done
  }

  /** A memory link leads out of its run, to a node that is still to run. */
  lemma TargetIsLater(plan: Plan, done: set<QueryNode>, nodes: seq<QueryNode>, n: QueryNode, i: nat)
    requires done <= plan.g.nodes && NextRun(plan, done, nodes) && n in nodes && MemoryLink(plan, n, i)
    ensures Target(plan, n, i) !in InputsOf(done + Members(nodes))
    ensures plan.g.next[n][i] !in done && plan.g.next[n][i] !in nodes
  {
    assert InPlan(plan, n);
    var t := plan.g.next[n][i];
    assert t !in nodes && t !in done && t in plan.g.nodes;
    assert Satisfies(plan.g, NamesAreUnique) && NameIsOwn(plan.g.nodes, t);
    forall m | m in done + Members(nodes) ensures m.name != t.name {
      assert m in nodes ==> InPlan(plan, m);
    }
  }

  /** One run later: what its nodes waited for is gone, and what they hand over has come. */
  lemma WaitingAfterRun(plan: Plan, done: set<QueryNode>, nodes: seq<QueryNode>)
    requires done <= plan.g.nodes && NextRun(plan, done, nodes)
    ensures Waiting(plan, done + Members(nodes)) ==
            (Waiting(plan, done) - InputsOf(Members(nodes))) + Targets(plan, Members(nodes))
  {
    forall p | p in Targets(plan, Members(nodes)) ensures p !in InputsOf(done + Members(nodes)) {
      var n, i: nat :| n in nodes && MemoryLink(plan, n, i) && p == Target(plan, n, i);
      TargetIsLater(plan, done, nodes, n, i);
    }
    assert Targets(plan, done + Members(nodes)) == Targets(plan, done) + Targets(plan, Members(nodes));
    assert InputsOf(done + Members(nodes)) == InputsOf(done) + InputsOf(Members(nodes));
  }

  /** Once every node that is fed has run, no block waits anywhere. */
  lemma NothingWaits(plan: Plan, done: set<QueryNode>)
    requires forall n, i: nat :: n in done && MemoryLink(plan, n, i) ==> plan.g.next[n][i] in done
    ensures Waiting(plan, done) == iset{}
  {
  }
}
