/** Pipeline order with several modules of one type: when it is kept, and a query for which it is not. */
module RepeatedTypes {
  import opened Sequences
  import opened QueryOperations
  import opened QueryNodes
  import opened Placement
  import opened SchedulingModel
  import opened NodeScheduler

  /** Wherever a module of a new type is put after the first module of type `first`, it comes after all of them. */
  ghost predicate OrderIsKept(modules: ModulesVector, m: QueryOperation, first: OperationType) {
    forall position: nat :: IndexOf(ModuleTypes(modules), first) < position <= |modules| ==>
      Before(Inserted(modules, position, m), first, m.operationType)
  }

  /** The search steps past the first module of the producer's type; that is enough exactly if there is no other. */
  lemma OrderKeptIffSingle(modules: ModulesVector, m: QueryOperation, first: OperationType)
    requires m.operationType != first && m.operationType !in ModuleTypes(modules) && first in ModuleTypes(modules)
    ensures OrderIsKept(modules, m, first) <==> multiset(ModuleTypes(modules))[first] == 1
  {
    var types := ModuleTypes(modules);
    var i := IndexOf(types, first);
    assert types[i] == first && multiset(types)[first] >= 1;
    if multiset(types)[first] == 1 {
      forall position: nat | i < position <= |modules|
        ensures Before(Inserted(modules, position, m), first, m.operationType)
      {
        BeforeNewModule(modules, position, m, first);
      }
    } else {
      var j := SecondOccurrence(types, i);
      var longer := Inserted(modules, i + 1, m);
      assert longer[j + 1].operationType == types[j] == first && longer[i + 1] == m;
      assert !Before(longer, first, m.operationType);
    }
  }

  lemma SecondOccurrence<T>(s: seq<T>, i: nat) returns (j: nat)
    requires i < |s| && multiset(s)[s[i]] >= 2 && IsFirst(s, s[i], i)
    ensures i < j < |s| && s[j] == s[i]
  {
    assert s == s[..i] + [s[i]] + s[i + 1..];
    assert s[i] !in s[..i];
    assert s[i] in multiset(s[i + 1..]);
    var k :| 0 <= k < |s[i + 1..]| && s[i + 1..][k] == s[i];
    j := i + 1 + k;
  }

  /** Where the module at `index` is once another has been inserted at `position`. */
  function Shifted(index: nat, position: nat): nat {
    if position <= index then index + 1 else index
  }

  const FILTER := QueryOperation(Filter, [])
  const JOIN := QueryOperation(Join, [])

  /** Bitstreams for one filter, for two, and for two with a join between them. */
  const LIBRARIES := Libraries(map[[FILTER] := "filter", [FILTER, FILTER] := "filters",
                                   [FILTER, JOIN, FILTER] := "join_between"],
                               map[Filter := [], Join := []])

  /** A filter feeds a filter, which feeds a join. */
  ghost predicate IsChain(g: Graph, first: QueryNode, second: QueryNode, join: QueryNode) {
    && first != second && first != join && second != join
    && first.operationType == second.operationType == Filter && join.operationType == Join
    && g.previous == map[first := [null], second := [first], join := [second, null]]
    && g.next == map[first := [second], second := [join], join := [null]]
    && first.isChecked == second.isChecked == [false]
    && first.outputStreamParameters == second.outputStreamParameters == seq(4, _ => [])
    && second.inputStreamParameters == seq(4, _ => []) && join.inputStreamParameters == seq(8, _ => [])
  }

  /** The only placement from `position` on is the one there. */
  lemma OnlyPlacement(g: Graph, run: Run, n: QueryNode, position: nat, r: ModulesVector)
    requires n in g.previous && n.operationType in {Filter, Join} && !Blocked(g, run.nodes, n)
    requires FirstAllowed(g, run.nodes, run.modules, n, position) && position <= |run.modules|
    requires r in LIBRARIES.bitstreams
    requires r == Inserted(run.modules, position, QueryOperation(n.operationType, []))
    ensures CanJoin(g, LIBRARIES, run, n)
    ensures forall location, other :: SuitableFor(g, LIBRARIES, run, n, location, other) ==>
              location == position && other == r
  {
    var options := LIBRARIES.modules[n.operationType];
    assert options == [] && Candidate(options, []);
    assert Supports(LIBRARIES.bitstreams, run.modules, position, n.operationType, []);
    assert AfterProducers(g, run.nodes, run.modules, n, position);
    forall location, other | SuitableFor(g, LIBRARIES, run, n, location, other)
      ensures location == position && other == r
    {
      var first :| FirstAllowed(g, run.nodes, run.modules, n, first)
                   && BestPlacement(LIBRARIES.bitstreams, run.modules, first, n.operationType, options, location,
                                    other);
      FirstAllowedIsOnly(g, run, n, position, first);
      assert position < location ==>
        NoneSupported(LIBRARIES.bitstreams, run.modules, position, n.operationType, options);
    }
  }

  lemma FirstAllowedIsOnly(g: Graph, run: Run, n: QueryNode, first: nat, other: int)
    requires n in g.previous
    requires FirstAllowed(g, run.nodes, run.modules, n, first) && FirstAllowed(g, run.nodes, run.modules, n, other)
    ensures other == first
  {
    assert AfterProducers(g, run.nodes, run.modules, n, first) && AfterProducers(g, run.nodes, run.modules, n, other);
  }

  lemma FoundAtFront<T>(s: seq<T>, x: T)
    requires s != [] && s[0] == x
    ensures IndexOf(s, x) == 0
  {
  }

  lemma FirstStep(g: Graph, first: QueryNode, second: QueryNode, join: QueryNode)
    requires IsChain(g, first, second, join)
    ensures CanJoin(g, LIBRARIES, Run([], []), first)
    ensures forall location, r :: SuitableFor(g, LIBRARIES, Run([], []), first, location, r) ==>
              location == 0 && r == [FILTER]
  {
    assert Inserted([], 0, FILTER) == [FILTER];
    OnlyPlacement(g, Run([], []), first, 0, [FILTER]);
  }

  lemma SecondStep(g: Graph, first: QueryNode, second: QueryNode, join: QueryNode)
    requires IsChain(g, first, second, join)
    ensures CanJoin(g, LIBRARIES, Run([FILTER], [first]), second)
    ensures forall location, r :: SuitableFor(g, LIBRARIES, Run([FILTER], [first]), second, location, r) ==>
              location == 1 && r == [FILTER, FILTER]
  {
    assert ModuleTypes([FILTER]) == [Filter];
    assert FedByModule(g, [first], second, 0);
    assert Inserted([FILTER], 1, FILTER) == [FILTER, FILTER];
    assert IndexOf<QueryNode?>(g.next[first], second) == 0;
    OnlyPlacement(g, Run([FILTER], [first]), second, 1, [FILTER, FILTER]);
  }

  lemma ThirdStep(g: Graph, first: QueryNode, second: QueryNode, join: QueryNode)
    requires IsChain(g, first, second, join)
    ensures CanJoin(g, LIBRARIES, Run([FILTER, FILTER], [first, second]), join)
    ensures forall location, r :: SuitableFor(g, LIBRARIES, Run([FILTER, FILTER], [first, second]), join, location, r)
              ==> location == 1 && r == [FILTER, JOIN, FILTER]
  {
    assert ModuleTypes([FILTER, FILTER]) == [Filter, Filter];
    assert FedByModule(g, [first, second], join, 0);
    FoundAtFront([Filter, Filter], Filter);
    assert Inserted([FILTER, FILTER], 1, JOIN) == [FILTER, JOIN, FILTER];
    assert IndexOf<QueryNode?>(g.next[second], join) == 0;
    OnlyPlacement(g, Run([FILTER, FILTER], [first, second]), join, 1, [FILTER, JOIN, FILTER]);
  }

  /**
   * The chain joins one run, one node after the other, and the search then puts the join's module in front of the
   * module of the filter that feeds it.
   */
  lemma RepeatedTypesBreakOrder(g: Graph, first: QueryNode, second: QueryNode, join: QueryNode, l0: int,
                                r0: ModulesVector, l1: nat, r1: ModulesVector, l2: nat, r2: ModulesVector)
    requires IsChain(g, first, second, join)
    requires SuitableFor(g, LIBRARIES, Run([], []), first, l0, r0)
    requires SuitableFor(g, LIBRARIES, Run(r0, [first]), second, l1, r1)
    requires SuitableFor(g, LIBRARIES, Run(r1, [first, second]), join, l2, r2)
    ensures l2 < |r2| && r2[l2] == JOIN && Shifted(l1, l2) < |r2| && r2[Shifted(l1, l2)] == FILTER
    ensures l2 < Shifted(l1, l2)
  {
    FirstStep(g, first, second, join);
    SecondStep(g, first, second, join);
    ThirdStep(g, first, second, join);
  }

  /** There are such placements: the chain is scheduled. */
  lemma ChainIsPlaced(g: Graph, first: QueryNode, second: QueryNode, join: QueryNode)
    requires IsChain(g, first, second, join)
    ensures SuitableFor(g, LIBRARIES, Run([], []), first, 0, [FILTER])
    ensures SuitableFor(g, LIBRARIES, Run([FILTER], [first]), second, 1, [FILTER, FILTER])
    ensures SuitableFor(g, LIBRARIES, Run([FILTER, FILTER], [first, second]), join, 1, [FILTER, JOIN, FILTER])
  {
    assert ModuleTypes([FILTER]) == [Filter] && ModuleTypes([FILTER, FILTER]) == [Filter, Filter];
    assert FedByModule(g, [first], second, 0) && FedByModule(g, [first, second], join, 0);
    FoundAtFront([Filter], Filter);
    FoundAtFront([Filter, Filter], Filter);
    assert FirstAllowed(g, [], [], first, 0) && FirstAllowed(g, [first], [FILTER], second, 1);
    assert FirstAllowed(g, [first, second], [FILTER, FILTER], join, 1);
    assert Inserted([], 0, FILTER) == [FILTER] && Inserted([FILTER], 1, FILTER) == [FILTER, FILTER];
    assert Inserted([FILTER, FILTER], 1, JOIN) == [FILTER, JOIN, FILTER];
  }
}
