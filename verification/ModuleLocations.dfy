/** The module location that a node remembers: when it still is where the node's module ends up. */
module ModuleLocations {
  import opened QueryOperations
  import opened QueryNodes
  import opened SchedulingModel
  import opened NodeScheduler
  import opened RepeatedTypes

  /** Where the module at `place` is once others have been inserted, one after the other. */
  function PlaceAfter(place: nat, insertions: seq<nat>): nat
    decreases |insertions|
  {
    if insertions == [] then place else PlaceAfter(Shifted(place, insertions[0]), insertions[1..])
  }

  /** Modules are inserted one after the other. */
  ghost predicate AreInserted(before: ModulesVector, insertions: seq<nat>, added: ModulesVector, after: ModulesVector)
    requires |insertions| == |added|
    decreases |insertions|
  {
    if insertions == [] then after == before
    else insertions[0] <= |before|
         && AreInserted(Inserted(before, insertions[0], added[0]), insertions[1..], added[1..], after)
  }

  /** It is the same module that is there then. */
  lemma {:induction false} ModuleMoves(before: ModulesVector, insertions: seq<nat>, added: ModulesVector,
                                       after: ModulesVector, place: nat)
    requires |insertions| == |added| && AreInserted(before, insertions, added, after) && place < |before|
    ensures PlaceAfter(place, insertions) < |after| && after[PlaceAfter(place, insertions)] == before[place]
    decreases |insertions|
  {
    if insertions != [] {
      var longer := Inserted(before, insertions[0], added[0]);
      assert longer[Shifted(place, insertions[0])] == before[place];
      ModuleMoves(longer, insertions[1..], added[1..], after, Shifted(place, insertions[0]));
    }
  }

  lemma {:induction false} PlaceGrows(place: nat, insertions: seq<nat>)
    ensures PlaceAfter(place, insertions) >= place
    decreases |insertions|
  {
    if insertions != [] {
      PlaceGrows(Shifted(place, insertions[0]), insertions[1..]);
    }
  }

  /** A location stays right exactly if all later modules of the run are inserted behind it. */
  lemma {:induction false} LocationStaysIff(place: nat, insertions: seq<nat>)
    ensures PlaceAfter(place, insertions) == place <==> forall i :: 0 <= i < |insertions| ==> insertions[i] > place
    decreases |insertions|
  {
    if insertions != [] {
      PlaceGrows(Shifted(place, insertions[0]), insertions[1..]);
      LocationStaysIff(Shifted(place, insertions[0]), insertions[1..]);
      assert insertions[0] > place ==>
          ((forall i :: 0 <= i < |insertions| ==> insertions[i] > place) <==>
           forall i :: 0 <= i < |insertions[1..]| ==> insertions[1..][i] > place);
    }
  }

  const FILTER := QueryOperation(Filter, [])
  const SORT := QueryOperation(LinearSort, [])

  /** Bitstreams for a sort alone, and for a filter in front of a sort. */
  const LIBRARIES := Libraries(map[[SORT] := "sort", [FILTER, SORT] := "filter_sort"],
                               map[LinearSort := [], Filter := []])

  /** A sort and a filter that have nothing to do with each other. */
  ghost predicate ArePlain(g: Graph, sort: QueryNode, filter: QueryNode) {
    && sort != filter && sort.operationType == LinearSort && filter.operationType == Filter
    && g.previous == map[sort := [null], filter := [null]] && g.next == map[sort := [null], filter := [null]]
  }

  /**
   * The sort opens a run and is remembered at the first place. Then the filter joins, and the only place for it is in
   * front, so that the filter's module is where the sort's is said to be.
   */
  lemma LocationGoesStale(g: Graph, sort: QueryNode, filter: QueryNode, l0: nat, r0: ModulesVector, l1: nat,
                          r1: ModulesVector)
    requires ArePlain(g, sort, filter)
    requires SuitableFor(g, LIBRARIES, Run([], []), sort, l0, r0)
    requires SuitableFor(g, LIBRARIES, Run(r0, [sort]), filter, l1, r1)
    ensures r1 == [FILTER, SORT] && l0 == 0 && PlaceAfter(l0, [l1]) == 1
  {
    hide SuitableFor, ArePlain;
    SortOpens(g, sort, filter, l0, r0);
    FilterJoins(g, sort, filter, l1, r1);
    assert PlaceAfter(0, [0]) == PlaceAfter(1, []) == 1;
  }

  lemma SortOpens(g: Graph, sort: QueryNode, filter: QueryNode, location: nat, r: ModulesVector)
    requires ArePlain(g, sort, filter) && SuitableFor(g, LIBRARIES, Run([], []), sort, location, r)
    ensures location == 0 && r == [SORT]
  {
    assert Inserted([], 0, SORT) == [SORT];
  }

  lemma FilterJoins(g: Graph, sort: QueryNode, filter: QueryNode, location: nat, r: ModulesVector)
    requires ArePlain(g, sort, filter) && SuitableFor(g, LIBRARIES, Run([SORT], [sort]), filter, location, r)
    ensures location == 0 && r == [FILTER, SORT]
  {
    assert Inserted([SORT], 0, FILTER) == [FILTER, SORT] && Inserted([SORT], 1, FILTER) == [SORT, FILTER];
  }

  /** There are such placements. */
  lemma BothArePlaced(g: Graph, sort: QueryNode, filter: QueryNode)
    requires ArePlain(g, sort, filter)
    ensures SuitableFor(g, LIBRARIES, Run([], []), sort, 0, [SORT])
    ensures SuitableFor(g, LIBRARIES, Run([SORT], [sort]), filter, 0, [FILTER, SORT])
  {
    assert Inserted([], 0, SORT) == [SORT] && Inserted([SORT], 0, FILTER) == [FILTER, SORT];
    assert FirstAllowed(g, [], [], sort, 0) && FirstAllowed(g, [sort], [SORT], filter, 0);
  }
}
