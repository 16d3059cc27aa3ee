/** Which places of a run need a block, when its set-up can succeed, and what stops it. */
module SetupConditions {
  import opened Sequences
  import opened AccelerationConstants
  import opened QueryNodes
  import opened ExternalLinks
  import opened MemoryManager
  import opened BlockTables
  import opened BlockStore
  import opened MemoryPlan
  import opened QueryManager

  ghost predicate Covers(all: set<Place>, places: iset<Place>) {
    forall p {:trigger p in places} :: p in places ==> p in all
  }

  /** There are enough blocks for one in each of the places. */
  ghost predicate FitsPool(places: iset<Place>) {
    exists all: set<Place> {:trigger Covers(all, places)} :: Covers(all, places) && |all| <= MAX_POSSIBLE_ALLOCATIONS
  }

  lemma FewerFit(fewer: iset<Place>, more: iset<Place>)
    requires fewer <= more && FitsPool(more)
    ensures FitsPool(fewer)
  {
    var all :| Covers(all, more) && |all| <= MAX_POSSIBLE_ALLOCATIONS;
    assert Covers(all, fewer);
  }

  ghost predicate IsTaken(places: Places, p: Place) {
    exists b :: b in places && places[b] == p
  }

  lemma OneEachWithout(places: Places, b: MemoryBlock)
    requires OneEach(places) && b in places
    ensures OneEach(places - {b}) && !IsTaken(places - {b}, places[b])
  {
    var rest := places - {b};
    forall c, d | c in rest && d in rest && rest[c] == rest[d] ensures c == d {
      assert places[c] == places[d];
    }
    forall c | c in rest ensures rest[c] != places[b] {
      assert places[c] == rest[c];
    }
  }

  lemma TakenWithout(places: Places, b: MemoryBlock, p: Place)
    requires b in places
    ensures IsTaken(places, p) <==> IsTaken(places - {b}, p) || p == places[b]
  {
    if IsTaken(places, p) && p != places[b] {
      var c :| c in places && places[c] == p;
      assert c in places - {b} && (places - {b})[c] == p;
    }
    if IsTaken(places - {b}, p) {
      var c :| c in places - {b} && (places - {b})[c] == p;
      assert places[c] == p;
    }
  }

  /** As many places are taken as there are blocks in them. */
  lemma {:induction false} PlacesTaken(places: Places) returns (all: set<Place>)
    requires OneEach(places)
    ensures |all| == |places.Keys|
    ensures forall p :: p in all <==> IsTaken(places, p)
    decreases |places.Keys|
  {
    hide OneEach;
    all := {};
    if places != map[] {
      var b :| b in places;
      var rest := places - {b};
      assert rest.Keys == places.Keys - {b};
      OneEachWithout(places, b);
      var others := PlacesTaken(rest);
      all := others + {places[b]};
      forall p ensures p in all <==> IsTaken(places, p) {
        TakenWithout(places, b, p);
      }
    }
  }

  lemma HeldPlaces(store: Store, filled: iset<Place>) returns (all: set<Place>)
    requires Holds(store, filled)
    ensures |all| == |store.pool.held|
    ensures forall p :: p in all <==> p in filled
  {
    LocatedIsOneEach(store.inputs, store.outputs, store.places);
    all := PlacesTaken(store.places);
    forall p ensures p in all <==> p in filled {
      assert store.At(p) != null <==> p in filled;
      if p in all {
        var b :| b in store.places && store.places[b] == p;
        assert store.At(p) == b;
      }
    }
  }

  lemma HeldFit(store: Store, filled: iset<Place>)
    requires Holds(store, filled)
    ensures FitsPool(filled)
  {
    var all := HeldPlaces(store, filled);
    assert Covers(all, filled);
  }

  lemma SmallerSet<T>(s: set<T>, t: set<T>)
    requires s <= t
    ensures |s| <= |t|
    ensures |s| == |t| ==> s == t
  {
    assert t == s + (t - s);
  }

  /** A seventh place does not fit. */
  lemma PoolIsFull(store: Store, filled: iset<Place>, place: Place)
    requires Holds(store, filled) && |store.pool.held| == MAX_POSSIBLE_ALLOCATIONS && place !in filled
    ensures !FitsPool(filled + iset{place})
  {
    var taken := HeldPlaces(store, filled);
    var more := taken + {place};
    forall all: set<Place> | Covers(all, filled + iset{place}) ensures |all| > MAX_POSSIBLE_ALLOCATIONS {
      assert more <= all;
      SmallerSet(more, all);
    }
  }

  /** The outputs of `n` before `limit` that need a block: those nothing in the run takes from. */
  ghost function OutputsTaken(plan: Plan, n: QueryNode, limit: nat): iset<Place>
    requires InPlan(plan, n)
  {
    iset p: Place | p.OutputOf? && p.name == n.name && p.index < limit && p.index < |plan.g.next[n]|
         && KindOf(plan, n, p.index) != Internal
  }

  /** Input `j` of `n` comes from its own run. */
  ghost predicate FedInside(plan: Plan, n: QueryNode, j: nat)
    requires InPlan(plan, n)
  {
    j < |plan.g.previous[n]| && plan.g.previous[n][j] != null && plan.g.previous[n][j] in plan.homes[n]
  }

  /** The inputs of `n` before `limit` that need a block: those nothing in the run feeds. */
  ghost function InputsTaken(plan: Plan, n: QueryNode, limit: nat): iset<Place>
    requires InPlan(plan, n)
  {
    iset p: Place | p.InputOf? && p.name == n.name && p.index < limit && p.index < |plan.g.previous[n]|
         && !FedInside(plan, n, p.index)
  }

  /** The places the first `k` nodes of a run take when it is set up. */
  ghost function RunTaken(plan: Plan, nodes: seq<QueryNode>, k: nat): iset<Place>
    requires k <= |nodes| && AllInPlan(plan, nodes)
  {
    if k == 0 then iset{}
    else assert nodes[k - 1] in nodes && InPlan(plan, nodes[k - 1]);
         RunTaken(plan, nodes, k - 1) + OutputsTaken(plan, nodes[k - 1], |plan.g.next[nodes[k - 1]]|) +
         InputsTaken(plan, nodes[k - 1], |plan.g.previous[nodes[k - 1]]|)
  }

  lemma {:induction false} TakenGrows(plan: Plan, nodes: seq<QueryNode>, less: nat, more: nat)
    requires less <= more <= |nodes| && AllInPlan(plan, nodes)
    ensures RunTaken(plan, nodes, less) <= RunTaken(plan, nodes, more)
  {
    if less < more {
      TakenGrows(plan, nodes, less, more - 1);
    }
  }

  /** The places that need a block while the run executes: those handed over for later, and its own. */
  ghost function RunNeeds(plan: Plan, done: set<QueryNode>, nodes: seq<QueryNode>): iset<Place>
    requires AllInPlan(plan, nodes)
  {
    Waiting(plan, done) + RunTaken(plan, nodes, |nodes|)
  }

  /** One of the outputs of `p` before `limit` leaves the run, so that nothing is left to point to. */
  ghost predicate LeavesBefore(plan: Plan, p: QueryNode, limit: nat) {
    InPlan(plan, p) && exists i: nat :: i < limit && i < |plan.g.next[p]| && KindOf(plan, p, i) != Internal
  }

  /** No output before the one that feeds input `j` of `n` leaves the run. */
  ghost predicate LinkReachable(plan: Plan, n: QueryNode, j: nat)
    requires InPlan(plan, n)
  {
    FedInside(plan, n, j) ==>
      var p := plan.g.previous[n][j];
      p in plan.g.nodes && !LeavesBefore(plan, p, IndexOf<QueryNode?>(plan.g.next[p], n))
  }

  /**
   * Setting up the sizes of `n` stays inside its vectors, and finds the outputs that feed it without meeting one that
   * has left the run.
   */
  ghost predicate SizesReachable(plan: Plan, n: QueryNode) {
    && InPlan(plan, n) && |plan.g.next[n]| <= |plan.g.previous[n]|
    && forall j: nat {:trigger LinkReachable(plan, n, j)} :: LinkReachable(plan, n, j)
  }

  /** Every stream of `n` has its four parameter vectors. */
  ghost predicate StreamsDescribed(g: QueryGraph, n: QueryNode) {
    && n in g.nodes
    && STREAM_PARAM_COUNT * |g.previous[n]| <= |n.inputStreamParameters|
    && STREAM_PARAM_COUNT * |g.next[n]| <= |n.outputStreamParameters|
  }

  /** How many of the first `limit` inputs of `n` come from outside the run. */
  ghost function ExternalCount(plan: Plan, n: QueryNode, limit: nat): nat
    requires InPlan(plan, n)
  {
    if limit == 0 then 0
    else ExternalCount(plan, n, limit - 1) + if FedInside(plan, n, limit - 1) then 0 else 1
  }

  /** How many stream IDs the run needs. */
  ghost function StreamDemand(plan: Plan, nodes: seq<QueryNode>): nat
    requires AllInPlan(plan, nodes)
  {
    if nodes == [] then 0
    else
      var front, n := nodes[..|nodes| - 1], nodes[|nodes| - 1];
      assert n in nodes && InPlan(plan, n);
      var inputs, outputs := |plan.g.previous[n]|, |plan.g.next[n]|;
      StreamDemand(plan, front) + ExternalCount(plan, n, inputs) + if outputs > inputs then outputs - inputs else 0
  }

  /** What the set-up of a run can come to. */
  datatype SetupStatus = AllSet | OutOfIDs | OutOfBlocks | NotDescribed | BadAccess

  /** The condition that each way to fail points to, for a run of the plan. */
  ghost predicate Obstacle(plan: Plan, done: set<QueryNode>, nodes: seq<QueryNode>, status: SetupStatus)
    requires AllInPlan(plan, nodes)
  {
    match status
    case AllSet => false
    case OutOfIDs => StreamDemand(plan, nodes) > MAX_IO_STREAM_COUNT
    case OutOfBlocks => !FitsPool(RunNeeds(plan, done, nodes))
    case NotDescribed => exists n :: n in nodes && !StreamsDescribed(plan.g, n)
    case BadAccess => exists n :: n in nodes && !SizesReachable(plan, n)
  }

  /** Nothing stands in the way of setting the run up. */
  ghost predicate CanSetUp(plan: Plan, done: set<QueryNode>, nodes: seq<QueryNode>)
    requires AllInPlan(plan, nodes)
  {
    forall status :: !Obstacle(plan, done, nodes, status)
  }
}
