/** Clashes in a crossbar specification: which selections cannot be routed, and when rearranging them would help. */
module Crossbar {
  const DATAPATH_WIDTH := 16
  const DDR_BURST_SIZE := 512

  method AnyOf<T>(s: set<T>) returns (x: T)
    requires s != {}
    ensures x in s
  {
    x :| x in s;
  }

  /** Division and remainder as the source computes them: towards zero. */
  function Quotient(x: int): (q: int)
    ensures x >= 0 ==> q == x / DATAPATH_WIDTH
  {
    if x >= 0 then x / DATAPATH_WIDTH else -(-x / DATAPATH_WIDTH)
  }

  function Remainder(x: int): (r: int)
    ensures x >= 0 ==> r == x % DATAPATH_WIDTH
    ensures x == Quotient(x) * DATAPATH_WIDTH + r && -DATAPATH_WIDTH < r < DATAPATH_WIDTH
    ensures r < 0 ==> x < 0
    ensures r > 0 ==> x > 0
  {
    if x >= 0 then x % DATAPATH_WIDTH else -(-x % DATAPATH_WIDTH)
  }

  /** Positions `i` and `j` of one chunk select different places that arrive in the same column. */
  ghost predicate InputsClash(spec: seq<int>, i: nat, j: nat) {
    && i < |spec| && j < |spec| && i / DATAPATH_WIDTH == j / DATAPATH_WIDTH
    && spec[i] != spec[j] && Remainder(spec[i]) == Remainder(spec[j])
  }

  ghost predicate InputClash(spec: seq<int>) {
    exists i: nat, j: nat :: InputsClash(spec, i, j)
  }

  /** Some values of the chunk differ, but arrive in one column. */
  ghost predicate SetClash(chunk: set<int>) {
    exists x, y :: x in chunk && y in chunk && x != y && Remainder(x) == Remainder(y)
  }

  ghost predicate SomeRemainder(values: set<int>, r: int) {
    exists x :: x in values && Remainder(x) == r
  }

  method IsChunkClashing(chunk: set<int>) returns (clash: bool)
    ensures clash <==> SetClash(chunk)
  {
    var rest: set<int>, positions: set<int> := chunk, {};
    ghost var seen: set<int> := {};
    while rest != {}
      invariant seen + rest == chunk && seen !! rest
      invariant forall r {:trigger r in positions} :: r in positions <==> SomeRemainder(seen, r)
      invariant !SetClash(seen)
    {
      var selected := AnyOf(rest);
      if Remainder(selected) in positions {
        return true;
      }
      positions := positions + {Remainder(selected)};
      rest := rest - {selected};
      seen := seen + {selected};
    }
    assert seen == chunk;
    clash := false;
  }

  ghost predicate ClashBefore(spec: seq<int>, end: nat) {
    exists i: nat, j: nat :: i < end && j < end && InputsClash(spec, i, j)
  }

  lemma SameChunk(start: nat, i: nat, j: nat)
    requires start % DATAPATH_WIDTH == 0
    ensures i / DATAPATH_WIDTH == j / DATAPATH_WIDTH && (start <= i || start <= j) ==> start <= i && start <= j
    ensures start <= i < start + DATAPATH_WIDTH && start <= j < start + DATAPATH_WIDTH ==>
         i / DATAPATH_WIDTH == j / DATAPATH_WIDTH
  {
  }

  lemma ChunkDecides(spec: seq<int>, start: nat, end: nat, chunk: set<int>)
    requires start % DATAPATH_WIDTH == 0 && start < end <= |spec|
    requires end == if start + DATAPATH_WIDTH < |spec| then start + DATAPATH_WIDTH else |spec|
    requires chunk == set k | start <= k < end :: spec[k]
    ensures ClashBefore(spec, end) <==> ClashBefore(spec, start) || SetClash(chunk)
  {
    forall i: nat, j: nat | i < end && j < end && InputsClash(spec, i, j) && !(i < start && j < start)
      ensures SetClash(chunk)
    {
      SameChunk(start, i, j);
      assert spec[i] in chunk && spec[j] in chunk;
    }
    if SetClash(chunk) {
      var x, y :| x in chunk && y in chunk && x != y && Remainder(x) == Remainder(y);
      var i: nat :| start <= i < end && spec[i] == x;
      var j: nat :| start <= j < end && spec[j] == y;
      SameChunk(start, i, j);
      assert InputsClash(spec, i, j);
    }
    if ClashBefore(spec, start) {
      var i: nat, j: nat :| i < start && j < start && InputsClash(spec, i, j);
      assert i < end && j < end && InputsClash(spec, i, j);
    }
  }

  /** Whether two selections of a chunk arrive in one column: true exactly when some chunk has such a pair. */
  method IsInputClashing(spec: seq<int>) returns (clash: bool)
    ensures clash <==> InputClash(spec)
  {
    var processed := 0;
    while processed != |spec|
      invariant processed <= |spec| && (processed == |spec| || processed % DATAPATH_WIDTH == 0)
      invariant !ClashBefore(spec, processed)
    {
      var end := if processed + DATAPATH_WIDTH < |spec| then processed + DATAPATH_WIDTH else |spec|;
      var chunk := set k | processed <= k < end :: spec[k];
      ChunkDecides(spec, processed, end, chunk);
      var chunkClashes := IsChunkClashing(chunk);
      if chunkClashes {
        return true;
      }
      processed := end;
    }
    clash := false;
  }

  /** Two selections in one column, at different depths, come from the same chunk. */
  ghost predicate OutputsClash(spec: seq<int>, i: nat, j: nat) {
    && i < |spec| && j < |spec| && i != j && i % DATAPATH_WIDTH == j % DATAPATH_WIDTH
    && spec[i] != -1 && spec[j] != -1 && Quotient(spec[i]) == Quotient(spec[j])
  }

  ghost predicate OutputClash(spec: seq<int>) {
    exists i: nat, j: nat :: OutputsClash(spec, i, j)
  }

  ghost predicate ColumnClash(column: seq<int>) {
    exists a: nat, b: nat :: a < b < |column| && column[a] != -1 && column[b] != -1
         && Quotient(column[a]) == Quotient(column[b])
  }

  method IsColumnClashing(column: seq<int>) returns (clash: bool)
    ensures clash <==> ColumnClash(column)
  {
    var chunks: set<int> := {};
    for k := 0 to |column|
      invariant forall q :: q in chunks <==> exists a :: 0 <= a < k && column[a] != -1 && Quotient(column[a]) == q
      invariant !ColumnClash(column[..k])
    {
      assert column[..k + 1] == column[..k] + [column[k]];
      if column[k] != -1 {
        if Quotient(column[k]) in chunks {
          return true;
        }
        chunks := chunks + {Quotient(column[k])};
      }
    }
    assert column[..|column|] == column;
    clash := false;
  }

  /** The values at one position of all chunks. */
  method ColumnOf(spec: seq<int>, position: nat) returns (column: seq<int>)
    requires position < DATAPATH_WIDTH < |spec|
    ensures |column| == (|spec| - position + DATAPATH_WIDTH - 1) / DATAPATH_WIDTH
    ensures forall c :: 0 <= c < |column| ==>
         position + DATAPATH_WIDTH * c < |spec| && column[c] == spec[position + DATAPATH_WIDTH * c]
  {
    column := [];
    var count := (|spec| - position + DATAPATH_WIDTH - 1) / DATAPATH_WIDTH;
    for chunk := 0 to count
      invariant |column| == chunk
      invariant forall c :: 0 <= c < chunk ==>
           position + DATAPATH_WIDTH * c < |spec| && column[c] == spec[position + DATAPATH_WIDTH * c]
    {
      column := column + [spec[position + DATAPATH_WIDTH * chunk]];
    }
  }

  lemma ColumnDecides(spec: seq<int>, position: nat, column: seq<int>)
    requires position < DATAPATH_WIDTH < |spec|
    requires |column| == (|spec| - position + DATAPATH_WIDTH - 1) / DATAPATH_WIDTH
    requires forall c :: 0 <= c < |column| ==>
         position + DATAPATH_WIDTH * c < |spec| && column[c] == spec[position + DATAPATH_WIDTH * c]
    ensures ColumnClash(column) <==> exists i: nat, j: nat :: i % DATAPATH_WIDTH == position && OutputsClash(spec, i, j)
  {
    if ColumnClash(column) {
      var a: nat, b: nat :| a < b < |column| && column[a] != -1 && column[b] != -1
           && Quotient(column[a]) == Quotient(column[b]);
      var i, j := position + DATAPATH_WIDTH * a, position + DATAPATH_WIDTH * b;
      assert i % DATAPATH_WIDTH == position && OutputsClash(spec, i, j);
    }
    if i: nat, j: nat :| i % DATAPATH_WIDTH == position && OutputsClash(spec, i, j) {
      var a, b := i / DATAPATH_WIDTH, j / DATAPATH_WIDTH;
      assert column[a] == spec[i] && column[b] == spec[j] && a != b;
      if a > b {
        a, b := b, a;
      }
      assert a < b < |column| && column[a] != -1;
    }
  }

  /** Whether one column is fed twice from a chunk: true exactly when two such selections exist. */
  method IsOutputClashing(spec: seq<int>) returns (clash: bool)
    ensures clash <==> OutputClash(spec)
  {
    if |spec| <= DATAPATH_WIDTH {
      return false;
    }
    for position := 0 to DATAPATH_WIDTH
      invariant forall i: nat, j: nat :: i % DATAPATH_WIDTH < position ==> !OutputsClash(spec, i, j)
    {
      var column := ColumnOf(spec, position);
      ColumnDecides(spec, position, column);
      var columnClashes := IsColumnClashing(column);
      if columnClashes {
        return true;
      }
    }
    clash := false;
  }

  /** The value selects something from chunk `q`. */
  ghost predicate FromChunk(x: int, q: int) {
    x != -1 && Quotient(x) == q
  }

  ghost function CountOf(spec: seq<int>, q: int): (count: nat)
    ensures count <= |spec|
  {
    if spec == [] then 0
    else CountOf(spec[..|spec| - 1], q) + if FromChunk(spec[|spec| - 1], q) then 1 else 0
  }

  /** Some chunk is selected from more often than there are columns. */
  ghost predicate Overwrites(spec: seq<int>) {
    exists q :: CountOf(spec, q) > DATAPATH_WIDTH
  }

  /** How often every chunk is selected from. */
  method CountChunks(spec: seq<int>) returns (counts: map<int, nat>)
    ensures forall q :: (if q in counts then counts[q] else 0) == CountOf(spec, q)
  {
    counts := map[];
    for k := 0 to |spec|
      invariant forall q :: (if q in counts then counts[q] else 0) == CountOf(spec[..k], q)
    {
      assert spec[..k + 1][..k] == spec[..k];
      if spec[k] != -1 {
        var chunk := Quotient(spec[k]);
        counts := counts[chunk := if chunk in counts then counts[chunk] + 1 else 1];
      }
    }
    assert spec[..|spec|] == spec;
  }

  method IsOutputOverwritingData(spec: seq<int>) returns (overwrites: bool)
    ensures overwrites <==> Overwrites(spec)
  {
    var counts := CountChunks(spec);
    var chunks := counts.Keys;
    while chunks != {}
      invariant chunks <= counts.Keys
      invariant forall q :: q in counts && q !in chunks ==> counts[q] <= DATAPATH_WIDTH
    {
      var chunk := AnyOf(chunks);
      if counts[chunk] > DATAPATH_WIDTH {
        return true;
      }
      chunks := chunks - {chunk};
    }
    overwrites := false;
  }

  /** Counting only depends on which values there are. */
  lemma {:induction false} CountWithout(spec: seq<int>, k: nat, q: int)
    requires k < |spec|
    ensures CountOf(spec, q) == CountOf(spec[..k] + spec[k + 1..], q) + if FromChunk(spec[k], q) then 1 else 0
  {
    var front := spec[..|spec| - 1];
    if k == |front| {
      assert spec[..k] + spec[k + 1..] == front;
    } else {
      CountWithout(front, k, q);
      var rest := spec[..k] + spec[k + 1..];
      assert rest[..|rest| - 1] == front[..k] + front[k + 1..];
    }
  }

  lemma {:induction false} CountOfPermutation(spec: seq<int>, other: seq<int>, q: int)
    requires multiset(spec) == multiset(other)
    ensures CountOf(spec, q) == CountOf(other, q)
  {
    if spec == [] {
      assert |multiset(other)| == 0;
    } else {
      var front, last := spec[..|spec| - 1], spec[|spec| - 1];
      assert spec == front + [last];
      assert last in multiset(other);
      var k :| 0 <= k < |other| && other[k] == last;
      var rest := other[..k] + other[k + 1..];
      assert other == other[..k] + [last] + other[k + 1..];
      assert multiset(other) == multiset(rest) + multiset{last};
      assert multiset(front) == multiset(spec) - multiset{last};
      CountOfPermutation(front, rest, q);
      CountWithout(other, k, q);
    }
  }

  /** The columns in which chunk `q` is selected from. */
  ghost function Columns(spec: seq<int>, q: int): set<nat> {
    set k: nat | k < |spec| && FromChunk(spec[k], q) :: k % DATAPATH_WIDTH
  }

  /** Without clashes there are as many such columns as selections. */
  lemma {:induction false} CountIsColumns(spec: seq<int>, q: int)
    requires !OutputClash(spec)
    ensures CountOf(spec, q) == |Columns(spec, q)|
  {
    if spec != [] {
      var n := |spec| - 1;
      var front := spec[..n];
      forall i: nat, j: nat ensures !OutputsClash(front, i, j) {
        assert !OutputsClash(spec, i, j);
      }
      CountIsColumns(front, q);
      if FromChunk(spec[n], q) {
        assert Columns(spec, q) == Columns(front, q) + {n % DATAPATH_WIDTH};
        if k: nat :| k < n && FromChunk(front[k], q) && k % DATAPATH_WIDTH == n % DATAPATH_WIDTH {
          assert OutputsClash(spec, k, n);
        }
        assert n % DATAPATH_WIDTH !in Columns(front, q);
      } else {
        assert Columns(spec, q) == Columns(front, q);
      }
    } else {
      assert Columns(spec, q) == {};
    }
  }

  lemma {:induction false} BoundedSet(s: set<nat>, bound: nat)
    requires forall x :: x in s ==> x < bound
    ensures |s| <= bound
  {
    if bound == 0 {
      assert s == {};
    } else {
      BoundedSet(s - {bound - 1}, bound - 1);
    }
  }

  /** One way: a specification that does not clash has no chunk that fills more than all columns. */
  lemma NoClashNoOverwrite(spec: seq<int>, other: seq<int>)
    requires multiset(spec) == multiset(other) && !OutputClash(other)
    ensures !Overwrites(spec)
  {
    forall q ensures CountOf(spec, q) <= DATAPATH_WIDTH {
      CountOfPermutation(spec, other, q);
      CountIsColumns(other, q);
      BoundedSet(Columns(other, q), DATAPATH_WIDTH);
    }
  }

  /** Selections from one chunk have one key, and no others have it. */
  function Key(x: int): int {
    if x == -1 then 0 else if Quotient(x) >= 0 then Quotient(x) + 1 else Quotient(x)
  }

  ghost predicate ByChunk(spec: seq<int>) {
    forall i, j :: 0 <= i < j < |spec| ==> Key(spec[i]) <= Key(spec[j])
  }

  ghost function InsertByChunk(spec: seq<int>, x: int): seq<int> {
    if spec == [] || Key(spec[|spec| - 1]) <= Key(x) then spec + [x]
    else InsertByChunk(spec[..|spec| - 1], x) + [spec[|spec| - 1]]
  }

  lemma {:induction false} InsertKeepsValues(spec: seq<int>, x: int)
    ensures multiset(InsertByChunk(spec, x)) == multiset(spec) + multiset{x}
  {
    if !(spec == [] || Key(spec[|spec| - 1]) <= Key(x)) {
      InsertKeepsValues(spec[..|spec| - 1], x);
      assert spec == spec[..|spec| - 1] + [spec[|spec| - 1]];
    }
  }

  lemma {:induction false} InsertKeepsOrder(spec: seq<int>, x: int)
    requires ByChunk(spec)
    ensures ByChunk(InsertByChunk(spec, x))
  {
    if !(spec == [] || Key(spec[|spec| - 1]) <= Key(x)) {
      var front, last := spec[..|spec| - 1], spec[|spec| - 1];
      InsertKeepsOrder(front, x);
      InsertKeepsValues(front, x);
      var more := InsertByChunk(front, x);
      forall i | 0 <= i < |more| ensures Key(more[i]) <= Key(last) {
        assert more[i] in multiset(more);
      }
    }
  }

  /** The selections sorted by chunk, so that those from one chunk are side by side. */
  ghost function ArrangedByChunk(spec: seq<int>): seq<int> {
    if spec == [] then [] else InsertByChunk(ArrangedByChunk(spec[..|spec| - 1]), spec[|spec| - 1])
  }

  lemma {:induction false} ArrangementIsSorted(spec: seq<int>)
    ensures ByChunk(ArrangedByChunk(spec)) && multiset(ArrangedByChunk(spec)) == multiset(spec)
  {
    if spec != [] {
      var front, last := spec[..|spec| - 1], spec[|spec| - 1];
      ArrangementIsSorted(front);
      InsertKeepsOrder(ArrangedByChunk(front), last);
      InsertKeepsValues(ArrangedByChunk(front), last);
      assert spec == front + [last];
    }
  }

  lemma {:induction false} CountOfSegment(spec: seq<int>, i: nat, j: nat, q: int)
    requires i <= j <= |spec| && forall k :: i <= k < j ==> FromChunk(spec[k], q)
    ensures CountOf(spec, q) >= j - i
  {
    if i < j {
      if j == |spec| {
        CountOfSegment(spec[..|spec| - 1], i, j - 1, q);
      } else {
        CountOfSegment(spec[..|spec| - 1], i, j, q);
      }
    }
  }

  lemma SameChunkApart(spec: seq<int>, i: nat, j: nat)
    requires ByChunk(spec) && !Overwrites(spec) && i < j < |spec|
    requires spec[i] != -1 && spec[j] != -1 && Quotient(spec[i]) == Quotient(spec[j])
    ensures i % DATAPATH_WIDTH != j % DATAPATH_WIDTH
  {
    var q := Quotient(spec[j]);
    forall k | i <= k < j + 1 ensures FromChunk(spec[k], q) {
      assert Key(spec[i]) <= Key(spec[k]) <= Key(spec[j]);
    }
    CountOfSegment(spec, i, j + 1, q);
    assert j - i < DATAPATH_WIDTH;
  }

  lemma ArrangedDoesNotClash(spec: seq<int>)
    requires ByChunk(spec) && !Overwrites(spec)
    ensures !OutputClash(spec)
  {
    forall i: nat, j: nat | i < |spec| && j < |spec| && i != j && spec[i] != -1 && spec[j] != -1
         && Quotient(spec[i]) == Quotient(spec[j])
      ensures i % DATAPATH_WIDTH != j % DATAPATH_WIDTH
    {
      SameChunkApart(spec, if i < j then i else j, if i < j then j else i);
    }
  }

  /**
   * The check behind the error "Unresolvable input!" is exact: a specification passes it if and only if its
   * selections can be ordered so that no column is fed twice from a chunk.
   */
  lemma OverwritesIffUnresolvable(spec: seq<int>)
    ensures !Overwrites(spec) <==> exists other :: multiset(other) == multiset(spec) && !OutputClash(other)
  {
    if !Overwrites(spec) {
      var other := ArrangedByChunk(spec);
      ArrangementIsSorted(spec);
      forall q ensures CountOf(other, q) <= DATAPATH_WIDTH {
        CountOfPermutation(spec, other, q);
      }
      ArrangedDoesNotClash(other);
    }
    if other :| multiset(other) == multiset(spec) && !OutputClash(other) {
      NoClashNoOverwrite(spec, other);
    }
  }

  /** Gives clashing specifications up: they are replaced by one that selects nothing. */
  method ResolveInputClashes(spec: seq<int>) returns (resolved: seq<int>)
    ensures resolved == (if InputClash(spec) then [-1] else spec) && !InputClash(resolved)
  {
    resolved := spec;
    var clash := IsInputClashing(resolved);
    while clash
      invariant clash <==> InputClash(resolved)
      invariant resolved == spec || (resolved == [-1] && InputClash(spec))
      decreases resolved != [-1]
    {
      resolved := [-1];
      clash := IsInputClashing(resolved);
    }
  }

  /** The same for outputs; it fails exactly for what no order of the selections could resolve. */
  method ResolveOutputClashesSingleChannel(spec: seq<int>) returns (ok: bool, resolved: seq<int>)
    ensures ok <==> exists other :: multiset(other) == multiset(spec) && !OutputClash(other)
    ensures ok ==> resolved == (if OutputClash(spec) then [-1] else spec) && !OutputClash(resolved)
  {
    resolved := spec;
    var overwrites := IsOutputOverwritingData(spec);
    OverwritesIffUnresolvable(spec);
    ok := !overwrites;
    if ok {
      var clash := IsOutputClashing(resolved);
      while clash
        invariant clash <==> OutputClash(resolved)
        invariant resolved == spec || (resolved == [-1] && OutputClash(spec))
        decreases resolved != [-1]
      {
        resolved := [-1];
        clash := IsOutputClashing(resolved);
      }
    }
  }
}
