/** Extending the specification of one record to the whole configuration space of the crossbar. */
module CrossbarExtension {
  import opened Crossbar
  import opened Options

  /** The place of a selection, or of an entry, in its chunk counted from the other end. */
  function Mirror(x: nat): (m: nat)
    ensures m / DATAPATH_WIDTH == x / DATAPATH_WIDTH && m % DATAPATH_WIDTH == DATAPATH_WIDTH - 1 - x % DATAPATH_WIDTH
  {
    DATAPATH_WIDTH * (x / DATAPATH_WIDTH) + DATAPATH_WIDTH - 1 - x % DATAPATH_WIDTH
  }

  lemma MirrorIsInvolution(x: nat)
    ensures Mirror(Mirror(x)) == x
  {
  }

  /** What is written for a selection when its record starts at `start`. */
  function Selected(selection: int, start: int): (s: int)
    ensures selection == -1 ==> s == -1
    ensures selection >= 0 && start >= 0 ==> s == Mirror(selection + start)
  {
    if selection == -1 then -1
    else DATAPATH_WIDTH * Quotient(selection + start) + DATAPATH_WIDTH - 1 - Remainder(selection + start)
  }

  /** The whole chunks of `written`. */
  function WholeChunks(count: nat): (whole: nat)
    ensures whole <= count < whole + DATAPATH_WIDTH && whole % DATAPATH_WIDTH == 0
  {
    count - count % DATAPATH_WIDTH
  }

  /** `extended` holds the whole chunks of `written`, each of them back to front. */
  ghost predicate Mirrored(written: seq<int>, extended: seq<int>) {
    && |extended| == WholeChunks(|written|)
    && forall k: nat {:trigger Mirror(k)} :: k < |extended| ==>
         Mirror(k) < |extended| && extended[Mirror(k)] == written[k]
  }

  function Reversed(s: seq<int>): (r: seq<int>) {
    seq(|s|, i requires 0 <= i < |s| => s[|s| - 1 - i])
  }

  lemma MirrorInChunk(base: nat, k: nat)
    requires base % DATAPATH_WIDTH == 0 && base <= k < base + DATAPATH_WIDTH
    ensures Mirror(k) == base + DATAPATH_WIDTH - 1 - (k - base)
  {
  }

  lemma ChunkCompleted(written: seq<int>, extended: seq<int>, chunk: seq<int>)
    requires Mirrored(written, extended) && |chunk| == DATAPATH_WIDTH && written[|extended|..] <= chunk
    ensures Mirrored(written[..|extended|] + chunk, extended + Reversed(chunk))
  {
    hide Mirror;
    var more, longer := written[..|extended|] + chunk, extended + Reversed(chunk);
    forall k: nat | k < |longer| ensures Mirror(k) < |longer| && longer[Mirror(k)] == more[k] {
      if k >= |extended| {
        MirrorInChunk(|extended|, k);
      }
    }
  }

  /** One more value either leaves the last chunk open, or completes it. */
  lemma OneMoreWritten(written: seq<int>, extended: seq<int>, value: int)
    requires Mirrored(written, extended)
    ensures var more := written + [value];
            var chunk := more[|extended|..];
            && chunk == written[|extended|..] + [value] && |chunk| <= DATAPATH_WIDTH
            && if |chunk| == DATAPATH_WIDTH then Mirrored(more, extended + Reversed(chunk))
                 else Mirrored(more, extended)
  {
    var more := written + [value];
    var chunk := more[|extended|..];
    if |chunk| == DATAPATH_WIDTH {
      ChunkCompleted(written, extended, chunk);
      assert written[..|extended|] + chunk == more;
    }
  }

  /** The vectors that are filled while a specification is extended. */
  class Extension {
    var chunk: seq<int>
    var extended: seq<int>
    ghost var written: seq<int>

    /** `written` are all values so far: whole chunks are in `extended`, the rest is in `chunk`. */
    ghost predicate Valid()
      reads this
    {
      Mirrored(written, extended) && chunk == written[|extended|..]
    }

    constructor ()
      ensures Valid() && written == []
    {
      chunk, extended, written := [], [], [];
    }

    method InsertChunkIfFull()
      modifies this`chunk, this`extended
      ensures |old(chunk)| == DATAPATH_WIDTH ==> chunk == [] && extended == old(extended) + Reversed(old(chunk))
      ensures |old(chunk)| != DATAPATH_WIDTH ==> chunk == old(chunk) && extended == old(extended)
    {
      if |chunk| == DATAPATH_WIDTH {
        chunk := Reversed(chunk);
        extended := extended + chunk;
        chunk := [];
      }
    }

    method Insert(value: int)
      requires Valid()
      modifies this
      ensures Valid() && written == old(written) + [value]
    {
      OneMoreWritten(written, extended, value);
      written := written + [value];
      chunk := chunk + [value];
      InsertChunkIfFull();
    }

    method InsertValidRecordData(spec: seq<int>, start: int)
      requires Valid()
      modifies this
      ensures Valid() && written == old(written) + RecordData(spec, start)
    {
      for k := 0 to |spec|
        invariant Valid() && written == old(written) + RecordData(spec[..k], start)
      {
        assert RecordData(spec[..k + 1], start) == RecordData(spec[..k], start) + [Selected(spec[k], start)];
        Insert(Selected(spec[k], start));
      }
      assert spec[..|spec|] == spec;
    }

    method InsertJunkDataAfterRecord(start: nat, end: int, junk: int)
      requires Valid()
      modifies this
      ensures Valid() && written == old(written) + JunkData(start, end, junk)
    {
      var k := start;
      while k < end
        invariant Valid() && start <= k && (k <= end || k == start)
        invariant written == old(written) + JunkData(start, k, junk)
      {
        assert JunkData(start, k + 1, junk) == JunkData(start, k, junk) + [junk];
        Insert(junk);
        k := k + 1;
      }
    }
  }

  ghost function RecordData(spec: seq<int>, start: int): seq<int> {
    seq(|spec|, i requires 0 <= i < |spec| => Selected(spec[i], start))
  }

  ghost function JunkData(start: nat, end: int, junk: int): seq<int> {
    seq(if start < end then end - start else 0, i => junk)
  }

  ghost function Stride(spec: seq<int>, end: int): nat {
    if |spec| < end then end else |spec|
  }

  /** What is written for the given number of records, in this order. */
  ghost function Written(records: nat, spec: seq<int>, recordSize: int, junk: int, end: int): seq<int> {
    if records == 0 then []
    else
      Written(records - 1, spec, recordSize, junk, end) +
      RecordData(spec, recordSize * (records - 1)) + JunkData(|spec|, end, junk)
  }

  lemma {:induction false} WrittenAt(records: nat, spec: seq<int>, recordSize: int, junk: int, end: int)
    ensures |Written(records, spec, recordSize, junk, end)| == records * Stride(spec, end)
    ensures forall r: nat, i: nat {:trigger Entry(r, i, Stride(spec, end))} :: r < records && i < Stride(spec, end) ==>
              && Entry(r, i, Stride(spec, end)) < records * Stride(spec, end)
              && Written(records, spec, recordSize, junk, end)[Entry(r, i, Stride(spec, end))] ==
                 if i < |spec| then Selected(spec[i], recordSize * r) else junk
  {
    if records > 0 {
      var stride := Stride(spec, end);
      var before := Written(records - 1, spec, recordSize, junk, end);
      WrittenAt(records - 1, spec, recordSize, junk, end);
      forall r: nat, i: nat | r < records && i < stride
        ensures Entry(r, i, stride) < records * stride
        ensures Written(records, spec, recordSize, junk, end)[Entry(r, i, stride)] ==
                if i < |spec| then Selected(spec[i], recordSize * r) else junk
      {
        EntryFits(r, i, stride, records);
        if r < records - 1 {
          EntryFits(r, i, stride, records - 1);
        } else {
          assert Entry(r, i, stride) == |before| + i;
        }
      }
    }
  }

  /** Entry `i` of record `r`. */
  ghost function Entry(r: nat, i: nat, stride: nat): nat {
    r * stride + i
  }

  lemma EntryFits(r: nat, i: nat, stride: nat, records: nat)
    requires r < records && i < stride
    ensures Entry(r, i, stride) < records * stride
  {
    assert (r + 1) * stride <= records * stride;
  }

  /** The whole chunks of what is written, each of them back to front. */
  ghost function Extended(written: seq<int>): (extended: seq<int>)
    ensures Mirrored(written, extended)
  {
    var whole := WholeChunks(|written|);
    var extended := seq(whole, k requires 0 <= k < whole => assert Mirror(k) < whole; written[Mirror(k)]);
    assert forall k: nat :: k < whole ==> Mirror(Mirror(k)) == k && Mirror(k) < whole;
    extended
  }

  lemma MirroredIsExtended(written: seq<int>, extended: seq<int>)
    requires Mirrored(written, extended)
    ensures extended == Extended(written)
  {
  }

  ghost predicate FitsCrossbar(spec: seq<int>) {
    |spec| <= DDR_BURST_SIZE && forall x :: x in spec ==> x < DDR_BURST_SIZE
  }

  /** Whether the configuration space can hold the specification; there must be one. */
  method IsSpecificationValid(spec: seq<int>) returns (valid: bool)
    requires spec != []
    ensures valid <==> FitsCrossbar(spec)
  {
    var largest := spec[0];
    for k := 1 to |spec|
      invariant largest in spec && forall j :: 0 <= j < k ==> spec[j] <= largest
    {
      if spec[k] > largest {
        largest := spec[k];
      }
    }
    valid := |spec| <= DDR_BURST_SIZE && largest < DDR_BURST_SIZE;
  }

  /** Extends a specification; fails exactly if the result does not fit the crossbar. */
  method ExtendSpecification(records: nat, spec: seq<int>, recordSize: int, junk: int, end: int)
    returns (extended: Option<seq<int>>)
    requires records * Stride(spec, end) >= DATAPATH_WIDTH
    ensures var result := Extended(Written(records, spec, recordSize, junk, end));
            extended == if FitsCrossbar(result) then Some(result) else None
  {
    var extension := new Extension();
    for record := 0 to records
      invariant fresh(extension) && extension.Valid()
      invariant extension.written == Written(record, spec, recordSize, junk, end)
    {
      extension.InsertValidRecordData(spec, recordSize * record);
      extension.InsertJunkDataAfterRecord(|spec|, end, junk);
    }
    MirroredIsExtended(extension.written, extension.extended);
    WrittenAt(records, spec, recordSize, junk, end);
    var valid := IsSpecificationValid(extension.extended);
    extended := if valid then Some(extension.extended) else None;
  }

  /** Selections are places in a record, or -1 for none; records end at whole chunks. */
  ghost predicate IsRecordSpec(spec: seq<int>, recordSize: int, end: int) {
    && (forall x :: x in spec ==> x >= -1)
    && recordSize >= 0 && end > 0 && end % DATAPATH_WIDTH == 0 && |spec| <= end
  }

  /** The value for entry `i` of record `r`. */
  ghost function Value(spec: seq<int>, recordSize: nat, junk: int, r: nat, i: nat): int
    requires forall x :: x in spec ==> x >= -1
  {
    if i >= |spec| then junk
    else assert spec[i] in spec; if spec[i] == -1 then -1 else Mirror(spec[i] + recordSize * r)
  }

  lemma {:induction false} WholeRecords(records: nat, end: nat)
    requires end % DATAPATH_WIDTH == 0
    ensures records * end % DATAPATH_WIDTH == 0
  {
    if records > 0 {
      WholeRecords(records - 1, end);
      assert records * end == (records - 1) * end + end;
    }
  }

  lemma WrittenIsWhole(records: nat, spec: seq<int>, recordSize: int, junk: int, end: int)
    requires IsRecordSpec(spec, recordSize, end)
    ensures |Written(records, spec, recordSize, junk, end)| == records * end
    ensures |Extended(Written(records, spec, recordSize, junk, end))| == records * end
  {
    hide Extended, Written;
    WrittenAt(records, spec, recordSize, junk, end);
    WholeRecords(records, end);
  }

  lemma MirrorIsInside(written: seq<int>, k: nat)
    requires k < |Extended(written)|
    ensures Mirror(k) < |Extended(written)| && Extended(written)[Mirror(k)] == written[k]
  {
  }

  /**
   * The closed form of the extension: entry `i` of record `r` is found at its mirrored index, and selects the mirrored
   * place of what it selects in its record.
   */
  lemma ExtensionAt(records: nat, spec: seq<int>, recordSize: int, junk: int, end: int, r: nat, i: nat)
    requires IsRecordSpec(spec, recordSize, end) && r < records && i < end
    ensures var extended := Extended(Written(records, spec, recordSize, junk, end));
            && |extended| == records * end && Mirror(Entry(r, i, end)) < |extended|
            && extended[Mirror(Entry(r, i, end))] == Value(spec, recordSize, junk, r, i)
  {
    hide Extended, Written, Entry, Mirror, Mirrored, Selected;
    WrittenAt(records, spec, recordSize, junk, end);
    WrittenIsWhole(records, spec, recordSize, junk, end);
    MirrorIsInside(Written(records, spec, recordSize, junk, end), Entry(r, i, end));
    if i < |spec| {
      assert spec[i] in spec;
      assert recordSize * r >= 0;
    }
  }

  /** The same, written out: entry `k` in the order of the records is at its place in the chunk from the other end. */
  lemma ExtensionInNumbers(records: nat, spec: seq<int>, recordSize: int, junk: int, end: int, r: nat, i: nat, k: nat,
                           x: int)
    requires IsRecordSpec(spec, recordSize, end) && r < records && i < end && k == r * end + i
    requires i < |spec| ==> x == spec[i] + recordSize * r
    ensures var extended := Extended(Written(records, spec, recordSize, junk, end));
            && k / 16 * 16 + 15 - k % 16 < |extended|
            && extended[k / 16 * 16 + 15 - k % 16] ==
               if i >= |spec| then junk else if spec[i] == -1 then -1 else x / 16 * 16 + 15 - x % 16
  {
    hide Extended, Written, Mirrored, Selected;
    ExtensionAt(records, spec, recordSize, junk, end, r, i);
    assert Entry(r, i, end) == k;
    if i < |spec| {
      assert spec[i] in spec && recordSize * r >= 0;
    }
  }

  lemma {:induction false} RowsAreApart(r: nat, s: nat, size: nat)
    ensures r < s ==> r * size + size <= s * size
  {
    if r < s {
      assert s * size == (s - 1) * size + size;
      RowsAreApart(r, s - 1, size);
    }
  }

  lemma IndexIsEntry(k: nat, end: nat, records: nat) returns (r: nat, i: nat)
    requires end > 0 && k < records * end
    ensures r < records && i < end && k == Entry(r, i, end)
  {
    r, i := k / end, k % end;
    assert k == end * r + i;
    RowsAreApart(records, r + 1, end);
  }

  /** Every index of the extension is that of some entry. */
  lemma EveryIndexIsEntry(records: nat, spec: seq<int>, recordSize: int, junk: int, end: int, k: nat)
    returns (r: nat, i: nat)
    requires IsRecordSpec(spec, recordSize, end) && k < |Extended(Written(records, spec, recordSize, junk, end))|
    ensures r < records && i < end && Mirror(k) == Entry(r, i, end) && k == Mirror(Entry(r, i, end))
  {
    hide Extended, Written, Entry, Mirror;
    WrittenIsWhole(records, spec, recordSize, junk, end);
    MirrorIsInside(Written(records, spec, recordSize, junk, end), k);
    MirrorIsInvolution(k);
    r, i := IndexIsEntry(Mirror(k), end, records);
  }

  lemma {:induction false} ChunkOfEntry(r: nat, i: nat, end: nat)
    requires end % DATAPATH_WIDTH == 0
    ensures Entry(r, i, end) / DATAPATH_WIDTH == r * (end / DATAPATH_WIDTH) + i / DATAPATH_WIDTH
    ensures Entry(r, i, end) % DATAPATH_WIDTH == i % DATAPATH_WIDTH
  {
    if r > 0 {
      ChunkOfEntry(r - 1, i, end);
      assert Entry(r, i, end) == Entry(r - 1, i, end) + end;
      assert r * (end / DATAPATH_WIDTH) == (r - 1) * (end / DATAPATH_WIDTH) + end / DATAPATH_WIDTH;
    }
  }

  /** Entries of one chunk belong to one record, and are in one chunk of it. */
  lemma SameChunkSameRecord(end: nat, r: nat, i: nat, s: nat, j: nat)
    requires end > 0 && end % DATAPATH_WIDTH == 0 && i < end && j < end
    requires Entry(r, i, end) / DATAPATH_WIDTH == Entry(s, j, end) / DATAPATH_WIDTH
    ensures r == s && i / DATAPATH_WIDTH == j / DATAPATH_WIDTH
  {
    ChunkOfEntry(r, i, end);
    ChunkOfEntry(s, j, end);
    RowsAreApart(r, s, end / DATAPATH_WIDTH);
    RowsAreApart(s, r, end / DATAPATH_WIDTH);
  }

  lemma MirroredSelectionsClash(x: nat, y: nat, shift: nat)
    ensures Mirror(x + shift) == Mirror(y + shift) <==> x == y
    ensures Remainder(Mirror(x + shift)) == Remainder(Mirror(y + shift)) <==> Remainder(x) == Remainder(y)
  {
    MirrorIsInvolution(x + shift);
    MirrorIsInvolution(y + shift);
    hide Mirror, Remainder;
    assert (x + shift) % DATAPATH_WIDTH == (y + shift) % DATAPATH_WIDTH <==> x % DATAPATH_WIDTH == y % DATAPATH_WIDTH;
  }

  /** Moving a record and mirroring it changes no clash between two of its selections. */
  lemma ValuesClash(spec: seq<int>, recordSize: nat, junk: int, r: nat, i: nat, j: nat)
    requires (forall x :: x in spec ==> x >= -1) && (junk == -1 || junk == -2)
    ensures var v, w := Value(spec, recordSize, junk, r, i), Value(spec, recordSize, junk, r, j);
            v != w && Remainder(v) == Remainder(w) <==>
            i < |spec| && j < |spec| && spec[i] != spec[j] && Remainder(spec[i]) == Remainder(spec[j])
  {
    hide Mirror;
    assert i < |spec| ==> spec[i] in spec;
    assert j < |spec| ==> spec[j] in spec;
    if i < |spec| && j < |spec| && spec[i] != -1 && spec[j] != -1 {
      MirroredSelectionsClash(spec[i], spec[j], recordSize * r);
    }
  }

  /** Extending a specification neither adds nor removes clashes of the input crossbar. */
  lemma ExtensionKeepsClashes(records: nat, spec: seq<int>, recordSize: int, junk: int, end: int)
    requires IsRecordSpec(spec, recordSize, end) && records > 0 && (junk == -1 || junk == -2)
    ensures InputClash(Extended(Written(records, spec, recordSize, junk, end))) <==> InputClash(spec)
  {
    hide Extended, Written, Mirrored, Value;
    var extended := Extended(Written(records, spec, recordSize, junk, end));
    if i: nat, j: nat :| InputsClash(spec, i, j) {
      ExtensionAt(records, spec, recordSize, junk, end, 0, i);
      ExtensionAt(records, spec, recordSize, junk, end, 0, j);
      ValuesClash(spec, recordSize, junk, 0, i, j);
      assert InputsClash(extended, Mirror(i), Mirror(j));
    }
    if p: nat, q: nat :| InputsClash(extended, p, q) {
      var r, i := EveryIndexIsEntry(records, spec, recordSize, junk, end, p);
      var s, j := EveryIndexIsEntry(records, spec, recordSize, junk, end, q);
      SameChunkSameRecord(end, r, i, s, j);
      ExtensionAt(records, spec, recordSize, junk, end, r, i);
      ExtensionAt(records, spec, recordSize, junk, end, r, j);
      ValuesClash(spec, recordSize, junk, r, i, j);
      assert InputsClash(spec, i, j);
    }
  }
}
