/** Burst sizes and counts of DMA streams, in whole powers of two. */
module StreamParameters {
  import opened Crossbar
  import opened CrossbarExtension
  import opened PowersOfTwo
  import opened Options

  const DATAPATH_LENGTH := 32
  const DDR_SIZE_PER_CYCLE := 4
  const MAX_RECORDS_PER_DDR_BURST := 32

  /** The most records of one size, as a power of two, that fit a burst. */
  function FindMinViableRecordsPerDDRBurst(recordSize: nat): (count: nat)
    requires 0 < recordSize <= DDR_BURST_SIZE
  {
    var power := Power(FloorLog(DDR_BURST_SIZE / recordSize));
    if power < MAX_RECORDS_PER_DDR_BURST then power else MAX_RECORDS_PER_DDR_BURST
  }

  function CalculateChunksPerRecord(recordSize: nat): (chunks: nat)
    ensures DATAPATH_WIDTH * chunks >= recordSize && (chunks > 0 ==> DATAPATH_WIDTH * (chunks - 1) < recordSize)
  {
    (recordSize + DATAPATH_WIDTH - 1) / DATAPATH_WIDTH
  }

  /** The cycles a burst takes. */
  function CalculateDDRBurstLength(recordSize: nat, records: nat): (length: nat)
    ensures DDR_SIZE_PER_CYCLE * length >= recordSize * records
    ensures length > 0 ==> DDR_SIZE_PER_CYCLE * (length - 1) < recordSize * records
  {
    (recordSize * records + DDR_SIZE_PER_CYCLE - 1) / DDR_SIZE_PER_CYCLE
  }

  function FindNextPowerOfTwo(value: nat): (power: nat)
    requires value > 0
  {
    Power(CeilLog(value))
  }

  lemma NextPowerIsLeast(value: nat, k: nat)
    requires value > 0
    ensures FindNextPowerOfTwo(value) >= value
    ensures Power(k) >= value ==> FindNextPowerOfTwo(value) <= Power(k)
  {
    var c := CeilLog(value);
    if k < c {
      PowerGrows(k, c - 1);
    } else {
      PowerGrows(c, k);
    }
  }

  /** A count of records that divides a burst into whole chunks. */
  ghost predicate DividesBurst(count: int) {
    count in {1, 2, 4, 8, 16, 32}
  }

  lemma SmallPowers(k: nat)
    ensures Power(0) == 1 && Power(1) == 2 && Power(2) == 4 && Power(3) == 8 && Power(4) == 16 && Power(5) == 32
    ensures Power(k) <= 32 ==> DividesBurst(Power(k))
    ensures k >= 6 ==> Power(k) >= 64
  {
    assert Power(2) == 2 * Power(1);
    assert Power(3) == 2 * Power(2);
    assert Power(4) == 2 * Power(3);
    assert Power(5) == 2 * Power(4);
    assert Power(6) == 2 * Power(5);
    if k >= 6 {
      PowerGrows(6, k);
    }
  }

  lemma ProductFits(count: nat, size: nat, total: nat)
    requires size > 0
    ensures count <= total / size <==> count * size <= total
  {
    var q := total / size;
    assert q * size <= total < q * size + size;
    if count <= q {
      assert count * size <= q * size;
    } else {
      assert count * size >= (q + 1) * size;
    }
  }

  /** The input burst count is the largest power of two up to 32 with which a burst still fits. */
  lemma InputCountIsLargest(recordSize: nat, k: nat)
    requires 0 < recordSize <= DDR_BURST_SIZE
    ensures var count := FindMinViableRecordsPerDDRBurst(recordSize);
            && DividesBurst(count) && count * recordSize <= DDR_BURST_SIZE
            && (Power(k) <= MAX_RECORDS_PER_DDR_BURST && Power(k) * recordSize <= DDR_BURST_SIZE ==> Power(k) <= count)
  {
    var most := DDR_BURST_SIZE / recordSize;
    var log := FloorLog(most);
    SmallPowers(log);
    ProductFits(FindMinViableRecordsPerDDRBurst(recordSize), recordSize, DDR_BURST_SIZE);
    ProductFits(Power(k), recordSize, DDR_BURST_SIZE);
    if k > log {
      PowerGrows(log, k);
    } else {
      PowerGrows(k, log);
    }
  }

  function Divided(n: nat, divisor: nat): nat
    requires divisor > 0
  {
    n / divisor
  }

  /** The output burst count: as many records as fill the datapath; none when a record has more chunks than that. */
  function OutputRecordsPerDDRBurst(chunks: nat): (count: nat)
    requires chunks > 0
  {
    Divided(MAX_RECORDS_PER_DDR_BURST, FindNextPowerOfTwo(chunks))
  }

  lemma OutputCountFills(chunks: nat)
    requires 0 < chunks <= DATAPATH_LENGTH
    ensures var count := OutputRecordsPerDDRBurst(chunks);
            DividesBurst(count) && count * FindNextPowerOfTwo(chunks) == MAX_RECORDS_PER_DDR_BURST
  {
    SmallPowers(CeilLog(chunks));
    NextPowerIsLeast(chunks, 5);
  }

  /**
   * Records of more chunks than the datapath is long get the count 0. ExtendOutputSpecification divides by the count,
   * so it cannot be called for them.
   */
  lemma OutputCountIsZeroIff(chunks: nat)
    requires chunks > 0
    ensures OutputRecordsPerDDRBurst(chunks) == 0 <==> chunks > DATAPATH_LENGTH
  {
    NextPowerIsLeast(chunks, 5);
    SmallPowers(CeilLog(chunks));
    if chunks <= DATAPATH_LENGTH {
      OutputCountFills(chunks);
    }
  }

  datatype DMASetupData = DMASetupData(isInputStream: bool, chunksPerRecord: nat, recordsPerDDRBurst: nat,
                                       ddrBurstLength: nat, recordChunkIds: seq<(nat, nat)>)

  /** For every cycle of the datapath, the chunk of a record it carries. */
  method RecordChunkIds(chunksPerRecord: nat) returns (ids: seq<(nat, nat)>)
    requires chunksPerRecord > 0
    ensures |ids| == DATAPATH_LENGTH
    ensures forall i :: 0 <= i < DATAPATH_LENGTH ==> ids[i] == (i, i % FindNextPowerOfTwo(chunksPerRecord))
  {
    ids := [];
    for i := 0 to DATAPATH_LENGTH
      invariant |ids| == i
      invariant forall j :: 0 <= j < i ==> ids[j] == (j, j % FindNextPowerOfTwo(chunksPerRecord))
    {
      ids := ids + [(i, i % FindNextPowerOfTwo(chunksPerRecord))];
    }
  }

  /** The setup of a single-channel stream. Input records fill at most a burst; output records have chunks. */
  method CalculateDMAStreamSetupData(isInputStream: bool, chunksPerRecord: nat, recordSize: nat)
    returns (data: DMASetupData)
    requires chunksPerRecord > 0 && (isInputStream ==> 0 < recordSize <= DDR_BURST_SIZE)
    ensures data.isInputStream == isInputStream && data.chunksPerRecord == chunksPerRecord
    ensures isInputStream ==> data.recordsPerDDRBurst == FindMinViableRecordsPerDDRBurst(recordSize)
    ensures !isInputStream ==> data.recordsPerDDRBurst == OutputRecordsPerDDRBurst(chunksPerRecord)
    ensures isInputStream || chunksPerRecord <= DATAPATH_LENGTH ==> DividesBurst(data.recordsPerDDRBurst)
    ensures data.recordsPerDDRBurst == 0 <==> !isInputStream && chunksPerRecord > DATAPATH_LENGTH
    ensures data.ddrBurstLength == CalculateDDRBurstLength(recordSize, data.recordsPerDDRBurst)
    ensures |data.recordChunkIds| == DATAPATH_LENGTH
    ensures forall i :: 0 <= i < DATAPATH_LENGTH ==>
              data.recordChunkIds[i] == (i, i % FindNextPowerOfTwo(chunksPerRecord))
  {
    hide FindNextPowerOfTwo, FindMinViableRecordsPerDDRBurst, OutputRecordsPerDDRBurst, CalculateDDRBurstLength;
    var ids := RecordChunkIds(chunksPerRecord);
    var count;
    if isInputStream {
      InputCountIsLargest(recordSize, 0);
      count := FindMinViableRecordsPerDDRBurst(recordSize);
    } else {
      if chunksPerRecord <= DATAPATH_LENGTH {
        OutputCountFills(chunksPerRecord);
      }
      OutputCountIsZeroIff(chunksPerRecord);
      count := OutputRecordsPerDDRBurst(chunksPerRecord);
    }
    data := DMASetupData(isInputStream, chunksPerRecord, count, CalculateDDRBurstLength(recordSize, count), ids);
  }

  /** The selections lie inside a record. */
  ghost predicate InRecord(spec: seq<int>, recordSize: int) {
    forall x :: x in spec ==> -1 <= x < recordSize
  }

  /** A burst of records that divides the burst size is extended to exactly that size, and never refused. */
  lemma BurstFits(count: nat, spec: seq<int>, recordSize: nat, junk: int)
    requires DividesBurst(count) && InRecord(spec, recordSize) && |spec| <= DDR_BURST_SIZE / count
    requires count * recordSize <= DDR_BURST_SIZE && junk < 0
    ensures var end := DDR_BURST_SIZE / count;
            && IsRecordSpec(spec, recordSize, end)
            && |Extended(Written(count, spec, recordSize, junk, end))| == DDR_BURST_SIZE
            && FitsCrossbar(Extended(Written(count, spec, recordSize, junk, end)))
  {
    hide Extended, Written;
    var end := DDR_BURST_SIZE / count;
    WrittenIsWhole(count, spec, recordSize, junk, end);
    var extended := Extended(Written(count, spec, recordSize, junk, end));
    forall k: nat | k < |extended| ensures extended[k] < DDR_BURST_SIZE {
      var r, i := EveryIndexIsEntry(count, spec, recordSize, junk, end, k);
      ExtensionAt(count, spec, recordSize, junk, end, r, i);
      ValueFits(count, spec, recordSize, junk, r, i);
    }
  }

  lemma ValueFits(count: nat, spec: seq<int>, recordSize: nat, junk: int, r: nat, i: nat)
    requires InRecord(spec, recordSize) && count * recordSize <= DDR_BURST_SIZE && junk < 0 && r < count
    ensures Value(spec, recordSize, junk, r, i) < DDR_BURST_SIZE
  {
    if i < |spec| && spec[i] != -1 {
      assert spec[i] in spec;
      RowsAreApart(r, count, recordSize);
      assert recordSize * r == r * recordSize;
      var x := spec[i] + recordSize * r;
      assert x / DATAPATH_WIDTH < DDR_BURST_SIZE / DATAPATH_WIDTH;
    }
  }

  /** Input streams of one channel: what does not select comes as -1. */
  method ExtendSpecificationSingleChannel(recordSize: nat, spec: seq<int>, records: nat)
    returns (extended: Option<seq<int>>)
    requires records > 0 && records * Stride(spec, DDR_BURST_SIZE / records) >= DATAPATH_WIDTH
    ensures var result := Extended(Written(records, spec, recordSize, -1, DDR_BURST_SIZE / records));
            extended == if FitsCrossbar(result) then Some(result) else None
  {
    extended := ExtendSpecification(records, spec, recordSize, -1, DDR_BURST_SIZE / records);
  }

  /** Input streams of many channels. */
  method ExtendSpecificationMultiChannel(recordSize: nat, spec: seq<int>, records: nat, chunksPerRecord: nat)
    returns (extended: Option<seq<int>>)
    requires chunksPerRecord > 0
    requires records * Stride(spec, FindNextPowerOfTwo(chunksPerRecord) * DATAPATH_WIDTH) >= DATAPATH_WIDTH
    ensures var result := Extended(Written(records, spec, recordSize, -1,
                                           FindNextPowerOfTwo(chunksPerRecord) * DATAPATH_WIDTH));
            extended == if FitsCrossbar(result) then Some(result) else None
  {
    extended := ExtendSpecification(records, spec, recordSize, -1,
                                    FindNextPowerOfTwo(chunksPerRecord) * DATAPATH_WIDTH);
  }

  /** Output streams: -2 marks where a record ends. */
  method ExtendOutputSpecification(spec: seq<int>, records: nat, chunksPerRecord: nat)
    returns (extended: Option<seq<int>>)
    requires records > 0 && records * Stride(spec, DDR_BURST_SIZE / records) >= DATAPATH_WIDTH
    ensures var result := Extended(Written(records, spec, chunksPerRecord * DATAPATH_WIDTH, -2,
                                           DDR_BURST_SIZE / records));
            extended == if FitsCrossbar(result) then Some(result) else None
  {
    extended := ExtendSpecification(records, spec, chunksPerRecord * DATAPATH_WIDTH, -2, DDR_BURST_SIZE / records);
  }

  /** A burst takes at least one cycle and at most 128. */
  lemma BurstLengthFits(recordSize: nat, count: nat)
    requires 0 < count && 0 < recordSize && count * recordSize <= DDR_BURST_SIZE
    ensures 1 <= CalculateDDRBurstLength(recordSize, count) <= 128
  {
  }

  /** An input stream set up with its own burst count gets a full table, and a burst of at most 128 cycles. */
  lemma InputStreamFits(recordSize: nat, spec: seq<int>)
    requires 0 < recordSize <= DDR_BURST_SIZE && InRecord(spec, recordSize)
    requires |spec| <= DDR_BURST_SIZE / FindMinViableRecordsPerDDRBurst(recordSize)
    ensures var count := FindMinViableRecordsPerDDRBurst(recordSize);
            var extended := Extended(Written(count, spec, recordSize, -1, DDR_BURST_SIZE / count));
            && |extended| == DDR_BURST_SIZE && FitsCrossbar(extended)
            && (InputClash(extended) <==> InputClash(spec))
            && 1 <= CalculateDDRBurstLength(recordSize, count) <= 128
  {
    InputCountIsLargest(recordSize, 0);
    hide Extended, Written, FindMinViableRecordsPerDDRBurst, CalculateDDRBurstLength, InputClash, FitsCrossbar;
    var count := FindMinViableRecordsPerDDRBurst(recordSize);
    BurstLengthFits(recordSize, count);
    BurstFits(count, spec, recordSize, -1);
    ExtensionKeepsClashes(count, spec, recordSize, -1, DDR_BURST_SIZE / count);
  }

  /** The same for an output stream, whose records have at most 32 chunks. */
  lemma OutputStreamFits(chunks: nat, spec: seq<int>)
    requires 0 < chunks <= DATAPATH_LENGTH && InRecord(spec, chunks * DATAPATH_WIDTH)
    requires |spec| <= FindNextPowerOfTwo(chunks) * DATAPATH_WIDTH
    ensures var count := OutputRecordsPerDDRBurst(chunks);
            && DividesBurst(count)
            && var extended := Extended(Written(count, spec, chunks * DATAPATH_WIDTH, -2, DDR_BURST_SIZE / count));
            |extended| == DDR_BURST_SIZE && FitsCrossbar(extended)
  {
    hide Extended, Written, CeilLog, Power;
    var count, power := OutputRecordsPerDDRBurst(chunks), FindNextPowerOfTwo(chunks);
    OutputCountFills(chunks);
    NextPowerIsLeast(chunks, 0);
    assert count * chunks <= count * power;
    assert count * (chunks * DATAPATH_WIDTH) == (count * chunks) * DATAPATH_WIDTH;
    assert DDR_BURST_SIZE / count == power * DATAPATH_WIDTH;
    BurstFits(count, spec, chunks * DATAPATH_WIDTH, -2);
  }
}
