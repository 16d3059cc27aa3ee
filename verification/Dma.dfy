/** The control registers of the DMA engine. */
module Dma {
  import opened AccelerationConstants
  import opened PowersOfTwo
  import opened StreamParameters

  /** What the engine is told about each stream. */
  datatype StreamRegister = Params | Address | Size

  function BaseAddress(register: StreamRegister, isInput: bool): nat {
    match register
    case Params => if isInput then 64 else 65536
    case Address => if isInput then 128 else 65536 + 64
    case Size => if isInput then 192 else 65536 + 128
  }

  function RegisterAddress(register: StreamRegister, isInput: bool, streamId: nat): nat {
    BaseAddress(register, isInput) + streamId * 4
  }

  /** No two registers of the 16 streams share an address. */
  lemma RegistersAreApart(r: StreamRegister, isInput: bool, id: nat, s: StreamRegister, isInput': bool, id': nat)
    requires id < MAX_IO_STREAM_COUNT && id' < MAX_IO_STREAM_COUNT
    requires RegisterAddress(r, isInput, id) == RegisterAddress(s, isInput', id')
    ensures r == s && isInput == isInput' && id == id'
  {
  }

  /** The registers of inputs follow one another from 64 on, those of outputs from 65536 on, 16 of a kind. */
  lemma RegisterNumbers(id: nat)
    ensures RegisterAddress(Params, true, id) == 64 + 4 * id && RegisterAddress(Params, false, id) == 65536 + 4 * id
    ensures RegisterAddress(Address, true, id) == 128 + 4 * id && RegisterAddress(Address, false, id) == 65600 + 4 * id
    ensures RegisterAddress(Size, true, id) == 192 + 4 * id && RegisterAddress(Size, false, id) == 65664 + 4 * id
  {
  }

  /** The packed controller word. */
  function ControllerWord(burstLength: nat, records: nat, bufferStart: nat, bufferEnd: nat): int
    requires records > 0
  {
    (burstLength - 1) * 0x100_0000 + FloorLog(records) * 0x1_0000 + bufferStart * 0x100 + bufferEnd
  }

  lemma FourBytes(a: nat, b: nat, c: nat, d: nat)
    requires a < 0x80 && b < 0x100 && c < 0x100 && d < 0x100
    ensures var word := a * 0x100_0000 + b * 0x1_0000 + c * 0x100 + d;
            && 0 <= word < 0x8000_0000
            && word / 0x100_0000 == a && word / 0x1_0000 % 0x100 == b && word / 0x100 % 0x100 == c && word % 0x100 == d
  {
    var word := a * 0x100_0000 + b * 0x1_0000 + c * 0x100 + d;
    assert word / 0x100 == a * 0x1_0000 + b * 0x100 + c;
    assert word / 0x1_0000 == a * 0x100 + b;
  }

  /** The word is a positive 32-bit integer, and each byte of it is one of the fields. */
  lemma WordDecodes(burstLength: nat, records: nat, bufferStart: nat, bufferEnd: nat)
    requires 1 <= burstLength <= 128 && DividesBurst(records) && bufferStart < 0x100 && bufferEnd < 0x100
    ensures var word := ControllerWord(burstLength, records, bufferStart, bufferEnd);
            && 0 <= word < 0x8000_0000
            && word / 0x100_0000 + 1 == burstLength
            && Power(word / 0x1_0000 % 0x100) == records
            && word / 0x100 % 0x100 == bufferStart
            && word % 0x100 == bufferEnd
  {
    var log := FloorLog(records);
    SmallPowers(log);
    PowersOnly(log, records);
    assert log < 6;
    FourBytes(burstLength - 1, log, bufferStart, bufferEnd);
  }

  lemma PowersOnly(log: nat, records: nat)
    requires DividesBurst(records) && Power(log) <= records < 2 * Power(log)
    ensures Power(log) == records
  {
    SmallPowers(log);
  }

  /** The registers that have been written. */
  class DMA {
    var registers: map<nat, int>

    constructor ()
      ensures registers == map[]
    {
      registers := map[];
    }

    method SetControllerParams(isInput: bool, streamId: nat, burstLength: nat, records: nat, bufferStart: nat,
                               bufferEnd: nat)
      requires records > 0
      modifies this
      ensures registers == old(registers)[RegisterAddress(Params, isInput, streamId) :=
                                          ControllerWord(burstLength, records, bufferStart, bufferEnd)]
      ensures var register := 4 * streamId + if isInput then 64 else 65536;
              register in registers
              && (1 <= burstLength <= 128 && DividesBurst(records) && bufferStart < 0x100 && bufferEnd < 0x100 ==>
                    && registers[register] / 0x100_0000 + 1 == burstLength
                    && Power(registers[register] / 0x1_0000 % 0x100) == records
                    && registers[register] / 0x100 % 0x100 == bufferStart && registers[register] % 0x100 == bufferEnd)
    {
      if 1 <= burstLength <= 128 && DividesBurst(records) && bufferStart < 0x100 && bufferEnd < 0x100 {
        WordDecodes(burstLength, records, bufferStart, bufferEnd);
      }
      var base := if isInput then 64 else 65536;
      registers := registers[base + streamId * 4 :=
                             (burstLength - 1) * 0x100_0000 + FloorLog(records) * 0x1_0000 +
                             bufferStart * 0x100 + bufferEnd];
    }
  }
}
