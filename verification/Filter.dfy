/** The filter module: clauses in disjunctive normal form, compiled into one mask per comparison and outcome. */
module Filter {
  import opened PowersOfTwo

  const DNF_CLAUSES := 32
  const COMPARE_LANES := 4
  const CHUNKS := 32
  const POSITIONS := 32

  datatype LiteralType = DontCare | Positive | Negative

  /** One comparison: a lane of the comparator of one integer of one chunk. */
  datatype Cell = Cell(lane: nat, chunk: nat, position: nat)

  /** A clause: whether it is used, and its literals. Cells without an entry are of the default type. */
  datatype DNFState = DNFState(used: bool, literals: map<Cell, LiteralType>)

  function LiteralOf(state: DNFState, cell: Cell): LiteralType {
    if cell in state.literals then state.literals[cell] else DontCare
  }

  ghost predicate Exists(cell: Cell) {
    cell.lane < COMPARE_LANES && cell.chunk < CHUNKS && cell.position < POSITIONS
  }

  /** The comparison came out as the literal wants it. */
  predicate Agrees(literal: LiteralType, outcome: bool) {
    match literal
    case DontCare => true
    case Positive => outcome
    case Negative => !outcome
  }

  /** Bit `k` of a word. */
  ghost predicate Bit(word: nat, k: nat) {
    if k == 0 then word % 2 == 1 else Bit(word / 2, k - 1)
  }

  /** The binary digit of 2 to the power `k`. */
  ghost predicate HasDigit(word: nat, k: nat) {
    word / Power(k) % 2 == 1
  }

  lemma {:induction false} BitIsDigit(word: nat, k: nat)
    ensures Bit(word, k) <==> HasDigit(word, k)
  {
    if k > 0 {
      BitIsDigit(word / 2, k - 1);
      DividedTwice(word, Power(k - 1));
    }
  }

  lemma DividedTwice(word: nat, p: nat)
    requires p > 0
    ensures word / 2 / p == word / (2 * p)
  {
    var q, rest := word / 2 / p, word / 2 % p;
    assert word / 2 == q * p + rest;
    assert word == q * (2 * p) + (2 * rest + word % 2);
    QuotientIs(word, 2 * p, q, 2 * rest + word % 2);
  }

  lemma QuotientIs(word: nat, d: nat, q: nat, rest: nat)
    requires word == q * d + rest && rest < d
    ensures word / d == q
  {
    var r := word / d;
    assert word == r * d + word % d;
    ProductGrows(r, q, d);
    ProductGrows(q, r, d);
  }

  lemma {:induction false} ProductGrows(a: nat, b: nat, d: nat)
    ensures a < b ==> a * d + d <= b * d
  {
    if a < b {
      assert b * d == (b - 1) * d + d;
      ProductGrows(a, b - 1, d);
    }
  }

  ghost function And(v: nat, w: nat): (u: nat) {
    if v == 0 || w == 0 then 0 else 2 * And(v / 2, w / 2) + if v % 2 == 1 && w % 2 == 1 then 1 else 0
  }

  lemma {:induction false} NoBitsInZero(k: nat)
    ensures !Bit(0, k)
  {
    if k > 0 {
      NoBitsInZero(k - 1);
    }
  }

  lemma {:induction false} AndIsBitwise(v: nat, w: nat, k: nat)
    ensures Bit(And(v, w), k) <==> Bit(v, k) && Bit(w, k)
  {
    if v == 0 || w == 0 {
      NoBitsInZero(k);
    } else if k > 0 {
      AndIsBitwise(v / 2, w / 2, k - 1);
    }
  }

  lemma {:induction false} NonZeroHasBit(word: nat) returns (k: nat)
    requires word != 0
    ensures Bit(word, k)
  {
    if word % 2 == 1 {
      k := 0;
    } else {
      var j := NonZeroHasBit(word / 2);
      k := j + 1;
    }
  }

  /** Clause `k` lets the cell pass with this outcome. */
  ghost predicate Passes(states: seq<DNFState>, cell: Cell, outcome: bool, k: nat)
    requires k < |states|
  {
    states[k].used && Agrees(LiteralOf(states[k], cell), outcome)
  }

  /** One bit for each of the clauses from `first` on, the first in the lowest. */
  ghost function Packed(states: seq<DNFState>, cell: Cell, outcome: bool, first: nat, clauses: nat): (word: nat)
    requires clauses <= |states|
    decreases clauses - first
  {
    if first >= clauses then 0
    else 2 * Packed(states, cell, outcome, first + 1, clauses) + if Passes(states, cell, outcome, first) then 1 else 0
  }

  /** Bit `k` of a mask says whether clause `k` lets the cell pass; there are no bits beyond the clauses. */
  lemma {:induction false} PackedBit(states: seq<DNFState>, cell: Cell, outcome: bool, first: nat, clauses: nat, k: nat)
    requires first <= clauses <= |states|
    ensures Bit(Packed(states, cell, outcome, first, clauses), k) <==>
         first + k < clauses && Passes(states, cell, outcome, first + k)
    decreases clauses - first
  {
    if first == clauses {
      NoBitsInZero(k);
    } else if k > 0 {
      PackedBit(states, cell, outcome, first + 1, clauses, k - 1);
    }
  }

  lemma {:induction false} PackedFits(states: seq<DNFState>, cell: Cell, outcome: bool, first: nat, clauses: nat)
    requires first <= clauses <= |states|
    ensures Packed(states, cell, outcome, first, clauses) < Power(clauses - first)
    decreases clauses - first
  {
    if first < clauses {
      PackedFits(states, cell, outcome, first + 1, clauses);
    }
  }

  function Address(cell: Cell, outcome: bool): nat {
    65536 + cell.position * 4 + (if outcome then 128 else 0) + cell.chunk * 256 + cell.lane * 8192
  }

  /** No two masks share a register. */
  lemma AddressesAreApart(a: Cell, x: bool, b: Cell, y: bool)
    requires Exists(a) && Exists(b) && Address(a, x) == Address(b, y)
    ensures a == b && x == y
  {
    var u, v := Address(a, x) - 65536, Address(b, y) - 65536;
    assert u == ((a.lane * 32 + a.chunk) * 2 + (if x then 1 else 0)) * 128 + a.position * 4;
    assert v == ((b.lane * 32 + b.chunk) * 2 + (if y then 1 else 0)) * 128 + b.position * 4;
    assert u / 128 == (a.lane * 32 + a.chunk) * 2 + (if x then 1 else 0);
    assert v / 128 == (b.lane * 32 + b.chunk) * 2 + (if y then 1 else 0);
  }

  /** The part of the module that is written: so many lanes, integers and clauses. */
  datatype Shape = Shape(lanes: nat, width: nat, clauses: nat)

  ghost predicate FitsModule(shape: Shape) {
    shape.lanes <= COMPARE_LANES && shape.width <= POSITIONS && shape.clauses <= DNF_CLAUSES
  }

  ghost predicate InModule(shape: Shape, cell: Cell) {
    cell.lane < shape.lanes && cell.position < shape.width && cell.chunk < CHUNKS
  }

  /** The order in which the cells are written. */
  ghost predicate Earlier(cell: Cell, lane: nat, position: nat, chunk: nat) {
    || cell.lane < lane
    || (cell.lane == lane && cell.position < position)
    || (cell.lane == lane && cell.position == position && cell.chunk < chunk)
  }

  /** Both registers of the cell hold its masks. */
  ghost predicate CellWritten(registers: map<nat, nat>, states: seq<DNFState>, clauses: nat, cell: Cell)
    requires clauses <= |states|
  {
    forall outcome :: Address(cell, outcome) in registers &&
                      registers[Address(cell, outcome)] == Packed(states, cell, outcome, 0, clauses)
  }

  /** The mask has a one exactly for the clauses that are used and whose literal does not rule the outcome out. */
  ghost predicate MaskSays(mask: nat, states: seq<DNFState>, clauses: nat, cell: Cell, ruledOutBy: LiteralType)
    requires clauses <= |states|
  {
    forall k: nat {:trigger HasDigit(mask, k)} :: HasDigit(mask, k) <==>
                           k < clauses && states[k].used && LiteralOf(states[k], cell) != ruledOutBy
  }

  /**
   * What the two registers of a cell say: 128 above the first, which clauses accept that the comparison holds, and in
   * the first, which accept that it does not.
   */
  ghost predicate RegistersSay(registers: map<nat, nat>, states: seq<DNFState>, clauses: nat, cell: Cell)
    requires clauses <= |states|
  {
    var register := 65536 + 4 * cell.position + 256 * cell.chunk + 8192 * cell.lane;
    && register + 128 in registers && MaskSays(registers[register + 128], states, clauses, cell, Negative)
    && register in registers && MaskSays(registers[register], states, clauses, cell, Positive)
  }

  lemma PackedSays(states: seq<DNFState>, cell: Cell, outcome: bool, clauses: nat)
    requires clauses <= |states|
    ensures MaskSays(Packed(states, cell, outcome, 0, clauses), states, clauses, cell,
                     if outcome then Negative else Positive)
  {
    hide Packed, HasDigit;
    var mask := Packed(states, cell, outcome, 0, clauses);
    forall k: nat
      ensures HasDigit(mask, k) <==>
              k < clauses && states[k].used && LiteralOf(states[k], cell) != if outcome then Negative else Positive
    {
      PackedBit(states, cell, outcome, 0, clauses, k);
      BitIsDigit(mask, k);
    }
  }

  lemma WrittenSays(registers: map<nat, nat>, states: seq<DNFState>, clauses: nat, cell: Cell)
    requires clauses <= |states| && CellWritten(registers, states, clauses, cell)
    ensures RegistersSay(registers, states, clauses, cell)
  {
    PackedSays(states, cell, true, clauses);
    PackedSays(states, cell, false, clauses);
    hide MaskSays, Packed;
    assert registers[Address(cell, true)] == Packed(states, cell, true, 0, clauses);
    assert registers[Address(cell, false)] == Packed(states, cell, false, 0, clauses);
  }

  /** The registers of all cells before the given one are written. */
  ghost predicate WrittenBefore(registers: map<nat, nat>, states: seq<DNFState>, shape: Shape, lane: nat,
                                position: nat, chunk: nat)
    requires shape.clauses <= |states|
  {
    forall cell {:trigger InModule(shape, cell)} :: InModule(shape, cell) && Earlier(cell, lane, position, chunk) ==>
      CellWritten(registers, states, shape.clauses, cell)
  }

  ghost predicate OfCell(shape: Shape, address: nat) {
    exists cell, outcome :: InModule(shape, cell) && address == Address(cell, outcome)
  }

  /** No other register has changed. */
  ghost predicate OthersKept(before: map<nat, nat>, registers: map<nat, nat>, shape: Shape) {
    forall address: nat {:trigger address in registers} {:trigger OfCell(shape, address)} :: !OfCell(shape, address) ==>
      && (address in registers <==> address in before)
      && (address in registers ==> registers[address] == before[address])
  }

  lemma OneMoreCell(before: map<nat, nat>, registers: map<nat, nat>, states: seq<DNFState>, shape: Shape, cell: Cell,
                    high: nat, low: nat)
    requires FitsModule(shape) && |states| == DNF_CLAUSES && InModule(shape, cell)
    requires WrittenBefore(registers, states, shape, cell.lane, cell.position, cell.chunk)
         && OthersKept(before, registers, shape)
    requires high == Packed(states, cell, true, 0, shape.clauses)
         && low == Packed(states, cell, false, 0, shape.clauses)
    ensures var more := registers[Address(cell, true) := high][Address(cell, false) := low];
            WrittenBefore(more, states, shape, cell.lane, cell.position, cell.chunk + 1)
                 && OthersKept(before, more, shape)
  {
    var more := registers[Address(cell, true) := high][Address(cell, false) := low];
    forall other | InModule(shape, other) && Earlier(other, cell.lane, cell.position, cell.chunk + 1)
      ensures CellWritten(more, states, shape.clauses, other)
    {
      forall outcome
        ensures Address(other, outcome) in more
        ensures more[Address(other, outcome)] == Packed(states, other, outcome, 0, shape.clauses)
      {
        if other != cell {
          AddressDiffers(cell, other, outcome);
          assert CellWritten(registers, states, shape.clauses, other);
        }
      }
    }
  }

  lemma AddressDiffers(cell: Cell, other: Cell, outcome: bool)
    requires Exists(cell) && Exists(other) && cell != other
    ensures Address(other, outcome) != Address(cell, true) && Address(other, outcome) != Address(cell, false)
  {
    if Address(other, outcome) == Address(cell, true) {
      AddressesAreApart(other, outcome, cell, true);
    } else if Address(other, outcome) == Address(cell, false) {
      AddressesAreApart(other, outcome, cell, false);
    }
  }

  class FilterModule {
    var dnfStates: seq<DNFState>
    var registers: map<nat, nat>

    constructor ()
      ensures dnfStates == seq(DNF_CLAUSES, _ => DNFState(false, map[])) && registers == map[]
    {
      dnfStates, registers := seq(DNF_CLAUSES, _ => DNFState(false, map[])), map[];
    }

    method ResetDNFStates()
      requires |dnfStates| == DNF_CLAUSES
      modifies this`dnfStates
      ensures dnfStates == seq(DNF_CLAUSES, _ => DNFState(false, map[]))
    {
      for clause := 0 to DNF_CLAUSES
        invariant |dnfStates| == DNF_CLAUSES
        invariant forall k :: 0 <= k < clause ==> dnfStates[k] == DNFState(false, map[])
      {
        dnfStates := dnfStates[clause := DNFState(false, map[])];
      }
    }

    /** Marks the clause as used and sets one of its literals. */
    method FilterSetDNFClauseLiteral(clause: nat, compareNumber: nat, chunk: nat, position: nat, literal: LiteralType)
      requires |dnfStates| == DNF_CLAUSES && clause < DNF_CLAUSES && Exists(Cell(compareNumber, chunk, position))
      modifies this`dnfStates
      ensures |dnfStates| == DNF_CLAUSES && forall k :: 0 <= k < DNF_CLAUSES && k != clause ==>
           dnfStates[k] == old(dnfStates[k])
      ensures dnfStates[clause].used
      ensures forall cell :: LiteralOf(dnfStates[clause], cell) ==
                             if cell == Cell(compareNumber, chunk, position) then literal
                                  else LiteralOf(old(dnfStates[clause]), cell)
    {
      var literals := dnfStates[clause].literals[Cell(compareNumber, chunk, position) := literal];
      dnfStates := dnfStates[clause := DNFState(true, literals)];
    }

    /** Packs one bit for each clause, the last one first. */
    method PackClauses(cell: Cell, clauses: nat) returns (positive: nat, negative: nat)
      requires |dnfStates| == DNF_CLAUSES && clauses <= DNF_CLAUSES
      ensures positive == Packed(dnfStates, cell, true, 0, clauses)
           && negative == Packed(dnfStates, cell, false, 0, clauses)
    {
      positive, negative := 0, 0;
      for clause := clauses downto 0
        invariant positive == Packed(dnfStates, cell, true, clause, clauses)
        invariant negative == Packed(dnfStates, cell, false, clause, clauses)
      {
        positive, negative := 2 * positive, 2 * negative;
        if dnfStates[clause].used {
          match LiteralOf(dnfStates[clause], cell)
          case DontCare => positive, negative := positive + 1, negative + 1;
          case Positive => positive := positive + 1;
          case Negative => negative := negative + 1;
        }
      }
    }

    /** Writes the masks of all cells of the module, and nothing else. */
    method FilterWriteDNFClauseLiteralsToModule(shape: Shape)
      requires |dnfStates| == DNF_CLAUSES && FitsModule(shape)
      modifies this`registers
      ensures forall cell :: InModule(shape, cell) ==> CellWritten(registers, dnfStates, shape.clauses, cell)
      ensures forall cell :: InModule(shape, cell) ==> RegistersSay(registers, dnfStates, shape.clauses, cell)
      ensures OthersKept(old(registers), registers, shape)
    {
      for lane := 0 to shape.lanes
        invariant WrittenBefore(registers, dnfStates, shape, lane, 0, 0) && OthersKept(old(registers), registers, shape)
      {
        for position := 0 to shape.width
          invariant WrittenBefore(registers, dnfStates, shape, lane, position, 0)
               && OthersKept(old(registers), registers, shape)
        {
          for chunk := 0 to CHUNKS
            invariant WrittenBefore(registers, dnfStates, shape, lane, position, chunk)
                 && OthersKept(old(registers), registers, shape)
          {
            var cell := Cell(lane, chunk, position);
            var positive, negative := PackClauses(cell, shape.clauses);
            OneMoreCell(old(registers), registers, dnfStates, shape, cell, positive, negative);
            registers := registers[Address(cell, true) := positive][Address(cell, false) := negative];
          }
        }
      }
      forall cell | InModule(shape, cell) ensures RegistersSay(registers, dnfStates, shape.clauses, cell) {
        WrittenSays(registers, dnfStates, shape.clauses, cell);
      }
    }
  }

  /** How the comparisons of a record come out. */
  type Outcomes = Cell -> bool

  /** The register of the mask that a cell picks by its outcome. */
  ghost function Picked(cell: Cell, outcomes: Outcomes): nat {
    65536 + 4 * cell.position + 256 * cell.chunk + 8192 * cell.lane + if outcomes(cell) then 128 else 0
  }

  /** What the module does with a record: each cell picks a mask by its outcome, and all of them are combined. */
  ghost function Combined(cells: seq<Cell>, registers: map<nat, nat>, outcomes: Outcomes): nat
    requires forall cell :: cell in cells ==> Picked(cell, outcomes) in registers
  {
    if cells == [] then Power(DNF_CLAUSES) - 1
    else
      var last := cells[|cells| - 1];
      And(Combined(cells[..|cells| - 1], registers, outcomes), registers[Picked(last, outcomes)])
  }

  lemma {:induction false} BitOfAllOnes(n: nat, k: nat)
    ensures Power(n) >= 1 && (Bit(Power(n) - 1, k) <==> k < n)
  {
    if n > 0 {
      BitOfAllOnes(n - 1, 0);
      assert (Power(n) - 1) / 2 == Power(n - 1) - 1;
      if k > 0 {
        BitOfAllOnes(n - 1, k - 1);
      }
    } else {
      NoBitsInZero(k);
    }
  }

  lemma {:induction false} BitOfCombined(cells: seq<Cell>, registers: map<nat, nat>, outcomes: Outcomes, k: nat)
    requires forall cell :: cell in cells ==> Picked(cell, outcomes) in registers
    ensures Bit(Combined(cells, registers, outcomes), k) <==>
            k < DNF_CLAUSES && forall cell :: cell in cells ==> Bit(registers[Picked(cell, outcomes)], k)
  {
    if cells == [] {
      BitOfAllOnes(DNF_CLAUSES, k);
    } else {
      var front, last := cells[..|cells| - 1], cells[|cells| - 1];
      assert cells == front + [last];
      BitOfCombined(front, registers, outcomes, k);
      AndIsBitwise(Combined(front, registers, outcomes), registers[Picked(last, outcomes)], k);
    }
  }

  /** The clause is used, and all its literals in the module agree with the outcomes. */
  ghost predicate Satisfied(state: DNFState, shape: Shape, outcomes: Outcomes) {
    state.used && forall cell :: InModule(shape, cell) ==> Agrees(LiteralOf(state, cell), outcomes(cell))
  }

  ghost predicate ListsCells(shape: Shape, cells: seq<Cell>) {
    forall cell {:trigger cell in cells} {:trigger InModule(shape, cell)} :: cell in cells <==> InModule(shape, cell)
  }

  /**
   * Compiling the clauses keeps their meaning: with the registers as they are written, the combined masks are not zero
   * exactly if some used clause has all its literals in the module satisfied.
   */
  lemma MasksMeanClauses(registers: map<nat, nat>, states: seq<DNFState>, shape: Shape, cells: seq<Cell>,
                         outcomes: Outcomes)
    requires |states| == DNF_CLAUSES && FitsModule(shape) && shape.lanes > 0 && shape.width > 0
    requires forall cell :: InModule(shape, cell) ==> RegistersSay(registers, states, shape.clauses, cell)
    requires ListsCells(shape, cells)
    ensures forall cell :: cell in cells ==> Picked(cell, outcomes) in registers
    ensures Combined(cells, registers, outcomes) != 0 <==>
            exists k :: 0 <= k < shape.clauses && Satisfied(states[k], shape, outcomes)
  {
    forall cell | cell in cells ensures Picked(cell, outcomes) in registers {
      assert InModule(shape, cell);
    }
    if Combined(cells, registers, outcomes) != 0 {
      var k := NonZeroHasBit(Combined(cells, registers, outcomes));
      BitOfCombined(cells, registers, outcomes, k);
      assert InModule(shape, Cell(0, 0, 0));
      CellsPass(registers, states, shape, cells, outcomes, k);
    }
    if k: nat :| k < shape.clauses && Satisfied(states[k], shape, outcomes) {
      CellsPass(registers, states, shape, cells, outcomes, k);
      BitOfCombined(cells, registers, outcomes, k);
      NoBitsInZero(k);
    }
  }

  lemma CellsPass(registers: map<nat, nat>, states: seq<DNFState>, shape: Shape, cells: seq<Cell>, outcomes: Outcomes,
                  k: nat)
    requires |states| == DNF_CLAUSES && FitsModule(shape) && shape.lanes > 0 && shape.width > 0
    requires forall cell :: InModule(shape, cell) ==> RegistersSay(registers, states, shape.clauses, cell)
    requires ListsCells(shape, cells) && forall cell :: cell in cells ==> Picked(cell, outcomes) in registers
    ensures (forall cell :: cell in cells ==> Bit(registers[Picked(cell, outcomes)], k)) <==>
            k < shape.clauses && Satisfied(states[k], shape, outcomes)
  {
    assert Cell(0, 0, 0) in cells;
    forall cell | cell in cells
      ensures Bit(registers[Picked(cell, outcomes)], k) <==>
           k < shape.clauses && Passes(states, cell, outcomes(cell), k)
    {
      assert RegistersSay(registers, states, shape.clauses, cell);
      BitIsDigit(registers[Picked(cell, outcomes)], k);
      hide HasDigit, Bit;
    }
  }

  lemma SomeDigit(word: nat) returns (k: nat)
    requires word != 0
    ensures HasDigit(word, k)
  {
    k := NonZeroHasBit(word);
    BitIsDigit(word, k);
  }

  lemma NoDigits(word: nat)
    requires forall k: nat :: !HasDigit(word, k)
    ensures word == 0
  {
    if word != 0 {
      var k := SomeDigit(word);
    }
  }

  lemma OnlyFirstDigit(word: nat)
    requires forall k: nat :: HasDigit(word, k) <==> k == 0
    ensures word == 1
  {
    assert Power(0) == 1 && HasDigit(word, 0);
    if word / 2 != 0 {
      var k := NonZeroHasBit(word / 2);
      BitIsDigit(word, k + 1);
    }
  }

  /** One literal: clause 0 wants the first comparison to hold, so that bit 0 is set where it does and not below. */
  method WriteOneLiteral() returns (unit: FilterModule)
    ensures 65664 in unit.registers && unit.registers[65664] == 1
    ensures 65536 in unit.registers && unit.registers[65536] == 0
  {
    unit := new FilterModule();
    unit.FilterSetDNFClauseLiteral(0, 0, 0, 0, Positive);
    ghost var states, cell := unit.dnfStates, Cell(0, 0, 0);
    assert InModule(Shape(1, 16, 8), cell);
    unit.FilterWriteDNFClauseLiteralsToModule(Shape(1, 16, 8));
    assert RegistersSay(unit.registers, states, 8, cell);
    hide HasDigit;
    assert MaskSays(unit.registers[65536 + 128], states, 8, cell, Negative);
    OnlyFirstDigit(unit.registers[65664]);
    NoDigits(unit.registers[65536]);
  }

  /** With all its literals inside the module, a clause means just those literals. */
  lemma LiteralsInModule(state: DNFState, shape: Shape, outcomes: Outcomes)
    requires forall cell :: cell in state.literals ==> InModule(shape, cell)
    ensures Satisfied(state, shape, outcomes) <==>
            state.used && forall cell :: cell in state.literals ==> Agrees(state.literals[cell], outcomes(cell))
  {
  }

  /** All masks are 32-bit words. */
  lemma MasksAreWords(states: seq<DNFState>, cell: Cell, outcome: bool, clauses: nat)
    requires clauses <= |states| && clauses <= DNF_CLAUSES
    ensures Packed(states, cell, outcome, 0, clauses) < 0x1_0000_0000
  {
    PackedFits(states, cell, outcome, 0, clauses);
    PowerGrows(clauses, DNF_CLAUSES);
    Power32();
  }

  lemma Power32()
    ensures Power(32) == 0x1_0000_0000
  {
    assert Power(4) == 16;
    PowersMultiply(4, 4);
    PowersMultiply(8, 8);
    PowersMultiply(16, 16);
  }
}
