/** The sizes of the streams of every node, which are kept beside their memory blocks. */
module StreamSizes {
  import opened Options
  import opened BlockTables

  /** How many integers make a record, and how many records there are. */
  datatype Size = Size(recordSize: int, recordCount: int)

  /** The sizes of the streams of every node, by node name. */
  type SizeTable = map<string, seq<Size>>

  function Zeros(count: nat): seq<Size> {
    seq(count, _ => Size(0, 0))
  }

  /** The table with a vector for `name`, unless it has one already. */
  function WithVector(table: SizeTable, name: string, count: nat): SizeTable {
    if name in table then table else table[name := Zeros(count)]
  }

  function WithSize(table: SizeTable, name: string, index: nat, size: Size): SizeTable
    requires name in table && index < |table[name]|
  {
    table[name := table[name][index := size]]
  }

  function SizeEntry(table: SizeTable, name: string, index: nat): Option<Size> {
    if name in table && index < |table[name]| then Some(table[name][index]) else None
  }

  /** The size that is recorded for a place. */
  function SizeAt(inputs: SizeTable, outputs: SizeTable, place: Place): Option<Size> {
    match place
    case InputOf(name, index) => SizeEntry(inputs, name, index)
    case OutputOf(name, index) => SizeEntry(outputs, name, index)
  }

  /** Every slot for a block has one for its size. */
  ghost predicate InStep(blocks: BlockTable, sizes: SizeTable) {
    && blocks.Keys == sizes.Keys
    && forall n {:trigger blocks[n]} {:trigger sizes[n]} :: n in sizes ==> |blocks[n]| == |sizes[n]|
  }

  /** Vectors may be added, the others are as they were. */
  ghost predicate Extends(table: SizeTable, more: SizeTable) {
    forall n {:trigger table[n]} {:trigger more[n]} :: n in table ==> n in more && more[n] == table[n]
  }

  class Sizes {
    var inputs: SizeTable
    var outputs: SizeTable

    constructor ()
      ensures inputs == map[] && outputs == map[]
    {
      inputs, outputs := map[], map[];
    }

    ghost function At(place: Place): Option<Size>
      reads this
    {
      SizeAt(inputs, outputs, place)
    }

    /** Notes the record size of an output; its record count is not known yet. */
    method SetRecordSize(name: string, index: nat, recordSize: int)
      requires name in outputs && index < |outputs[name]|
      modifies this`outputs
      ensures outputs ==
              WithSize(old(outputs), name, index, Size(recordSize, old(outputs)[name][index].recordCount))
    {
      outputs := WithSize(outputs, name, index, outputs[name][index].(recordSize := recordSize));
    }

    /** Notes the record count of an output. */
    method SetRecordCount(name: string, index: nat, recordCount: int)
      requires name in outputs && index < |outputs[name]|
      modifies this`outputs
      ensures outputs ==
              WithSize(old(outputs), name, index, Size(old(outputs)[name][index].recordSize, recordCount))
    {
      outputs := WithSize(outputs, name, index, outputs[name][index].(recordCount := recordCount));
    }

    /** The size of an output becomes that of an input. */
    method HandOver(name: string, index: nat, target: string, slot: nat)
      requires name in outputs && index < |outputs[name]| && target in inputs && slot < |inputs[target]|
      modifies this`inputs
      ensures inputs == WithSize(old(inputs), target, slot, outputs[name][index])
      ensures forall p :: At(p) == if p == InputOf(target, slot) then old(At(OutputOf(name, index))) else old(At(p))
    {
      inputs := WithSize(inputs, target, slot, outputs[name][index]);
    }

    method DropInputs(name: string)
      modifies this`inputs
      ensures inputs == old(inputs) - {name}
      ensures forall p :: At(p) == if p.InputOf? && p.name == name then None else old(At(p))
    {
      inputs := inputs - {name};
    }
  }

  /** Where blocks and sizes were when a run had been executed, its stream IDs, and what the FPGA reported. */
  datatype Inventory = Inventory(places: Places, inputs: SizeTable, outputs: SizeTable)

  /** The block that is at `x` first, and its size, are at `y` later. */
  ghost predicate Carried(before: Inventory, x: Place, after: Inventory, y: Place) {
    && SameBlock(before.places, x, after.places, y)
    && SizeAt(before.inputs, before.outputs, x).Some?
    && SizeAt(after.inputs, after.outputs, y) == SizeAt(before.inputs, before.outputs, x)
  }

  lemma CarriedOn(before: Inventory, x: Place, middle: Inventory, y: Place, after: Inventory, z: Place)
    requires Carried(before, x, middle, y) && Carried(middle, y, after, z) && OneEach(middle.places)
    ensures Carried(before, x, after, z)
  {
    SameBlockOn(before.places, x, middle.places, y, after.places, z);
  }

  lemma CarriedStays(before: Inventory, x: Place, after: Inventory, y: Place, later: Inventory)
    requires Carried(before, x, after, y) && Grown(after.places, later.places)
    requires SizeAt(later.inputs, later.outputs, y) == SizeAt(after.inputs, after.outputs, y)
    ensures Carried(before, x, later, y)
  {
    SameBlockStays(before.places, x, after.places, y, later.places);
  }
}
