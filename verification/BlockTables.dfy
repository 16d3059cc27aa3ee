/** Where the held memory blocks are: in one input slot or one output slot each. */
module BlockTables {
  import opened MemoryManager

  /** The memory blocks of the streams of every node, by node name. */
  type BlockTable = map<string, seq<MemoryBlock?>>

  datatype Place = InputOf(name: string, index: nat) | OutputOf(name: string, index: nat)

  type Places = map<MemoryBlock, Place>

  function Entry(table: BlockTable, name: string, index: nat): MemoryBlock? {
    if name in table && index < |table[name]| then table[name][index] else null
  }

  function Content(inputs: BlockTable, outputs: BlockTable, place: Place): MemoryBlock? {
    match place
    case InputOf(name, index) => Entry(inputs, name, index)
    case OutputOf(name, index) => Entry(outputs, name, index)
  }

  /** The blocks in the tables are those of `places`, each in exactly its own place. */
  ghost predicate Located(inputs: BlockTable, outputs: BlockTable, places: Places) {
    && (forall b {:trigger places[b]} {:trigger b in places} :: b in places ==>
        Content(inputs, outputs, places[b]) == b)
    && forall place {:trigger Content(inputs, outputs, place)} ::
         var b := Content(inputs, outputs, place);
         b != null ==> b in places && places[b] == place
  }

  /** The block that is at `x` first is at `y` later. */
  ghost predicate SameBlock(before: Places, x: Place, after: Places, y: Place) {
    exists b :: b in before && before[b] == x && b in after && after[b] == y
  }

  /** There is at most one block in every place. */
  ghost predicate OneEach(places: Places) {
    forall a, b {:trigger places[a], places[b]} :: a in places && b in places && places[a] == places[b] ==> a == b
  }

  lemma SameBlockStays(before: Places, x: Place, after: Places, y: Place, later: Places)
    requires SameBlock(before, x, after, y) && Grown(after, later)
    ensures SameBlock(before, x, later, y)
  {
    var b :| b in before && before[b] == x && b in after && after[b] == y;
    assert b in later && later[b] == y;
  }

  lemma SameBlockOn(before: Places, x: Place, middle: Places, y: Place, after: Places, z: Place)
    requires SameBlock(before, x, middle, y) && SameBlock(middle, y, after, z) && OneEach(middle)
    ensures SameBlock(before, x, after, z)
  {
    var a :| a in before && before[a] == x && a in middle && middle[a] == y;
    var b :| b in middle && middle[b] == y && b in after && after[b] == z;
    assert a == b;
  }

  lemma LocatedIsOneEach(inputs: BlockTable, outputs: BlockTable, places: Places)
    requires Located(inputs, outputs, places)
    ensures OneEach(places)
  {
    forall a, b | a in places && b in places && places[a] == places[b] ensures a == b {
      assert Content(inputs, outputs, places[a]) == a && Content(inputs, outputs, places[b]) == b;
    }
  }

  /** All blocks stay where they are, and more may come. */
  ghost predicate Grown(places: Places, more: Places) {
    forall b {:trigger more[b]} {:trigger b in places} :: b in places ==> b in more && more[b] == places[b]
  }

  /** The tables with the vector of `name` in place of what was there. */
  function WithEntry(table: BlockTable, name: string, index: nat, block: MemoryBlock?): BlockTable
    requires name in table && index < |table[name]|
  {
    table[name := table[name][index := block]]
  }

  lemma InputUpdated(inputs: BlockTable, outputs: BlockTable, name: string, index: nat, block: MemoryBlock?)
    requires name in inputs && index < |inputs[name]|
    ensures forall p {:trigger Content(WithEntry(inputs, name, index, block), outputs, p)} ::
              Content(WithEntry(inputs, name, index, block), outputs, p) ==
              if p == InputOf(name, index) then block else Content(inputs, outputs, p)
  {
  }

  lemma OutputUpdated(inputs: BlockTable, outputs: BlockTable, name: string, index: nat, block: MemoryBlock?)
    requires name in outputs && index < |outputs[name]|
    ensures forall p {:trigger Content(inputs, WithEntry(outputs, name, index, block), p)} ::
              Content(inputs, WithEntry(outputs, name, index, block), p) ==
              if p == OutputOf(name, index) then block else Content(inputs, outputs, p)
  {
  }

  /** Putting a block that is nowhere into an empty place. */
  lemma PutKeepsLocated(inputs: BlockTable, outputs: BlockTable, places: Places, inputs': BlockTable,
                        outputs': BlockTable, place: Place, block: MemoryBlock)
    requires Located(inputs, outputs, places)
    requires block !in places && Content(inputs, outputs, place) == null
    requires forall p :: Content(inputs', outputs', p) == if p == place then block else Content(inputs, outputs, p)
    ensures Located(inputs', outputs', places[block := place])
  {
  }

  /** Emptying a place. */
  lemma TakeKeepsLocated(inputs: BlockTable, outputs: BlockTable, places: Places, inputs': BlockTable,
                         outputs': BlockTable, place: Place)
    requires Located(inputs, outputs, places)
    requires Content(inputs, outputs, place) != null
    requires forall p :: Content(inputs', outputs', p) == if p == place then null else Content(inputs, outputs, p)
    ensures Content(inputs, outputs, place) in places
    ensures Located(inputs', outputs', places - {Content(inputs, outputs, place)})
  {
  }

  /** Moving a block from an output slot to an empty input slot. */
  lemma MoveKeepsLocated(inputs: BlockTable, outputs: BlockTable, places: Places, name: string, index: nat,
                         target: string, slot: nat, block: MemoryBlock)
    requires Located(inputs, outputs, places)
    requires name in outputs && index < |outputs[name]| && outputs[name][index] == block
    requires target in inputs && slot < |inputs[target]| && inputs[target][slot] == null
    ensures Located(WithEntry(inputs, target, slot, block), WithEntry(outputs, name, index, null),
                    (places - {block})[block := InputOf(target, slot)])
    ensures block in places
    ensures forall p {:trigger Content(WithEntry(inputs, target, slot, block), WithEntry(outputs, name, index, null),
                                       p)} ::
              Content(WithEntry(inputs, target, slot, block), WithEntry(outputs, name, index, null), p) ==
              if p == OutputOf(name, index) then null
              else if p == InputOf(target, slot) then block else Content(inputs, outputs, p)
  {
    var from, to := OutputOf(name, index), InputOf(target, slot);
    var outputs' := WithEntry(outputs, name, index, null);
    assert Content(inputs, outputs, from) == block && Content(inputs, outputs, to) == null;
    OutputUpdated(inputs, outputs, name, index, null);
    InputUpdated(inputs, outputs', target, slot, block);
    TakeKeepsLocated(inputs, outputs, places, inputs, outputs', from);
    PutKeepsLocated(inputs, outputs', places - {block}, WithEntry(inputs, target, slot, block), outputs', to, block);
  }

  lemma SameContentsLocated(inputs: BlockTable, outputs: BlockTable, places: Places, inputs': BlockTable,
                            outputs': BlockTable)
    requires Located(inputs, outputs, places)
    requires forall p :: Content(inputs', outputs', p) == Content(inputs, outputs, p)
    ensures Located(inputs', outputs', places)
  {
  }

  lemma NothingLocated(inputs: BlockTable, outputs: BlockTable, places: Places)
    requires Located(inputs, outputs, places)
    requires forall p :: Content(inputs, outputs, p) == null
    ensures places == map[]
  {
  }
}
