/** The input and output blocks of all nodes, with the pool they come from and go back to. */
module BlockStore {
  import opened MemoryManager
  import opened BlockTables

  /** The same names have vectors, of the same length. */
  ghost predicate SameShape<T>(table: map<string, seq<T>>, other: map<string, seq<T>>) {
    table.Keys == other.Keys && forall n {:trigger table[n]} {:trigger other[n]} :: n in table ==>
         |table[n]| == |other[n]|
  }

  lemma EntryKeepsShape(table: BlockTable, name: string, index: nat, block: MemoryBlock?)
    requires name in table && index < |table[name]|
    ensures SameShape(table, WithEntry(table, name, index, block))
    ensures name in WithEntry(table, name, index, block)
    ensures WithEntry(table, name, index, block) == table[name := WithEntry(table, name, index, block)[name]]
  {
  }

  lemma OneMoreGrows(places: Places, block: MemoryBlock, place: Place)
    requires block !in places
    ensures Grown(places, places[block := place]) && places[block := place].Keys == places.Keys + {block}
  {
  }

  lemma OneLess(places: Places, block: MemoryBlock)
    ensures (places - {block}).Keys == places.Keys - {block}
  {
  }

  class Store {
    var inputs: BlockTable
    var outputs: BlockTable
    const pool: Pool
    ghost var places: Places

    constructor (pool: Pool)
      requires pool.Valid() && pool.held == {}
      ensures this.pool == pool && Owned() && inputs == map[] && outputs == map[]
    {
      inputs, outputs, places := map[], map[], map[];
      this.pool := pool;
    }

    /** Every block that is not free is in exactly one input or output slot. */
    ghost predicate Owned()
      reads this, pool
    {
      pool.Valid() && pool.held == places.Keys && Located(inputs, outputs, places)
    }

    ghost function At(place: Place): MemoryBlock?
      reads this
    {
      Content(inputs, outputs, place)
    }

    lemma Parts()
      ensures Owned() <==> pool.Valid() && pool.held == places.Keys && Located(inputs, outputs, places)
      ensures forall p {:trigger At(p)} {:trigger Content(inputs, outputs, p)} :: At(p) == Content(inputs, outputs, p)
      ensures forall name, index: nat {:trigger inputs[name][index]} :: name in inputs && index < |inputs[name]| ==>
                Content(inputs, outputs, InputOf(name, index)) == inputs[name][index]
      ensures forall name, index: nat {:trigger outputs[name][index]} :: name in outputs && index < |outputs[name]| ==>
                Content(inputs, outputs, OutputOf(name, index)) == outputs[name][index]
    {
    }

    /** Adds a vector of empty slots, unless the node has one already. */
    method InitialiseInputs(name: string, count: nat)
      requires Owned()
      modifies this`inputs
      ensures Owned() && inputs == if name in old(inputs) then old(inputs)
           else old(inputs)[name := seq(count, _ => null)]
      ensures forall p :: At(p) == old(At(p))
    {
      if name !in inputs {
        inputs := inputs[name := seq(count, _ => null)];
      }
      SameContentsLocated(old(inputs), outputs, places, inputs, outputs);
    }

    method InitialiseOutputs(name: string, count: nat)
      requires Owned()
      modifies this`outputs
      ensures Owned() && outputs == if name in old(outputs) then old(outputs)
           else old(outputs)[name := seq(count, _ => null)]
      ensures forall p :: At(p) == old(At(p))
    {
      if name !in outputs {
        outputs := outputs[name := seq(count, _ => null)];
      }
      SameContentsLocated(inputs, old(outputs), places, inputs, outputs);
    }

    /** Fills an empty input slot from the pool; fails when six blocks are held already. */
    method FillInput(name: string, index: nat) returns (ok: bool)
      requires Owned() && name in inputs && index < |inputs[name]| && inputs[name][index] == null
      modifies this`inputs, this`places, pool
      ensures !ok ==> pool.held == old(pool.held) && |pool.held| == MAX_POSSIBLE_ALLOCATIONS
      ensures ok ==> Owned() && SameShape(old(inputs), inputs) && Grown(old(places), places)
      ensures ok ==> forall p :: if p == InputOf(name, index) then At(p) != null else At(p) == old(At(p))
      ensures ok ==> inputs == old(inputs)[name := inputs[name]]
    {
      hide *;
      Parts();
      var block := pool.GetAvailableMemoryBlock();
      ok := block != null;
      if ok {
        InputUpdated(inputs, outputs, name, index, block);
        PutKeepsLocated(inputs, outputs, places, WithEntry(inputs, name, index, block), outputs, InputOf(name, index),
                        block);
        EntryKeepsShape(inputs, name, index, block);
        OneMoreGrows(places, block, InputOf(name, index));
        inputs := WithEntry(inputs, name, index, block);
        places := places[block := InputOf(name, index)];
        Parts();
      }
    }

    method FillOutput(name: string, index: nat) returns (ok: bool)
      requires Owned() && name in outputs && index < |outputs[name]| && outputs[name][index] == null
      modifies this`outputs, this`places, pool
      ensures !ok ==> pool.held == old(pool.held) && |pool.held| == MAX_POSSIBLE_ALLOCATIONS
      ensures ok ==> Owned() && SameShape(old(outputs), outputs) && Grown(old(places), places)
      ensures ok ==> forall p :: if p == OutputOf(name, index) then At(p) != null else At(p) == old(At(p))
      ensures ok ==> outputs == old(outputs)[name := outputs[name]]
    {
      hide *;
      Parts();
      var block := pool.GetAvailableMemoryBlock();
      ok := block != null;
      if ok {
        OutputUpdated(inputs, outputs, name, index, block);
        PutKeepsLocated(inputs, outputs, places, inputs, WithEntry(outputs, name, index, block), OutputOf(name, index),
                        block);
        EntryKeepsShape(outputs, name, index, block);
        OneMoreGrows(places, block, OutputOf(name, index));
        outputs := WithEntry(outputs, name, index, block);
        places := places[block := OutputOf(name, index)];
        Parts();
      }
    }

    /** Gives the block of an input slot, if there is one, back to the pool. */
    method FreeInput(name: string, index: nat)
      requires Owned() && name in inputs && index < |inputs[name]|
      modifies this`inputs, this`places, pool
      ensures Owned() && SameShape(old(inputs), inputs)
      ensures forall p :: At(p) == if p == InputOf(name, index) then null else old(At(p))
    {
      hide *;
      Parts();
      var block := inputs[name][index];
      InputUpdated(inputs, outputs, name, index, null);
      if block != null {
        assert At(InputOf(name, index)) == block;
        TakeKeepsLocated(inputs, outputs, places, WithEntry(inputs, name, index, null), outputs, InputOf(name, index));
        pool.FreeMemoryBlock(block);
        OneLess(places, block);
        places := places - {block};
      } else {
        SameContentsLocated(inputs, outputs, places, WithEntry(inputs, name, index, null), outputs);
      }
      EntryKeepsShape(inputs, name, index, null);
      inputs := WithEntry(inputs, name, index, null);
      Parts();
    }

    method FreeOutput(name: string, index: nat)
      requires Owned() && name in outputs && index < |outputs[name]|
      modifies this`outputs, this`places, pool
      ensures Owned() && SameShape(old(outputs), outputs)
      ensures forall p :: At(p) == if p == OutputOf(name, index) then null else old(At(p))
    {
      hide *;
      Parts();
      var block := outputs[name][index];
      OutputUpdated(inputs, outputs, name, index, null);
      if block != null {
        assert At(OutputOf(name, index)) == block;
        TakeKeepsLocated(inputs, outputs, places, inputs, WithEntry(outputs, name, index, null), OutputOf(name, index));
        pool.FreeMemoryBlock(block);
        OneLess(places, block);
        places := places - {block};
      } else {
        SameContentsLocated(inputs, outputs, places, inputs, WithEntry(outputs, name, index, null));
      }
      EntryKeepsShape(outputs, name, index, null);
      outputs := WithEntry(outputs, name, index, null);
      Parts();
    }

    /** Moves the block of an output slot into an empty input slot. */
    method HandOver(name: string, index: nat, target: string, slot: nat)
      requires Owned()
      requires name in outputs && index < |outputs[name]| && outputs[name][index] != null
      requires target in inputs && slot < |inputs[target]| && inputs[target][slot] == null
      modifies this`inputs, this`outputs, this`places
      ensures Owned() && SameShape(old(inputs), inputs) && SameShape(old(outputs), outputs)
      ensures forall p :: At(p) == if p == OutputOf(name, index) then null
                                   else if p == InputOf(target, slot) then old(At(OutputOf(name, index)))
                                   else old(At(p))
    {
      var block := outputs[name][index];
      MoveKeepsLocated(inputs, outputs, places, name, index, target, slot, block);
      inputs, outputs := WithEntry(inputs, target, slot, block), WithEntry(outputs, name, index, null);
      places := (places - {block})[block := InputOf(target, slot)];
    }

    /** Frees all inputs of a node and drops its vector. */
    method DropInputs(name: string)
      requires Owned()
      modifies this`inputs, this`places, pool
      ensures Owned() && inputs.Keys == old(inputs).Keys - {name}
      ensures forall n :: n in inputs ==> |inputs[n]| == |old(inputs)[n]|
      ensures forall p :: At(p) == if p.InputOf? && p.name == name then null else old(At(p))
    {
      if name in inputs {
        var count := |inputs[name]|;
        for i := 0 to count
          invariant Owned() && SameShape(old(inputs), inputs)
          invariant forall p :: At(p) == if p.InputOf? && p.name == name && p.index < i then null else old(At(p))
        {
          FreeInput(name, i);
        }
      }
      SameContentsLocated(inputs, outputs, places, inputs - {name}, outputs);
      inputs := inputs - {name};
    }

    /** Frees all outputs of all nodes and forgets them. */
    method DropAllOutputs()
      requires Owned()
      modifies this`outputs, this`places, pool
      ensures Owned() && outputs == map[]
      ensures forall p :: At(p) == if p.OutputOf? then null else old(At(p))
    {
      var names := outputs.Keys;
      while names != {}
        invariant Owned() && SameShape(old(outputs), outputs) && names <= outputs.Keys
        invariant forall p :: At(p) == if p.OutputOf? && p.name !in names then null else old(At(p))
      {
        var name :| name in names;
        var count := |outputs[name]|;
        for i := 0 to count
          invariant Owned() && SameShape(old(outputs), outputs) && name in outputs && |outputs[name]| == count
          invariant forall p :: At(p) == if p.OutputOf? && (p.name !in names || (p.name == name && p.index < i))
               then null
                                         else old(At(p))
        {
          FreeOutput(name, i);
        }
        names := names - {name};
      }
      SameContentsLocated(inputs, outputs, places, inputs, map[]);
      outputs := map[];
    }
  }
}
