/** Clearing a run away: the blocks it read go, those it wrote are handed over with their sizes or go. */
module BlockRelease {
  import opened Options
  import opened QueryNodes
  import opened ExternalLinks
  import opened ScheduleTheorems
  import opened MemoryManager
  import opened BlockTables
  import opened BlockStore
  import opened MemoryPlan
  import opened StreamSizes
  import opened QueryManager
  import opened SetupConditions
  import opened NodeSetup
  import opened RunSetup

  /** The inputs of the nodes with the given names. */
  ghost function NamedInputs(names: seq<string>): iset<Place> {
    iset p: Place | p.InputOf? && p.name in names
  }

  /** Vectors are only dropped: those that are left have kept their length. */
  ghost predicate Narrowed(before: BlockTable, inputs: BlockTable, names: seq<string>) {
    && (forall name {:trigger name in inputs} :: name in inputs <==> name in before && name !in names)
    && forall name {:trigger inputs[name]} :: name in inputs && name in before ==> |inputs[name]| == |before[name]|
  }

  /** A block, and the size of the data in it. */
  datatype Cargo = Cargo(block: MemoryBlock, size: Size)

  /** For every place what belongs there. */
  type Blocks = imap<Place, Cargo>

  /** What is in a place, according to the tables. */
  ghost predicate IsAt(tables: Tables, p: Place, cargo: Cargo) {
    && Content(tables.inputs, tables.outputs, p) == cargo.block
    && SizeAt(tables.inputSizes, tables.outputSizes, p) == Some(cargo.size)
  }

  /** The filled places have in them what belongs there. */
  ghost predicate Belong(tables: Tables, filled: iset<Place>, blocks: Blocks) {
    forall p {:trigger p in filled} :: p in filled ==> p in blocks && IsAt(tables, p, blocks[p])
  }

  /** The filled places hold the blocks that belong there, with their sizes. */
  ghost predicate HoldsAs(store: Store, sizes: Sizes, filled: iset<Place>, blocks: Blocks)
    reads store, store.pool, sizes
  {
    Holds(store, filled) && InStep(store.inputs, sizes.inputs) && Belong(Now(store, sizes), filled, blocks)
  }

  /** What stays where it was still belongs there. */
  lemma StillBelong(before: Tables, after: Tables, filled: iset<Place>, fewer: iset<Place>, blocks: Blocks)
    requires Belong(before, filled, blocks) && fewer <= filled
    requires forall p {:trigger p in fewer} :: p in fewer ==>
               && Content(after.inputs, after.outputs, p) == Content(before.inputs, before.outputs, p)
               && SizeAt(after.inputSizes, after.outputSizes, p) == SizeAt(before.inputSizes, before.outputSizes, p)
    ensures Belong(after, fewer, blocks)
  {
  }

  /** What belongs at the target of a memory link of `n` is the block of the output it leads from. */
  ghost predicate LinksCarry(plan: Plan, n: QueryNode, blocks: Blocks) {
    forall i: nat {:trigger MemoryLink(plan, n, i)} :: MemoryLink(plan, n, i) ==>
      OutputOf(n.name, i) in blocks && Target(plan, n, i) in blocks
           && blocks[Target(plan, n, i)] == blocks[OutputOf(n.name, i)]
  }

  lemma HoldsParts(store: Store, sizes: Sizes, filled: iset<Place>, blocks: Blocks)
    ensures HoldsAs(store, sizes, filled, blocks) <==>
            Holds(store, filled) && InStep(store.inputs, sizes.inputs) && Belong(Now(store, sizes), filled, blocks)
  {
  }

  /** Drops the input blocks of one node. */
  method DropBlocks(name: string, store: Store, ghost filled: iset<Place>)
    requires Holds(store, filled)
    modifies store`inputs, store`places, store.pool
    ensures Holds(store, filled - NamedInputs([name])) && Narrowed(old(store.inputs), store.inputs, [name])
    ensures forall p {:trigger Content(store.inputs, store.outputs, p)} :: p in filled - NamedInputs([name]) ==>
              Content(store.inputs, store.outputs, p) == old(Content(store.inputs, store.outputs, p))
  {
    store.DropInputs(name);
    assert forall p {:trigger Content(store.inputs, store.outputs, p)} :: p in filled - NamedInputs([name]) ==>
        store.At(p) == old(store.At(p));
  }

  lemma NarrowedOn(before: BlockTable, middle: BlockTable, after: BlockTable, names: seq<string>, name: string)
    requires Narrowed(before, middle, names) && Narrowed(middle, after, [name])
    ensures Narrowed(before, after, names + [name])
  {
  }

  /** Dropping the vectors of a node from both tables keeps them in step. */
  lemma DroppedInStep(blocks: BlockTable, blocks': BlockTable, sizes: SizeTable, name: string)
    requires InStep(blocks, sizes) && Narrowed(blocks, blocks', [name])
    ensures InStep(blocks', sizes - {name})
  {
  }

  lemma OtherSizesStay(before: Tables, after: Tables, filled: iset<Place>, name: string)
    requires after.inputSizes == before.inputSizes - {name} && after.outputSizes == before.outputSizes
    ensures forall p {:trigger p in filled - NamedInputs([name])} :: p in filled - NamedInputs([name]) ==>
              SizeAt(after.inputSizes, after.outputSizes, p) == SizeAt(before.inputSizes, before.outputSizes, p)
  {
  }

  method DropNext(k: nat, names: seq<string>, store: Store, sizes: Sizes, ghost filled: iset<Place>,
                  ghost before: BlockTable, ghost blocks: Blocks)
    requires k < |names| && HoldsAs(store, sizes, filled - NamedInputs(names[..k]), blocks)
         && Narrowed(before, store.inputs, names[..k])
    modifies store`inputs, store`places, store.pool, sizes`inputs
    ensures HoldsAs(store, sizes, filled - NamedInputs(names[..k + 1]), blocks)
         && Narrowed(before, store.inputs, names[..k + 1])
  {
    ghost var now, rest := filled - NamedInputs(names[..k]), filled - NamedInputs(names[..k + 1]);
    assert names[..k + 1] == names[..k] + [names[k]];
    assert rest == now - NamedInputs([names[k]]);
    hide *;
    HoldsParts(store, sizes, now, blocks);
    ghost var earlier := Now(store, sizes);
    TablesAreNow(store, sizes);
    DropBlocks(names[k], store, now);
    sizes.DropInputs(names[k]);
    TablesAreNow(store, sizes);
    NarrowedOn(before, earlier.inputs, store.inputs, names[..k], names[k]);
    DroppedInStep(earlier.inputs, store.inputs, earlier.inputSizes, names[k]);
    OtherSizesStay(earlier, Now(store, sizes), now, names[k]);
    StillBelong(earlier, Now(store, sizes), now, rest, blocks);
    HoldsParts(store, sizes, rest, blocks);
  }

  method DropScheduledInputs(names: seq<string>, store: Store, sizes: Sizes, ghost filled: iset<Place>,
                             ghost blocks: Blocks)
    requires HoldsAs(store, sizes, filled, blocks)
    modifies store`inputs, store`places, store.pool, sizes`inputs
    ensures HoldsAs(store, sizes, filled - NamedInputs(names), blocks)
         && Narrowed(old(store.inputs), store.inputs, names)
  {
    assert filled - NamedInputs(names[..0]) == filled;
    for k := 0 to |names|
      invariant HoldsAs(store, sizes, filled - NamedInputs(names[..k]), blocks)
           && Narrowed(old(store.inputs), store.inputs, names[..k])
    {
      DropNext(k, names, store, sizes, filled, old(store.inputs), blocks);
    }
    assert names[..|names|] == names;
  }

  /** Every memory link of `n` has a block at its source and an empty slot at its target. */
  ghost predicate CanHandOver(plan: Plan, n: QueryNode, filled: iset<Place>, inputs: BlockTable) {
    forall i: nat {:trigger MemoryLink(plan, n, i)} :: MemoryLink(plan, n, i) ==>
      && OutputOf(n.name, i) in filled && Target(plan, n, i) !in filled
      && Target(plan, n, i).name in inputs && Target(plan, n, i).index < |inputs[Target(plan, n, i).name]|
  }

  /** What is filled once the blocks of the first `limit` outputs of `n` have been handed over. */
  ghost function HandedOver(plan: Plan, n: QueryNode, limit: nat, filled: iset<Place>): iset<Place> {
    (filled - iset p: Place | p.OutputOf? && p.name == n.name && p.index < limit && MemoryLink(plan, n, p.index)) +
    iset i: nat | i < limit && MemoryLink(plan, n, i) :: Target(plan, n, i)
  }

  lemma TargetsDiffer(plan: Plan, n: QueryNode, i: nat, m: QueryNode, j: nat)
    requires MemoryLink(plan, n, i) && MemoryLink(plan, m, j) && Target(plan, n, i) == Target(plan, m, j)
    ensures n == m && i == j
  {
    assert Satisfies(plan.g, NamesAreUnique) && NameIsOwn(plan.g.nodes, plan.g.next[n][i]);
    LinksHaveOwnSlots(plan.g, n, i, m, j);
  }

  lemma HandOverStep(plan: Plan, n: QueryNode, i: nat, filled: iset<Place>, inputs: BlockTable)
    requires CanHandOver(plan, n, filled, inputs)
    ensures !MemoryLink(plan, n, i) ==> HandedOver(plan, n, i + 1, filled) == HandedOver(plan, n, i, filled)
    ensures MemoryLink(plan, n, i) ==>
              && OutputOf(n.name, i) in HandedOver(plan, n, i, filled)
                   && Target(plan, n, i) !in HandedOver(plan, n, i, filled)
              && HandedOver(plan, n, i + 1, filled) ==
                 HandedOver(plan, n, i, filled) - iset{OutputOf(n.name, i)} + iset{Target(plan, n, i)}
  {
    if MemoryLink(plan, n, i) {
      forall j: nat | MemoryLink(plan, n, j) && j < i ensures Target(plan, n, j) != Target(plan, n, i) {
        if Target(plan, n, j) == Target(plan, n, i) {
          TargetsDiffer(plan, n, j, n, i);
        }
      }
    }
  }

  /** Moves the block of an output to an input. */
  method PassBlock(name: string, index: nat, target: string, slot: nat, store: Store, ghost filled: iset<Place>)
    requires Holds(store, filled) && OutputOf(name, index) in filled && InputOf(target, slot) !in filled
    requires target in store.inputs && slot < |store.inputs[target]|
    modifies store`inputs, store`outputs, store`places
    ensures Holds(store, filled - iset{OutputOf(name, index)} + iset{InputOf(target, slot)})
    ensures SameShape(old(store.inputs), store.inputs) && SameShape(old(store.outputs), store.outputs)
    ensures Content(store.inputs, store.outputs, InputOf(target, slot)) ==
            old(Content(store.inputs, store.outputs, OutputOf(name, index)))
    ensures forall p {:trigger Content(store.inputs, store.outputs, p)} :: p in filled && p != OutputOf(name, index) ==>
              Content(store.inputs, store.outputs, p) == old(Content(store.inputs, store.outputs, p))
  {
    hide SameShape, Located;
    ghost var from, to := OutputOf(name, index), InputOf(target, slot);
    assert store.At(from) != null && store.At(to) == null;
    SlotsAre(store, name, index, target, slot);
    store.HandOver(name, index, target, slot);
    assert store.At(to) == old(store.At(from));
    forall p | p in filled && p != from
      ensures Content(store.inputs, store.outputs, p) == old(Content(store.inputs, store.outputs, p))
    {
      assert store.At(p) == old(store.At(p));
    }
  }

  lemma SlotsAre(store: Store, name: string, index: nat, target: string, slot: nat)
    requires store.At(OutputOf(name, index)) != null && store.At(InputOf(target, slot)) == null
    requires target in store.inputs && slot < |store.inputs[target]|
    ensures name in store.outputs && index < |store.outputs[name]| && store.outputs[name][index] != null
    ensures store.inputs[target][slot] == null
  {
  }

  /** What belongs at an output has been moved to the input where it belongs then. */
  lemma MovedBelongs(before: Tables, after: Tables, filled: iset<Place>, from: Place, to: Place, blocks: Blocks)
    requires Belong(before, filled, blocks) && from in filled && to !in filled
    requires from in blocks && to in blocks && blocks[to] == blocks[from]
    requires Content(after.inputs, after.outputs, to) == Content(before.inputs, before.outputs, from)
    requires SizeAt(after.inputSizes, after.outputSizes, to) == SizeAt(before.inputSizes, before.outputSizes, from)
    requires forall p {:trigger p in filled} :: p in filled && p != from ==>
               && Content(after.inputs, after.outputs, p) == Content(before.inputs, before.outputs, p)
               && SizeAt(after.inputSizes, after.outputSizes, p) == SizeAt(before.inputSizes, before.outputSizes, p)
    ensures Belong(after, filled - iset{from} + iset{to}, blocks)
  {
  }

  lemma SizeIsThere(tables: Tables, filled: iset<Place>, name: string, index: nat, blocks: Blocks)
    requires Belong(tables, filled, blocks) && OutputOf(name, index) in filled
    ensures OutputOf(name, index) in blocks
    ensures name in tables.outputSizes && index < |tables.outputSizes[name]|
  {
  }

  lemma SlotIsThere(blocks: BlockTable, blocks': BlockTable, sizes: SizeTable, target: string, slot: nat)
    requires InStep(blocks, sizes) && target in blocks && slot < |blocks[target]|
    ensures target in sizes && slot < |sizes[target]|
    ensures SameShape(blocks, blocks') ==> forall size :: InStep(blocks', WithSize(sizes, target, slot, size))
  {
  }

  /** The sizes in the tables once one has been handed over. */
  lemma SizesOtherwise(before: Tables, after: Tables, target: string, slot: nat, from: Place)
    requires target in before.inputSizes && slot < |before.inputSizes[target]|
    requires from.OutputOf? && SizeAt(before.inputSizes, before.outputSizes, from).Some?
    requires after.outputSizes == before.outputSizes
    requires after.inputSizes == WithSize(before.inputSizes, target, slot,
                                          SizeAt(before.inputSizes, before.outputSizes, from).value)
    ensures forall p {:trigger SizeAt(after.inputSizes, after.outputSizes, p)} ::
              SizeAt(after.inputSizes, after.outputSizes, p) ==
              SizeAt(before.inputSizes, before.outputSizes, if p == InputOf(target, slot) then from else p)
  {
  }

  method PassOn(name: string, index: nat, target: string, slot: nat, store: Store, sizes: Sizes,
                ghost filled: iset<Place>, ghost blocks: Blocks)
    requires HoldsAs(store, sizes, filled, blocks) && OutputOf(name, index) in filled
         && InputOf(target, slot) !in filled
    requires target in store.inputs && slot < |store.inputs[target]|
    requires InputOf(target, slot) in blocks && blocks[InputOf(target, slot)] == blocks[OutputOf(name, index)]
    modifies store`inputs, store`outputs, store`places, sizes`inputs
    ensures HoldsAs(store, sizes, filled - iset{OutputOf(name, index)} + iset{InputOf(target, slot)}, blocks)
    ensures SameShape(old(store.inputs), store.inputs) && SameShape(old(store.outputs), store.outputs)
  {
    hide Holds, InStep, Belong, SameShape, Content;
    ghost var before := Now(store, sizes);
    SizeIsThere(before, filled, name, index, blocks);
    SlotIsThere(store.inputs, store.inputs, sizes.inputs, target, slot);
    sizes.HandOver(name, index, target, slot);
    PassBlock(name, index, target, slot, store, filled);
    SlotIsThere(before.inputs, store.inputs, before.inputSizes, target, slot);
    SizesOtherwise(before, Now(store, sizes), target, slot, OutputOf(name, index));
    MovedBelongs(before, Now(store, sizes), filled, OutputOf(name, index), InputOf(target, slot), blocks);
  }

  /** `mapping` holds the memory links of `n`. */
  ghost predicate MappingOf(plan: Plan, n: QueryNode, mapping: map<nat, seq<(string, nat)>>)
    requires InPlan(plan, n)
  {
    mapping == NodeLinks(plan.g, plan.reuse, plan.homes[n], n, |plan.g.next[n]|)
  }

  lemma MappingAt(plan: Plan, n: QueryNode, mapping: map<nat, seq<(string, nat)>>, i: nat)
    requires InPlan(plan, n) && MappingOf(plan, n, mapping)
    ensures i in mapping <==> MemoryLink(plan, n, i)
    ensures i in mapping ==> |mapping[i]| == 1 && InputOf(mapping[i][0].0, mapping[i][0].1) == Target(plan, n, i)
  {
    NodeLinksAt(plan.g, plan.reuse, plan.homes[n], n, |plan.g.next[n]|, i);
  }

  /** Handing over output `i` of `n`, if it has a memory link. */
  method HandOverOutput(i: nat, mapping: map<nat, seq<(string, nat)>>, store: Store, sizes: Sizes, ghost n: QueryNode,
                        name: string,
                        ghost plan: Plan, ghost filled: iset<Place>, ghost blocks: Blocks)
    requires LinksCarry(plan, n, blocks)
    requires InPlan(plan, n) && MappingOf(plan, n, mapping) && name == n.name
    requires CanHandOver(plan, n, filled, store.inputs) && HoldsAs(store, sizes, HandedOver(plan, n, i, filled), blocks)
    modifies store`inputs, store`outputs, store`places, sizes`inputs
    ensures HoldsAs(store, sizes, HandedOver(plan, n, i + 1, filled), blocks)
    ensures SameShape(old(store.inputs), store.inputs) && SameShape(old(store.outputs), store.outputs)
  {
    HandOverStep(plan, n, i, filled, store.inputs);
    MappingAt(plan, n, mapping, i);
    if i in mapping {
      PassOn(name, i, mapping[i][0].0, mapping[i][0].1, store, sizes, HandedOver(plan, n, i, filled), blocks);
    }
  }

  lemma CanHandOverStays(plan: Plan, n: QueryNode, filled: iset<Place>, inputs: BlockTable, inputs': BlockTable)
    requires CanHandOver(plan, n, filled, inputs) && SameShape(inputs, inputs')
    ensures CanHandOver(plan, n, filled, inputs')
  {
  }

  /** Hands over the blocks of all memory links of `n`, in the order of its outputs. */
  method HandOverNode(name: string, mapping: map<nat, seq<(string, nat)>>, store: Store, sizes: Sizes,
                      ghost n: QueryNode, ghost plan: Plan, ghost filled: iset<Place>, ghost blocks: Blocks)
    requires LinksCarry(plan, n, blocks)
    requires InPlan(plan, n) && MappingOf(plan, n, mapping) && name == n.name
    requires CanHandOver(plan, n, filled, store.inputs) && HoldsAs(store, sizes, filled, blocks)
    requires name in store.outputs && |store.outputs[name]| == |plan.g.next[n]|
    modifies store`inputs, store`outputs, store`places, sizes`inputs
    ensures HoldsAs(store, sizes, HandedOver(plan, n, |plan.g.next[n]|, filled), blocks)
    ensures SameShape(old(store.inputs), store.inputs) && SameShape(old(store.outputs), store.outputs)
  {
    assert HandedOver(plan, n, 0, filled) == filled;
    for i := 0 to |store.outputs[name]|
      invariant HoldsAs(store, sizes, HandedOver(plan, n, i, filled), blocks)
           && CanHandOver(plan, n, filled, store.inputs)
      invariant SameShape(old(store.inputs), store.inputs) && SameShape(old(store.outputs), store.outputs)
    {
      label Before:
      HandOverOutput(i, mapping, store, sizes, n, name, plan, filled, blocks);
      CanHandOverStays(plan, n, filled, old@Before(store.inputs), store.inputs);
    }
  }

  /** The links of the nodes of a run. */
  function GetCurrentLinks(nodes: seq<QueryNode>, links: LinkMap): LinkMap {
    map name | name in links && (exists n :: n in nodes && n.name == name) :: links[name]
  }

  /** `links` holds the memory links of the run, and no others. */
  ghost predicate LinksOfRun(plan: Plan, nodes: seq<QueryNode>, links: LinkMap)
    requires AllInPlan(plan, nodes)
  {
    && (forall n {:trigger InPlan(plan, n)} :: n in nodes ==>
          && (n.name in links ==> MappingOf(plan, n, links[n.name]))
          && (n.name !in links ==> MappingOf(plan, n, map[])))
    && forall name {:trigger name in links} :: name in links ==> IsNamed(Members(nodes), name)
  }

  lemma CurrentLinksAreOfRun(plan: Plan, nodes: seq<QueryNode>, links: LinkMap)
    requires AllInPlan(plan, nodes) && LinksRecorded(plan.g, plan.reuse, plan.homes, links)
    ensures LinksOfRun(plan, nodes, GetCurrentLinks(nodes, links))
  {
    forall n | n in nodes
      ensures n.name in GetCurrentLinks(nodes, links) <==> n.name in links
      ensures n.name in links ==> MappingOf(plan, n, links[n.name])
      ensures n.name !in links ==> MappingOf(plan, n, map[])
    {
      assert InPlan(plan, n);
    }
  }

  /** The blocks of the `handed` nodes are handed over; the other nodes of the run can still do so. */
  ghost predicate Handing(plan: Plan, nodes: seq<QueryNode>, base: iset<Place>, filled: iset<Place>,
                          handed: set<QueryNode>, inputs: BlockTable, outputs: BlockTable) {
    && handed <= Members(nodes)
    && OutputsShaped(plan, nodes, |nodes|, outputs)
    && (forall n {:trigger CanHandOver(plan, n, filled, inputs)} :: n in nodes && n !in handed ==>
        CanHandOver(plan, n, filled, inputs))
    && forall p: Place {:trigger p in filled} :: p.InputOf? ==>
         (p in filled <==> p in base || p in Targets(plan, handed))
  }

  lemma OtherStillCan(plan: Plan, nodes: seq<QueryNode>, n: QueryNode, m: QueryNode, filled: iset<Place>,
                      inputs: BlockTable)
    requires AllInPlan(plan, nodes) && n in nodes && m in nodes && n != m
    requires CanHandOver(plan, m, filled, inputs) && InPlan(plan, n)
    ensures CanHandOver(plan, m, HandedOver(plan, n, |plan.g.next[n]|, filled), inputs)
  {
    assert Satisfies(plan.g, NamesAreUnique) && NameIsOwn(plan.g.nodes, n) && InPlan(plan, m);
    forall i: nat, j: nat | MemoryLink(plan, m, i) && MemoryLink(plan, n, j)
      ensures Target(plan, m, i) != Target(plan, n, j) {
      if Target(plan, m, i) == Target(plan, n, j) {
        TargetsDiffer(plan, m, i, n, j);
      }
    }
  }

  lemma OneMoreHanded(plan: Plan, nodes: seq<QueryNode>, base: iset<Place>, filled: iset<Place>, handed: set<QueryNode>,
                      inputs: BlockTable, outputs: BlockTable, n: QueryNode)
    requires AllInPlan(plan, nodes) && Handing(plan, nodes, base, filled, handed, inputs, outputs)
    requires n in nodes && n !in handed && InPlan(plan, n)
    ensures Handing(plan, nodes, base, HandedOver(plan, n, |plan.g.next[n]|, filled), handed + {n}, inputs, outputs)
  {
    var more := HandedOver(plan, n, |plan.g.next[n]|, filled);
    forall m | m in nodes && m !in handed + {n} ensures CanHandOver(plan, m, more, inputs) {
      assert CanHandOver(plan, m, filled, inputs);
      OtherStillCan(plan, nodes, n, m, filled, inputs);
    }
    assert Targets(plan, handed + {n}) == Targets(plan, handed) + Targets(plan, {n});
    assert Targets(plan, {n}) == iset i: nat | i < |plan.g.next[n]| && MemoryLink(plan, n, i) :: Target(plan, n, i);
  }

  lemma ShapesStay(plan: Plan, nodes: seq<QueryNode>, base: iset<Place>, filled: iset<Place>, handed: set<QueryNode>,
                   inputs: BlockTable, outputs: BlockTable, inputs': BlockTable, outputs': BlockTable)
    requires Handing(plan, nodes, base, filled, handed, inputs, outputs)
    requires SameShape(inputs, inputs') && SameShape(outputs, outputs')
    ensures Handing(plan, nodes, base, filled, handed, inputs', outputs')
  {
    forall n | n in nodes && n !in handed ensures CanHandOver(plan, n, filled, inputs') {
      assert CanHandOver(plan, n, filled, inputs);
      CanHandOverStays(plan, n, filled, inputs, inputs');
    }
    assert forall j :: 0 <= j < |nodes| ==>
         nodes[j].name in outputs && |outputs[nodes[j].name]| == |outputs'[nodes[j].name]|;
  }

  ghost predicate AllCarry(plan: Plan, nodes: seq<QueryNode>, blocks: Blocks) {
    forall n {:trigger InPlan(plan, n)} {:trigger LinksCarry(plan, n, blocks)} :: n in nodes ==>
         LinksCarry(plan, n, blocks)
  }

  method HandOverNext(name: string, links: LinkMap, store: Store, sizes: Sizes, ghost plan: Plan,
                      ghost nodes: seq<QueryNode>,
                      ghost base: iset<Place>, ghost filled: iset<Place>, ghost handed: set<QueryNode>,
                      ghost blocks: Blocks)
    returns (ghost filled': iset<Place>, ghost handed': set<QueryNode>)
    requires AllInPlan(plan, nodes) && LinksOfRun(plan, nodes, links) && name in links
    requires forall n :: n in handed ==> n.name != name
    requires AllCarry(plan, nodes, blocks)
    requires HoldsAs(store, sizes, filled, blocks) && Handing(plan, nodes, base, filled, handed, store.inputs,
                                                              store.outputs)
    modifies store`inputs, store`outputs, store`places, sizes`inputs
    ensures HoldsAs(store, sizes, filled', blocks) && Handing(plan, nodes, base, filled', handed', store.inputs,
                                                              store.outputs)
    ensures SameShape(old(store.inputs), store.inputs)
    ensures exists n :: n in nodes && n.name == name && handed' == handed + {n}
  {
    assert IsNamed(Members(nodes), name);
    ghost var n :| n in Members(nodes) && n.name == name;
    assert InPlan(plan, n);
    assert exists j :: 0 <= j < |nodes| && nodes[j] == n;
    assert CanHandOver(plan, n, filled, store.inputs);
    HandOverNode(name, links[name], store, sizes, n, plan, filled, blocks);
    handed', filled' := handed + {n}, HandedOver(plan, n, |plan.g.next[n]|, filled);
    OneMoreHanded(plan, nodes, base, filled, handed, old(store.inputs), old(store.outputs), n);
    ShapesStay(plan, nodes, base, filled', handed', old(store.inputs), old(store.outputs), store.inputs, store.outputs);
  }

  lemma {:induction false} RunTakes(plan: Plan, nodes: seq<QueryNode>, k: nat, n: QueryNode)
    requires k <= |nodes| && AllInPlan(plan, nodes) && n in nodes[..k] && InPlan(plan, n)
    ensures OutputsTaken(plan, n, |plan.g.next[n]|) <= RunTaken(plan, nodes, k)
  {
    if n != nodes[k - 1] {
      assert nodes[..k] == nodes[..k - 1] + [nodes[k - 1]];
      RunTakes(plan, nodes, k - 1, n);
    }
  }

  ghost predicate NamesOf(names: seq<string>, nodes: set<QueryNode>) {
    forall name {:trigger name in names} {:trigger IsNamed(nodes, name)} :: name in names <==> IsNamed(nodes, name)
  }

  /** What is filled after a run, once the inputs of everything that has run are gone. */
  ghost function Leftover(plan: Plan, done: set<QueryNode>, nodes: seq<QueryNode>, names: seq<string>): iset<Place>
    requires AllInPlan(plan, nodes)
  {
    Waiting(plan, done) + RunTaken(plan, nodes, |nodes|) - NamedInputs(names)
  }

  lemma ReadyToHandOver(plan: Plan, done: set<QueryNode>, nodes: seq<QueryNode>, names: seq<string>, n: QueryNode,
                        before: BlockTable, inputs: BlockTable)
    requires done <= plan.g.nodes && NextRun(plan, done, nodes) && n in nodes && InPlan(plan, n)
    requires NamesOf(names, done + Members(nodes))
    requires InputsShaped(plan, done, before) && Narrowed(before, inputs, names)
    requires TargetsReady(plan, n, |plan.g.next[n]|, before.Keys)
    ensures CanHandOver(plan, n, Leftover(plan, done, nodes, names), inputs)
  {
    RunTakes(plan, nodes, |nodes|, n);
    assert nodes[..|nodes|] == nodes;
    forall i: nat | MemoryLink(plan, n, i)
      ensures OutputOf(n.name, i) in Leftover(plan, done, nodes, names)
      ensures Target(plan, n, i) !in Leftover(plan, done, nodes, names)
      ensures Target(plan, n, i).name in inputs && Target(plan, n, i).index < |inputs[Target(plan, n, i).name]|
    {
      assert OutputOf(n.name, i) in OutputsTaken(plan, n, |plan.g.next[n]|);
      TargetIsFree(plan, done, nodes, n, i);
      VectorOf(plan, done, before, plan.g.next[n][i]);
    }
  }

  lemma TargetIsFree(plan: Plan, done: set<QueryNode>, nodes: seq<QueryNode>, n: QueryNode, i: nat)
    requires done <= plan.g.nodes && NextRun(plan, done, nodes) && n in nodes && MemoryLink(plan, n, i)
    ensures Target(plan, n, i) !in Waiting(plan, done) + RunTaken(plan, nodes, |nodes|)
    ensures !IsNamed(done + Members(nodes), Target(plan, n, i).name)
  {
    assert InPlan(plan, n);
    TargetIsLater(plan, done, nodes, n, i);
    TakenByRun(plan, nodes, |nodes|, Target(plan, n, i));
    assert nodes[..|nodes|] == nodes;
    forall m, j: nat | m in done && MemoryLink(plan, m, j) ensures Target(plan, m, j) != Target(plan, n, i) {
      if Target(plan, m, j) == Target(plan, n, i) {
        TargetsDiffer(plan, m, j, n, i);
      }
    }
  }

  /** The leftover inputs, and what the run hands over, are exactly what waits after the run. */
  lemma LeftoverWaits(plan: Plan, done: set<QueryNode>, nodes: seq<QueryNode>, names: seq<string>)
    requires done <= plan.g.nodes && NextRun(plan, done, nodes) && NamesOf(names, done + Members(nodes))
    ensures forall p: Place {:trigger p in Waiting(plan, done + Members(nodes))} ::
         p in Waiting(plan, done + Members(nodes)) <==>
              p.InputOf? && (p in Leftover(plan, done, nodes, names) || p in Targets(plan, Members(nodes)))
  {
    WaitingAfterRun(plan, done, nodes);
    forall p: Place | p.InputOf?
      ensures p in Leftover(plan, done, nodes, names) <==> p in Waiting(plan, done) - InputsOf(Members(nodes))
    {
      TakenByRun(plan, nodes, |nodes|, p);
      assert nodes[..|nodes|] == nodes;
      assert p in NamedInputs(names) <==> IsNamed(done, p.name) || IsNamed(Members(nodes), p.name);
    }
  }

  /** The nodes of the run without a link under one of the names that are left. */
  ghost function HandedWhen(nodes: seq<QueryNode>, left: set<string>): set<QueryNode> {
    set n | n in nodes && n.name !in left
  }

  lemma HandedGrows(plan: Plan, nodes: seq<QueryNode>, left: set<string>, n: QueryNode)
    requires AllInPlan(plan, nodes) && n in nodes && n.name in left
    ensures HandedWhen(nodes, left - {n.name}) == HandedWhen(nodes, left) + {n}
  {
    assert InPlan(plan, n) && Satisfies(plan.g, NamesAreUnique) && NameIsOwn(plan.g.nodes, n);
    forall m | m in nodes && m.name == n.name ensures m == n {
      assert InPlan(plan, m);
    }
  }

  /** Hands over the blocks of all links of a run. */
  method HandOverLinks(links: LinkMap, store: Store, sizes: Sizes, ghost plan: Plan, ghost nodes: seq<QueryNode>,
                       ghost base: iset<Place>, ghost blocks: Blocks)
    returns (ghost filled: iset<Place>)
    requires AllCarry(plan, nodes, blocks)
    requires AllInPlan(plan, nodes) && LinksOfRun(plan, nodes, links) && HoldsAs(store, sizes, base, blocks)
    requires Handing(plan, nodes, base, base, HandedWhen(nodes, links.Keys), store.inputs, store.outputs)
    modifies store`inputs, store`outputs, store`places, sizes`inputs
    ensures HoldsAs(store, sizes, filled, blocks) && SameShape(old(store.inputs), store.inputs)
    ensures Handing(plan, nodes, base, filled, Members(nodes), store.inputs, store.outputs)
  {
    var left := links.Keys;
    filled := base;
    while left != {}
      invariant left <= links.Keys && HoldsAs(store, sizes, filled, blocks)
      invariant Handing(plan, nodes, base, filled, HandedWhen(nodes, left), store.inputs, store.outputs)
      invariant SameShape(old(store.inputs), store.inputs)
    {
      var name :| name in left;
      ghost var handed;
      filled, handed := HandOverNext(name, links, store, sizes, plan, nodes, base, filled, HandedWhen(nodes, left),
                                      blocks);
      ghost var n :| n in nodes && n.name == name && handed == HandedWhen(nodes, left) + {n};
      HandedGrows(plan, nodes, left, n);
      left := left - {name};
    }
    assert HandedWhen(nodes, {}) == Members(nodes);
  }

  /** A node without links hands nothing over. */
  lemma NothingToHandOver(plan: Plan, nodes: seq<QueryNode>, links: LinkMap)
    requires AllInPlan(plan, nodes) && LinksOfRun(plan, nodes, links)
    ensures Targets(plan, HandedWhen(nodes, links.Keys)) == iset{}
  {
    forall n, i: nat | n in nodes && n.name !in links ensures !MemoryLink(plan, n, i) {
      assert InPlan(plan, n);
      MappingAt(plan, n, map[], i);
    }
  }

  lemma ShapedStays(plan: Plan, done: set<QueryNode>, inputs: BlockTable, inputs': BlockTable)
    requires InputsShaped(plan, done, inputs) && SameShape(inputs, inputs')
    ensures InputsShaped(plan, done, inputs')
  {
  }

  lemma ShapedAfterDrop(plan: Plan, done: set<QueryNode>, nodes: seq<QueryNode>, names: seq<string>,
                        before: BlockTable, inputs: BlockTable)
    requires InputsShaped(plan, done, before) && Narrowed(before, inputs, names)
         && NamesOf(names, done + Members(nodes))
    ensures InputsShaped(plan, done + Members(nodes), inputs)
  {
  }

  lemma HandingStarts(plan: Plan, done: set<QueryNode>, nodes: seq<QueryNode>, names: seq<string>, links: LinkMap,
                      before: BlockTable, inputs: BlockTable, outputs: BlockTable)
    requires done <= plan.g.nodes && NextRun(plan, done, nodes) && NamesOf(names, done + Members(nodes))
    requires LinksOfRun(plan, nodes, links)
    requires InputsShaped(plan, done, before) && Narrowed(before, inputs, names)
         && OutputsShaped(plan, nodes, |nodes|, outputs)
    requires AllTargetsReady(plan, nodes, before.Keys)
    ensures var base := Leftover(plan, done, nodes, names);
            Handing(plan, nodes, base, base, HandedWhen(nodes, links.Keys), inputs, outputs)
  {
    NothingToHandOver(plan, nodes, links);
    forall n | n in nodes ensures CanHandOver(plan, n, Leftover(plan, done, nodes, names), inputs) {
      assert InPlan(plan, n);
      ReadyToHandOver(plan, done, nodes, names, n, before, inputs);
    }
  }

  /** Every output of the run has a slot for its size. */
  ghost predicate OutputsHaveSizes(plan: Plan, nodes: seq<QueryNode>, outputs: SizeTable) {
    forall n {:trigger n in nodes} :: n in nodes ==>
      n in plan.g.nodes && n.name in outputs && |plan.g.next[n]| <= |outputs[n.name]|
  }

  /** The run has been set up, and possibly executed. */
  ghost predicate InUse(plan: Plan, done: set<QueryNode>, nodes: seq<QueryNode>, store: Store, sizes: Sizes)
    requires AllInPlan(plan, nodes)
    reads store, store.pool, sizes
  {
    && Allocated(plan, done, nodes, |nodes|, store)
    && InputsShaped(plan, done, store.inputs) && OutputsShaped(plan, nodes, |nodes|, store.outputs)
    && AllTargetsReady(plan, nodes, store.inputs.Keys)
    && InStep(store.inputs, sizes.inputs) && OutputsHaveSizes(plan, nodes, sizes.outputs)
  }

  /** Frees the inputs; every link of the run can then be handed over. */
  method ClearInputs(names: seq<string>, store: Store, sizes: Sizes, ghost links: LinkMap, ghost plan: Plan,
                     ghost done: set<QueryNode>, ghost nodes: seq<QueryNode>, ghost blocks: Blocks)
    requires done <= plan.g.nodes && NextRun(plan, done, nodes) && NamesOf(names, done + Members(nodes))
    requires LinksOfRun(plan, nodes, links) && InUse(plan, done, nodes, store, sizes)
    requires HoldsAs(store, sizes, Waiting(plan, done) + RunTaken(plan, nodes, |nodes|), blocks)
    modifies store`inputs, store`places, store.pool, sizes`inputs
    ensures HoldsAs(store, sizes, Leftover(plan, done, nodes, names), blocks)
         && InputsShaped(plan, done + Members(nodes), store.inputs)
    ensures Handing(plan, nodes, Leftover(plan, done, nodes, names), Leftover(plan, done, nodes, names),
                    HandedWhen(nodes, links.Keys), store.inputs, store.outputs)
  {
    DropScheduledInputs(names, store, sizes, Waiting(plan, done) + RunTaken(plan, nodes, |nodes|), blocks);
    HandingStarts(plan, done, nodes, names, links, old(store.inputs), store.inputs, store.outputs);
    ShapedAfterDrop(plan, done, nodes, names, old(store.inputs), store.inputs);
  }

  /** Frees the outputs nobody took over. */
  method ClearOutputs(store: Store, sizes: Sizes, ghost plan: Plan, ghost done: set<QueryNode>,
                      ghost nodes: seq<QueryNode>,
                      ghost names: seq<string>, ghost filled: iset<Place>, ghost blocks: Blocks)
    requires done <= plan.g.nodes && NextRun(plan, done, nodes) && NamesOf(names, done + Members(nodes))
    requires HoldsAs(store, sizes, filled, blocks)
    requires Handing(plan, nodes, Leftover(plan, done, nodes, names), filled, Members(nodes), store.inputs,
                     store.outputs)
    modifies store`outputs, store`places, store.pool, sizes`outputs
    ensures HoldsAs(store, sizes, Waiting(plan, done + Members(nodes)), blocks)
    ensures store.outputs == map[] && sizes.outputs == map[]
  {
    hide Belong, Waiting, Leftover, NextRun, NamesOf, Holds, Content, InStep, Handing;
    ghost var before, waiting := Now(store, sizes), Waiting(plan, done + Members(nodes));
    InputsWait(plan, done, nodes, names, filled, store.inputs, store.outputs);
    DropAllBlocks(store, filled, waiting);
    sizes.outputs := map[];
    StillBelong(before, Now(store, sizes), filled, waiting, blocks);
  }

  /** Once everything has been handed over, what waits is what is filled among the inputs. */
  lemma InputsWait(plan: Plan, done: set<QueryNode>, nodes: seq<QueryNode>, names: seq<string>, filled: iset<Place>,
                   inputs: BlockTable, outputs: BlockTable)
    requires done <= plan.g.nodes && NextRun(plan, done, nodes) && NamesOf(names, done + Members(nodes))
    requires Handing(plan, nodes, Leftover(plan, done, nodes, names), filled, Members(nodes), inputs, outputs)
    ensures Waiting(plan, done + Members(nodes)) <= filled
    ensures forall p :: p in Waiting(plan, done + Members(nodes)) <==> p.InputOf? && p in filled
  {
    hide Waiting, Leftover, NextRun, NamesOf;
    LeftoverWaits(plan, done, nodes, names);
  }

  /** Frees all outputs; of what was filled, only inputs are left. */
  method DropAllBlocks(store: Store, ghost filled: iset<Place>, ghost left: iset<Place>)
    requires Holds(store, filled) && forall p :: p in left <==> p.InputOf? && p in filled
    modifies store`outputs, store`places, store.pool
    ensures Holds(store, left) && store.outputs == map[]
    ensures forall p {:trigger Content(store.inputs, store.outputs, p)} :: p in left ==>
              Content(store.inputs, store.outputs, p) == old(Content(store.inputs, store.outputs, p))
  {
    store.DropAllOutputs();
    assert forall p {:trigger Content(store.inputs, store.outputs, p)} :: p in left ==>
        store.At(p) == old(store.At(p));
  }

  /** Hands over what has a link, and frees the other outputs. */
  method PassOnOutputs(links: LinkMap, store: Store, sizes: Sizes, ghost plan: Plan, ghost done: set<QueryNode>,
                       ghost nodes: seq<QueryNode>, ghost names: seq<string>, ghost blocks: Blocks)
    requires done <= plan.g.nodes && NextRun(plan, done, nodes) && NamesOf(names, done + Members(nodes))
    requires LinksOfRun(plan, nodes, links) && AllCarry(plan, nodes, blocks)
    requires HoldsAs(store, sizes, Leftover(plan, done, nodes, names), blocks)
         && InputsShaped(plan, done + Members(nodes), store.inputs)
    requires Handing(plan, nodes, Leftover(plan, done, nodes, names), Leftover(plan, done, nodes, names),
                     HandedWhen(nodes, links.Keys), store.inputs, store.outputs)
    modifies store`inputs, store`outputs, store`places, store.pool, sizes`inputs, sizes`outputs
    ensures HoldsAs(store, sizes, Waiting(plan, done + Members(nodes)), blocks)
    ensures store.outputs == map[] && sizes.outputs == map[]
    ensures InputsShaped(plan, done + Members(nodes), store.inputs)
  {
    ghost var filled := HandOverLinks(links, store, sizes, plan, nodes, Leftover(plan, done, nodes, names), blocks);
    ShapedStays(plan, done + Members(nodes), old(store.inputs), store.inputs);
    ClearOutputs(store, sizes, plan, done, nodes, names, filled, blocks);
  }

  ghost predicate IsTarget(plan: Plan, nodes: seq<QueryNode>, p: Place) {
    exists n, i: nat :: n in nodes && MemoryLink(plan, n, i) && p == Target(plan, n, i)
  }

  /** Where the block that belongs at `p` after the run is before that: at the output linked to it, or there. */
  ghost function Origin(plan: Plan, nodes: seq<QueryNode>, p: Place): Place {
    if IsTarget(plan, nodes, p) then
      var n, i: nat :| n in nodes && MemoryLink(plan, n, i) && p == Target(plan, n, i);
      OutputOf(n.name, i)
    else p
  }

  /** Every block that waits, and its size, was at the origin of its place. */
  ghost predicate HandedOn(plan: Plan, nodes: seq<QueryNode>, waiting: iset<Place>, before: Inventory,
                           after: Inventory) {
    forall p {:trigger p in waiting} :: p in waiting ==> Carried(before, Origin(plan, nodes, p), after, p)
  }

  ghost function Taken(store: Store, sizes: Sizes): Inventory
    reads store, sizes
  {
    Inventory(store.places, sizes.inputs, sizes.outputs)
  }

  lemma OriginOfTarget(plan: Plan, nodes: seq<QueryNode>, n: QueryNode, i: nat)
    requires n in nodes && MemoryLink(plan, n, i)
    ensures Origin(plan, nodes, Target(plan, n, i)) == OutputOf(n.name, i)
  {
    var p := Target(plan, n, i);
    assert IsTarget(plan, nodes, p);
    var m, j: nat :| m in nodes && MemoryLink(plan, m, j) && p == Target(plan, m, j)
         && Origin(plan, nodes, p) == OutputOf(m.name, j);
    TargetsDiffer(plan, n, i, m, j);
  }

  /** What the run finds in a place is not what it hands over to it. */
  lemma OriginOfTaken(plan: Plan, done: set<QueryNode>, nodes: seq<QueryNode>, p: Place)
    requires done <= plan.g.nodes && NextRun(plan, done, nodes)
    requires p in Waiting(plan, done) + RunTaken(plan, nodes, |nodes|)
    ensures Origin(plan, nodes, p) == p
  {
    if IsTarget(plan, nodes, p) {
      var n, i: nat :| n in nodes && MemoryLink(plan, n, i) && p == Target(plan, n, i);
      TargetIsFree(plan, done, nodes, n, i);
    }
  }

  /** What is at the origin of a place belongs there. */
  ghost function CargoOf(store: Store, sizes: Sizes, plan: Plan, nodes: seq<QueryNode>): Blocks
    reads store, sizes
  {
    imap p | store.At(Origin(plan, nodes, p)) != null && sizes.At(Origin(plan, nodes, p)).Some? ::
      Cargo(store.At(Origin(plan, nodes, p)), sizes.At(Origin(plan, nodes, p)).value)
  }

  /** Wherever there is a block, there is a size. */
  lemma BlockHasSize(store: Store, sizes: Sizes, plan: Plan, done: set<QueryNode>, nodes: seq<QueryNode>, p: Place)
    requires AllInPlan(plan, nodes) && InUse(plan, done, nodes, store, sizes)
    requires p in Waiting(plan, done) + RunTaken(plan, nodes, |nodes|)
    ensures store.At(p) != null && sizes.At(p).Some?
  {
    if p.OutputOf? {
      TakenByRun(plan, nodes, |nodes|, p);
      assert nodes[..|nodes|] == nodes;
      var n :| n in Members(nodes) && n.name == p.name;
      assert HasVectors(plan, n, store.inputs, store.outputs);
    }
  }

  /**
   * After a run: the inputs of everything that has run are freed, the outputs with a memory link move to their
   * consumers, and all other outputs are freed. What is held then is exactly what waits for runs to come, each
   * block with its size where its own link leads.
   */
  method FreeMemoryBlocks(names: seq<string>, links: LinkMap, store: Store, sizes: Sizes, ghost plan: Plan,
                          ghost done: set<QueryNode>, ghost nodes: seq<QueryNode>)
    requires done <= plan.g.nodes && NextRun(plan, done, nodes) && NamesOf(names, done + Members(nodes))
    requires LinksOfRun(plan, nodes, links) && InUse(plan, done, nodes, store, sizes)
    modifies store`inputs, store`outputs, store`places, store.pool, sizes`inputs, sizes`outputs
    ensures Idle(plan, done + Members(nodes), store, sizes)
    ensures HandedOn(plan, nodes, Waiting(plan, done + Members(nodes)), old(Taken(store, sizes)), Taken(store, sizes))
    ensures OneEach(old(store.places))
  {
    hide Waiting, InputsShaped, OutputsShaped, AllTargetsReady, LinksOfRun, NextRun, Origin, Handing, RunTaken;
    LocatedIsOneEach(store.inputs, store.outputs, store.places);
    ghost var blocks, before := CargoOf(store, sizes, plan, nodes), Taken(store, sizes);
    BlocksBelong(store, sizes, plan, done, nodes, blocks);
    ClearInputs(names, store, sizes, links, plan, done, nodes, blocks);
    PassOnOutputs(links, store, sizes, plan, done, nodes, names, blocks);
    forall p | p in Waiting(plan, done + Members(nodes))
      ensures Carried(before, Origin(plan, nodes, p), Taken(store, sizes), p)
    {
      assert IsAt(Now(store, sizes), p, blocks[p]);
      assert old(store.At(Origin(plan, nodes, p))) == blocks[p].block;
    }
  }

  lemma BlocksBelong(store: Store, sizes: Sizes, plan: Plan, done: set<QueryNode>, nodes: seq<QueryNode>,
                     blocks: Blocks)
    requires done <= plan.g.nodes && NextRun(plan, done, nodes) && InUse(plan, done, nodes, store, sizes)
    requires blocks == CargoOf(store, sizes, plan, nodes)
    ensures HoldsAs(store, sizes, Waiting(plan, done) + RunTaken(plan, nodes, |nodes|), blocks)
         && AllCarry(plan, nodes, blocks)
  {
    hide Waiting, RunTaken, OutputsTaken, Holds, InputsShaped, OutputsShaped, AllTargetsReady;
    forall p | p in Waiting(plan, done) + RunTaken(plan, nodes, |nodes|)
      ensures p in blocks && IsAt(Now(store, sizes), p, blocks[p]) {
      OriginOfTaken(plan, done, nodes, p);
      BlockHasSize(store, sizes, plan, done, nodes, p);
    }
    forall n | n in nodes ensures LinksCarry(plan, n, blocks) {
      assert InPlan(plan, n) && nodes[..|nodes|] == nodes;
      RunTakes(plan, nodes, |nodes|, n);
      forall i: nat | MemoryLink(plan, n, i)
        ensures OutputOf(n.name, i) in blocks && Target(plan, n, i) in blocks
             && blocks[Target(plan, n, i)] == blocks[OutputOf(n.name, i)]
      {
        LinkOutputIsTaken(plan, n, i);
        OriginOfTarget(plan, nodes, n, i);
        OriginOfTaken(plan, done, nodes, OutputOf(n.name, i));
        BlockHasSize(store, sizes, plan, done, nodes, OutputOf(n.name, i));
      }
    }
  }

  lemma LinkOutputIsTaken(plan: Plan, n: QueryNode, i: nat)
    requires MemoryLink(plan, n, i)
    ensures OutputOf(n.name, i) in OutputsTaken(plan, n, |plan.g.next[n]|)
  {
  }
}
