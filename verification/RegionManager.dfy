/** Allocation of FPGA regions to accelerators, whose bitstreams may span several regions. */
module RegionManager {
  import opened Options
  import opened Sequences

  /** A bitstream occupies a main region and any number of further ones; a region may be listed twice. */
  datatype Bitstream = Bitstream(mainRegion: string, stubRegions: seq<string>)

  datatype Accel = Accel(bitstreams: seq<Bitstream>, registers: map<string, int>)

  /** Bitstreams are told apart by where they are kept: at an index, in an accelerator. */
  datatype BitstreamId = BitstreamId(accel: string, index: nat)

  /** A loaded accelerator, with the bitstream it was loaded from. */
  datatype AccelInst = AccelInst(id: BitstreamId, bitstream: Bitstream)

  function RegionsOf(bitstream: Bitstream): seq<string> {
    [bitstream.mainRegion] + bitstream.stubRegions
  }

  ghost function SetOf(names: seq<string>): set<string> {
    set name | name in names
  }

  ghost function RegionSet(bitstream: Bitstream): set<string> {
    SetOf(RegionsOf(bitstream))
  }

  class Region {
    var locked: bool
    var stub: bool
    var bitstream: Option<BitstreamId>
    var registers: map<int, nat>

    constructor ()
      ensures !locked && !stub && bitstream == None && registers == map[]
    {
      locked, stub, bitstream, registers := false, false, None, map[];
    }

    predicate CanElideLoad(id: BitstreamId)
      reads this
    {
      bitstream == Some(id)
    }

    /** Locks the region for an accelerator; fails, changing nothing, if it is locked. */
    method LoadAccel(id: BitstreamId) returns (ok: bool)
      modifies this`locked, this`stub, this`bitstream
      ensures ok <==> !old(locked)
      ensures ok ==> locked && bitstream == Some(id) && stub == (old(bitstream) == Some(id) && old(stub))
      ensures !ok ==> unchanged(this)
    {
      ok := !locked;
      if ok {
        if bitstream != Some(id) {
          stub := false;
          bitstream := Some(id);
        }
        locked := true;
      }
    }

    method LoadStub(id: BitstreamId) returns (ok: bool)
      modifies this`locked, this`stub, this`bitstream
      ensures ok <==> !old(locked)
      ensures ok ==> locked && bitstream == Some(id) && stub == (old(bitstream) != Some(id) || old(stub))
      ensures !ok ==> unchanged(this)
    {
      ok := !locked;
      if ok {
        if bitstream != Some(id) {
          stub := true;
          bitstream := Some(id);
        }
        locked := true;
      }
    }

    method UnloadAccel() returns (ok: bool)
      modifies this`locked
      ensures ok <==> old(locked)
      ensures !locked
    {
      ok := locked;
      locked := false;
    }
  }

  ghost predicate HoldsIts(inst: AccelInst, locked: set<string>) {
    NoDuplicates(RegionsOf(inst.bitstream)) && RegionSet(inst.bitstream) <= locked
  }

  ghost predicate HeldBySome(live: set<AccelInst>, region: string) {
    exists i :: i in live && region in RegionSet(i.bitstream)
  }

  /** Live instances hold disjoint sets of regions, and exactly the regions they hold are locked. */
  ghost predicate Holding(live: set<AccelInst>, locked: set<string>) {
    && (forall i {:trigger HoldsIts(i, locked)} :: i in live ==> HoldsIts(i, locked))
    && (forall i, j {:trigger RegionSet(i.bitstream), RegionSet(j.bitstream)} :: i in live && j in live && i != j ==>
          RegionSet(i.bitstream) !! RegionSet(j.bitstream))
    && forall r {:trigger HeldBySome(live, r)} :: r in locked ==> HeldBySome(live, r)
  }

  lemma OneLess(live: set<AccelInst>, locked: set<string>, inst: AccelInst)
    requires Holding(live, locked) && inst in live
    ensures Holding(live - {inst}, locked - RegionSet(inst.bitstream))
  {
    forall i | i in live - {inst} ensures HoldsIts(i, locked - RegionSet(inst.bitstream)) {
      assert HoldsIts(i, locked);
    }
    forall r | r in locked - RegionSet(inst.bitstream) ensures HeldBySome(live - {inst}, r) {
      assert HeldBySome(live, r);
      var i :| i in live && r in RegionSet(i.bitstream);
      assert i in live - {inst};
    }
  }

  lemma OneMore(live: set<AccelInst>, locked: set<string>, inst: AccelInst)
    requires Holding(live, locked) && NoDuplicates(RegionsOf(inst.bitstream)) && RegionSet(inst.bitstream) !! locked
    ensures Holding(live + {inst}, locked + RegionSet(inst.bitstream)) && inst !in live
  {
    var main := inst.bitstream.mainRegion;
    assert RegionsOf(inst.bitstream)[0] == main && main in RegionSet(inst.bitstream);
    assert inst in live ==> HoldsIts(inst, locked);
    forall i | i in live + {inst} ensures HoldsIts(i, locked + RegionSet(inst.bitstream)) {
      assert i in live ==> HoldsIts(i, locked);
    }
    forall i | i in live && i != inst ensures RegionSet(i.bitstream) !! RegionSet(inst.bitstream) {
      assert HoldsIts(i, locked);
    }
    forall r | r in locked + RegionSet(inst.bitstream) ensures HeldBySome(live + {inst}, r) {
      if r in locked {
        assert HeldBySome(live, r);
        var i :| i in live && r in RegionSet(i.bitstream);
        assert i in live + {inst};
      }
    }
  }

  /** The bitstream a region belongs to, and whether it is controlled from another region. */
  datatype Content = Content(bitstream: Option<BitstreamId>, stub: bool)

  /**
   * What regions hold once a bitstream has been loaded into the listed ones: all of them belong to it, and unless they
   * did before, the first one controls the others.
   */
  ghost function LoadedInto(before: map<string, Content>, id: BitstreamId,
                            names: seq<string>): (after: map<string, Content>)
    ensures after.Keys == before.Keys
  {
    map r | r in before ::
      if r !in names then before[r]
      else Content(Some(id), if before[r].bitstream == Some(id) then before[r].stub else r != names[0])
  }

  function AsMain(before: Content, id: BitstreamId): Content {
    Content(Some(id), before.bitstream == Some(id) && before.stub)
  }

  function AsStub(before: Content, id: BitstreamId): Content {
    Content(Some(id), before.bitstream != Some(id) || before.stub)
  }

  lemma MainLoaded(before: map<string, Content>, id: BitstreamId, main: string)
    requires main in before
    ensures LoadedInto(before, id, [main]) == before[main := AsMain(before[main], id)]
  {
  }

  lemma StubLoaded(before: map<string, Content>, id: BitstreamId, names: seq<string>, name: string)
    requires name in before && name !in names && names != []
    ensures LoadedInto(before, id, names + [name]) ==
            LoadedInto(before, id, names)[name := AsStub(LoadedInto(before, id, names)[name], id)]
  {
    assert (names + [name])[0] == names[0];
  }

  /** The longest part of `names` from its start that lists no region twice. */
  ghost function Leading(names: seq<string>): (front: seq<string>)
    ensures front <= names && NoDuplicates(front)
    ensures front == names <==> NoDuplicates(names)
  {
    if names == [] then []
    else
      var last := |names| - 1;
      var front := Leading(names[..last]);
      if front == names[..last] && names[last] !in front then names else front
  }

  /** The first name after the leading ones repeats one of them. */
  lemma {:induction false} LeadingEnds(names: seq<string>)
    requires !NoDuplicates(names)
    ensures |Leading(names)| < |names| && names[|Leading(names)|] in Leading(names)
  {
    var last := |names| - 1;
    if !NoDuplicates(names[..last]) {
      LeadingEnds(names[..last]);
    }
  }

  lemma {:induction false} LeadingIsLongest(names: seq<string>, k: nat)
    requires k <= |names| && NoDuplicates(names[..k])
    ensures k <= |Leading(names)|
  {
    if !NoDuplicates(names) {
      LeadingEnds(names);
    }
  }

  /** The offset of a register in words, as the source divides it: toward zero. */
  function WordOffset(offset: int): int {
    if offset >= 0 then offset / 4 else -((-offset) / 4)
  }

  /** The registers once the parameters have been written, in their order. */
  ghost function Written(registers: map<int, nat>, accel: Accel, parameters: seq<(string, nat)>): map<int, nat>
    requires forall p :: p in parameters ==> p.0 in accel.registers
  {
    if parameters == [] then registers
    else
      var last := parameters[|parameters| - 1];
      Written(registers, accel, parameters[..|parameters| - 1])[WordOffset(accel.registers[last.0]) := last.1]
  }

  /** The parameters before the first that is not a register. */
  ghost function Known(accel: Accel, parameters: seq<(string, nat)>): (known: seq<(string, nat)>)
    ensures known <= parameters && forall p :: p in known ==> p.0 in accel.registers
    ensures known == parameters <==> AllKnown(accel, parameters)
    ensures known != parameters ==> parameters[|known|].0 !in accel.registers
  {
    if parameters == [] || parameters[0].0 !in accel.registers then []
    else [parameters[0]] + Known(accel, parameters[1..])
  }

  /** All parameters are registers of the accelerator. */
  predicate AllKnown(accel: Accel, parameters: seq<(string, nat)>) {
    forall p :: p in parameters ==> p.0 in accel.registers
  }

  ghost function Started(registers: map<int, nat>, accel: Accel): map<int, nat>
    requires "control" in accel.registers
  {
    registers[WordOffset(accel.registers["control"]) := 1]
  }

  /** The registers once an accelerator has been programmed, and started if it has all the registers this takes. */
  ghost function AfterRunning(registers: map<int, nat>, accel: Accel, parameters: seq<(string, nat)>): map<int, nat> {
    var programmed := Written(registers, accel, Known(accel, parameters));
    if AllKnown(accel, parameters) && "control" in accel.registers then Started(programmed, accel) else programmed
  }

  lemma AfterRunningIs(registers: map<int, nat>, accel: Accel, parameters: seq<(string, nat)>)
    ensures AfterRunning(registers, accel, parameters) ==
            var programmed := Written(registers, accel, Known(accel, parameters));
            if AllKnown(accel, parameters) && "control" in accel.registers then Started(programmed, accel)
            else programmed
  {
  }

  /** What the source throws. */
  datatype LoadError = FPGAFull | RegionNotFound | RegionLocked | NoSuchRegister

  datatype LoadResult = Loaded(instance: AccelInst) | Failed(error: LoadError)

  class PRManager {
    var regions: map<string, Region>
    var accels: map<string, Accel>
    ghost var live: set<AccelInst>
    ghost var lost: set<string>

    constructor (regions: map<string, Region>, accels: map<string, Accel>)
      requires forall a, b {:trigger regions[a], regions[b]} ::
           a in regions && b in regions && regions[a] == regions[b] ==> a == b
      requires forall r :: r in regions ==> !regions[r].locked
      ensures Owned() && live == {} && lost == {} && this.regions == regions && this.accels == accels
    {
      this.regions, this.accels, live, lost := regions, accels, {}, {};
    }

    /** The names of the regions in use. */
    ghost function Locked(): set<string>
      reads this`regions, regions.Values`locked
    {
      set r | r in regions && regions[r].locked
    }

    /** What the regions hold. */
    ghost function Contents(): (contents: map<string, Content>)
      reads this`regions, regions.Values`bitstream, regions.Values`stub
    {
      map r | r in regions :: Content(regions[r].bitstream, regions[r].stub)
    }

    /** The registers of the regions. */
    ghost function Registers(): (registers: map<string, map<int, nat>>)
      reads this`regions, regions.Values`registers
    {
      map r | r in regions :: regions[r].registers
    }

    /** Every region has its own lock. */
    ghost predicate RegionsApart()
      reads this`regions
    {
      forall a, b {:trigger regions[a], regions[b]} :: a in regions && b in regions && regions[a] == regions[b] ==>
           a == b
    }

    /** Every locked region is held by exactly one live instance, or lost: no instance that holds it is known. */
    ghost predicate Owned()
      reads this`regions, this`live, this`lost, regions.Values`locked
    {
      RegionsApart() && lost <= Locked() && Holding(live, Locked() - lost)
    }

    ghost predicate AllFree(names: seq<string>)
      reads this`regions, regions.Values`locked
    {
      forall k {:trigger names[k]} :: 0 <= k < |names| ==> names[k] in regions && !regions[names[k]].locked
    }

    /** All regions of the bitstream exist and are free. */
    ghost predicate Free(bitstream: Bitstream)
      reads this`regions, regions.Values`locked
    {
      AllFree(RegionsOf(bitstream))
    }

    method AreFree(stubs: seq<string>) returns (free: bool)
      ensures free <==> AllFree(stubs)
    {
      for k := 0 to |stubs|
        invariant AllFree(stubs[..k])
      {
        if stubs[k] !in regions || regions[stubs[k]].locked {
          return false;
        }
      }
      assert stubs[..|stubs|] == stubs;
      free := true;
    }

    lemma FreeInParts(bitstream: Bitstream)
      ensures Free(bitstream) <==>
              bitstream.mainRegion in regions && !regions[bitstream.mainRegion].locked && AllFree(bitstream.stubRegions)
    {
      var names := RegionsOf(bitstream);
      assert names[0] == bitstream.mainRegion;
      assert forall k :: 0 <= k < |bitstream.stubRegions| ==> names[k + 1] == bitstream.stubRegions[k];
    }

    method CanLoadBitstream(bitstream: Bitstream) returns (can: bool)
      ensures can <==> Free(bitstream)
    {
      FreeInParts(bitstream);
      can := false;
      if bitstream.mainRegion in regions && !regions[bitstream.mainRegion].locked {
        can := AreFree(bitstream.stubRegions);
      }
    }

    /** The main region still holds the bitstream, so that it need not be loaded again. */
    ghost predicate Quick(id: BitstreamId, bitstream: Bitstream)
      reads this`regions, regions.Values`locked, regions.Values`bitstream
    {
      Free(bitstream) && bitstream.mainRegion in regions && regions[bitstream.mainRegion].bitstream == Some(id)
    }

    method CanQuickLoadBitstream(id: BitstreamId, bitstream: Bitstream) returns (can: bool)
      ensures can <==> Quick(id, bitstream)
    {
      FreeInParts(bitstream);
      can := false;
      if bitstream.mainRegion in regions {
        var main := regions[bitstream.mainRegion];
        if !main.locked && main.CanElideLoad(id) {
          can := AreFree(bitstream.stubRegions);
        }
      }
    }

    method LockMain(name: string, id: BitstreamId)
      requires RegionsApart() && name in regions && !regions[name].locked
      modifies regions.Values`locked, regions.Values`stub, regions.Values`bitstream
      ensures Locked() == old(Locked()) + {name}
      ensures Contents() == old(Contents())[name := AsMain(old(Contents())[name], id)]
    {
      var ok := regions[name].LoadAccel(id);
      assert ok;
    }

    /** Locks a further region; fails if it is locked. */
    method LockStub(name: string, id: BitstreamId) returns (ok: bool)
      requires RegionsApart() && name in regions
      modifies regions.Values`locked, regions.Values`stub, regions.Values`bitstream
      ensures ok <==> !old(regions[name].locked)
      ensures Locked() == old(Locked()) + {name}
      ensures Contents() == if ok then old(Contents())[name := AsStub(old(Contents())[name], id)] else old(Contents())
    {
      ok := regions[name].LoadStub(id);
    }

    /** Locks the regions of a free bitstream, up to the first that it lists for the second time. */
    method FpgaLoadRegions(id: BitstreamId, bitstream: Bitstream) returns (ok: bool)
      requires RegionsApart() && Free(bitstream)
      modifies regions.Values`locked, regions.Values`stub, regions.Values`bitstream
      ensures ok <==> NoDuplicates(RegionsOf(bitstream))
      ensures Locked() == old(Locked()) + SetOf(Leading(RegionsOf(bitstream)))
      ensures Contents() == LoadedInto(old(Contents()), id, Leading(RegionsOf(bitstream)))
    {
      hide LoadedInto, AsMain, AsStub, Leading;
      ghost var names := RegionsOf(bitstream);
      assert names[0] == bitstream.mainRegion;
      LockMain(bitstream.mainRegion, id);
      assert SetOf(names[..1]) == {bitstream.mainRegion};
      MainLoaded(old(Contents()), id, bitstream.mainRegion);
      assert names[..1] == [bitstream.mainRegion];
      for k := 0 to |bitstream.stubRegions|
        invariant NoDuplicates(names[..k + 1])
        invariant Locked() == old(Locked()) + SetOf(names[..k + 1])
        invariant Contents() == LoadedInto(old(Contents()), id, names[..k + 1])
      {
        assert names[k + 1] == bitstream.stubRegions[k] && old(AllFree(names));
        assert names[k + 1] in Locked() <==> names[k + 1] in names[..k + 1];
        assert names[..k + 2] == names[..k + 1] + [names[k + 1]];
        ok := LockStub(bitstream.stubRegions[k], id);
        if !ok {
          RepeatedHere(names, k + 1);
          return;
        }
        StubLoaded(old(Contents()), id, names[..k + 1], names[k + 1]);
      }
      assert names[..|names|] == names;
      ok := true;
    }

    method Unlock(name: string)
      requires RegionsApart() && name in Locked()
      modifies regions.Values`locked
      ensures Locked() == old(Locked()) - {name}
    {
      var ok := regions[name].UnloadAccel();
      assert ok;
    }

    /** Unlocks a list of distinct regions that are locked. */
    method UnlockAll(names: seq<string>)
      requires RegionsApart() && NoDuplicates(names) && SetOf(names) <= Locked()
      modifies regions.Values`locked
      ensures Locked() == old(Locked()) - SetOf(names)
    {
      for k := 0 to |names|
        invariant Locked() == old(Locked()) - SetOf(names[..k])
      {
        NextIsFree(names, k);
        assert names[k] in SetOf(names);
        Unlock(names[k]);
      }
      assert names[..|names|] == names;
    }

    /** Gives the regions of a live instance back. */
    method FpgaUnloadRegions(inst: AccelInst)
      requires Owned() && inst in live
      modifies this`live, regions.Values`locked
      ensures Owned() && live == old(live) - {inst} && Locked() == old(Locked()) - RegionSet(inst.bitstream)
    {
      assert HoldsIts(inst, Locked() - lost);
      ghost var rest := Locked() - lost - RegionSet(inst.bitstream);
      OneLess(live, Locked() - lost, inst);
      UnlockAll(RegionsOf(inst.bitstream));
      live := live - {inst};
      assert Locked() - lost == rest;
    }

    /** Some main region exists on this FPGA. */
    ghost predicate Belongs(bitstreams: seq<Bitstream>)
      reads this`regions
    {
      exists j :: 0 <= j < |bitstreams| && bitstreams[j].mainRegion in regions
    }

    ghost predicate NoneQuick(name: string, bitstreams: seq<Bitstream>, end: nat)
      reads this`regions, regions.Values`locked, regions.Values`bitstream
    {
      forall j: nat {:trigger bitstreams[j]} :: j < end && j < |bitstreams| ==>
           !Quick(BitstreamId(name, j), bitstreams[j])
    }

    ghost predicate NoneFree(bitstreams: seq<Bitstream>, end: nat)
      reads this`regions, regions.Values`locked
    {
      forall j: nat {:trigger bitstreams[j]} :: j < end && j < |bitstreams| ==> !Free(bitstreams[j])
    }

    /** The first bitstream that need not be loaded again, or else the first that can be loaded. */
    ghost predicate Chosen(name: string, bitstreams: seq<Bitstream>, choice: nat)
      reads this`regions, regions.Values`locked, regions.Values`bitstream
    {
      && choice < |bitstreams| && Free(bitstreams[choice])
      && if Quick(BitstreamId(name, choice), bitstreams[choice]) then NoneQuick(name, bitstreams, choice)
         else NoneQuick(name, bitstreams, |bitstreams|) && NoneFree(bitstreams, choice)
    }

    /** No other bitstream could have been chosen. */
    lemma ChoiceIsUnique(name: string, bitstreams: seq<Bitstream>, choice: nat, other: nat)
      requires Chosen(name, bitstreams, choice) && Chosen(name, bitstreams, other)
      ensures choice == other
    {
      assert Quick(BitstreamId(name, choice), bitstreams[choice]) ==> Free(bitstreams[choice]);
    }

    /** Looks for a bitstream; if there is none, `valid` tells whether any of them belongs on this FPGA at all. */
    method FindBitstream(name: string, bitstreams: seq<Bitstream>) returns (choice: Option<nat>, valid: bool)
      ensures choice.Some? ==> Chosen(name, bitstreams, choice.value) && valid
      ensures choice.None? ==> NoneFree(bitstreams, |bitstreams|) && (valid <==> Belongs(bitstreams))
    {
      choice, valid := None, false;
      for i := 0 to |bitstreams|
        invariant NoneQuick(name, bitstreams, i)
        invariant if choice.None? then NoneFree(bitstreams, i) else valid
        invariant choice.Some? ==>
             choice.value < i && Free(bitstreams[choice.value]) && NoneFree(bitstreams, choice.value)
        invariant valid <==> exists j :: 0 <= j < i && bitstreams[j].mainRegion in regions
      {
        FreeInParts(bitstreams[i]);
        if bitstreams[i].mainRegion in regions {
          valid := true;
          var quick := CanQuickLoadBitstream(BitstreamId(name, i), bitstreams[i]);
          if quick {
            return Some(i), true;
          }
          if choice.None? {
            var can := CanLoadBitstream(bitstreams[i]);
            if can {
              choice := Some(i);
            }
          }
        }
      }
    }

    /** The accelerator by its name; a name that is not known stands for one without bitstreams or registers. */
    ghost function AccelNamed(name: string): Accel
      reads this`accels
    {
      if name in accels then accels[name] else Accel([], map[])
    }

    /** Some bitstream of the accelerator has all its regions free. */
    ghost predicate CanLoad(name: string)
      reads this`accels, this`regions, regions.Values`locked
    {
      exists b :: b in AccelNamed(name).bitstreams && Free(b)
    }

    /** The bitstream that is chosen. */
    ghost function ChosenIndex(name: string): (choice: nat)
      requires CanLoad(name)
      reads this`accels, this`regions, regions.Values`locked, regions.Values`bitstream
      ensures Chosen(name, AccelNamed(name).bitstreams, choice)
    {
      SomeIsChosen(name);
      var choice: nat :| Chosen(name, AccelNamed(name).bitstreams, choice);
      choice
    }

    /** Its regions. */
    ghost function ChosenRegions(name: string): (names: seq<string>)
      requires CanLoad(name)
      reads this`accels, this`regions, regions.Values`locked, regions.Values`bitstream
      ensures names != []
    {
      RegionsOf(AccelNamed(name).bitstreams[ChosenIndex(name)])
    }

    /** What the regions hold once the chosen bitstream has been loaded, as far as that goes. */
    ghost function ContentsLoaded(name: string): map<string, Content>
      requires CanLoad(name)
      reads this`accels, this`regions, regions.Values`locked, regions.Values`bitstream, regions.Values`stub
    {
      LoadedInto(Contents(), BitstreamId(name, ChosenIndex(name)), Leading(ChosenRegions(name)))
    }

    lemma SomeIsChosen(name: string)
      requires CanLoad(name)
      ensures exists c: nat :: Chosen(name, AccelNamed(name).bitstreams, c)
    {
      var bitstreams := AccelNamed(name).bitstreams;
      if j: nat :| j < |bitstreams| && Quick(BitstreamId(name, j), bitstreams[j]) {
        FirstQuick(name, bitstreams, j);
      } else {
        var j :| 0 <= j < |bitstreams| && Free(bitstreams[j]);
        FirstFree(name, bitstreams, j);
      }
    }

    lemma {:induction false} FirstQuick(name: string, bitstreams: seq<Bitstream>, j: nat)
      requires j < |bitstreams| && Quick(BitstreamId(name, j), bitstreams[j])
      ensures exists c: nat :: Chosen(name, bitstreams, c)
    {
      if i: nat :| i < j && Quick(BitstreamId(name, i), bitstreams[i]) {
        FirstQuick(name, bitstreams, i);
      } else {
        assert Chosen(name, bitstreams, j);
      }
    }

    lemma {:induction false} FirstFree(name: string, bitstreams: seq<Bitstream>, j: nat)
      requires j < |bitstreams| && Free(bitstreams[j]) && NoneQuick(name, bitstreams, |bitstreams|)
      ensures exists c: nat :: Chosen(name, bitstreams, c)
    {
      if i: nat :| i < j && Free(bitstreams[i]) {
        FirstFree(name, bitstreams, i);
      } else {
        assert Chosen(name, bitstreams, j);
      }
    }

    /**
     * Loads an accelerator if some bitstream of it has all its regions free, from the one that is chosen. If that one
     * lists a region twice, the second lock fails, and what was locked before stays locked.
     */
    method FpgaLoad(name: string) returns (result: LoadResult)
      requires Owned()
      modifies this`accels, this`live, this`lost, regions.Values`locked, regions.Values`stub, regions.Values`bitstream
      ensures Owned() && accels == old(accels)[name := old(AccelNamed(name))]
      ensures result.Loaded? <==> old(CanLoad(name)) && NoDuplicates(old(ChosenRegions(name)))
      ensures result.Loaded? ==>
                && result.instance.id == BitstreamId(name, old(ChosenIndex(name)))
                && result.instance.bitstream == old(AccelNamed(name).bitstreams[ChosenIndex(name)])
                && result.instance !in old(live) && live == old(live) + {result.instance} && lost == old(lost)
                && Locked() == old(Locked()) + RegionSet(result.instance.bitstream)
      ensures result.Failed? ==> live == old(live)
      ensures result.Failed? && old(CanLoad(name)) ==>
                && result.error == RegionLocked
                && Locked() == old(Locked()) + SetOf(Leading(old(ChosenRegions(name))))
                && lost == old(lost) + SetOf(Leading(old(ChosenRegions(name))))
      ensures result.Failed? && !old(CanLoad(name)) ==>
                && Locked() == old(Locked()) && lost == old(lost)
                && result.error == if old(Belongs(AccelNamed(name).bitstreams)) then FPGAFull else RegionNotFound
      ensures Contents() == if old(CanLoad(name)) then old(ContentsLoaded(name)) else old(Contents())
    {
      hide *;
      var accel := LookUp(name);
      result := LoadBest(name, accel);
    }

    /** Loads an accelerator that has been looked up. */
    method LoadBest(name: string, accel: Accel) returns (result: LoadResult)
      requires Owned() && accel == AccelNamed(name)
      modifies this`live, this`lost, regions.Values`locked, regions.Values`stub, regions.Values`bitstream
      ensures Owned()
      ensures result.Loaded? <==> old(CanLoad(name)) && NoDuplicates(old(ChosenRegions(name)))
      ensures result.Loaded? ==>
                && result.instance.id == BitstreamId(name, old(ChosenIndex(name)))
                && result.instance.bitstream == accel.bitstreams[old(ChosenIndex(name))]
                && result.instance !in old(live) && live == old(live) + {result.instance} && lost == old(lost)
                && Locked() == old(Locked()) + RegionSet(result.instance.bitstream)
      ensures result.Failed? ==> live == old(live)
      ensures result.Failed? && old(CanLoad(name)) ==>
                && result.error == RegionLocked
                && Locked() == old(Locked()) + SetOf(Leading(old(ChosenRegions(name))))
                && lost == old(lost) + SetOf(Leading(old(ChosenRegions(name))))
      ensures result.Failed? && !old(CanLoad(name)) ==>
                && Locked() == old(Locked()) && lost == old(lost)
                && result.error == if old(Belongs(accel.bitstreams)) then FPGAFull else RegionNotFound
      ensures Contents() == if old(CanLoad(name)) then old(ContentsLoaded(name)) else old(Contents())
    {
      hide *;
      var choice, valid := FindBitstream(name, accel.bitstreams);
      ChoiceDecides(name, choice, valid);
      if choice.None? {
        result := Failed(if valid then FPGAFull else RegionNotFound);
      } else {
        result := LoadFrom(AccelInst(BitstreamId(name, choice.value), accel.bitstreams[choice.value]));
      }
    }

    /** Looks an accelerator up; one that is not known is added without bitstreams and registers. */
    method LookUp(name: string) returns (accel: Accel)
      modifies this`accels
      ensures accel == AccelNamed(name) == old(AccelNamed(name)) && accels == old(accels)[name := accel]
      ensures CanLoad(name) <==> old(CanLoad(name))
      ensures CanLoad(name) ==> ChosenIndex(name) == old(ChosenIndex(name))
      ensures CanLoad(name) ==> ChosenRegions(name) == old(ChosenRegions(name))
      ensures CanLoad(name) ==> ContentsLoaded(name) == old(ContentsLoaded(name))
    {
      if name !in accels {
        accels := accels[name := Accel([], map[])];
      }
      accel := accels[name];
      assert CanLoad(name) <==> old(CanLoad(name));
      if CanLoad(name) {
        TheChosenOne(name, old(ChosenIndex(name)));
      }
    }

    /** The search for a bitstream decides what can be loaded, and which error there is otherwise. */
    lemma ChoiceDecides(name: string, choice: Option<nat>, valid: bool)
      requires var bitstreams := AccelNamed(name).bitstreams;
               && (choice.Some? ==> Chosen(name, bitstreams, choice.value))
               && (choice.None? ==> NoneFree(bitstreams, |bitstreams|) && (valid <==> Belongs(bitstreams)))
      ensures CanLoad(name) <==> choice.Some?
      ensures choice.Some? ==> ChosenIndex(name) == choice.value < |AccelNamed(name).bitstreams|
      ensures choice.Some? ==> ChosenRegions(name) == RegionsOf(AccelNamed(name).bitstreams[choice.value])
      ensures choice.Some? ==> Free(AccelNamed(name).bitstreams[choice.value])
      ensures choice.Some? ==>
                ContentsLoaded(name) ==
                LoadedInto(Contents(), BitstreamId(name, choice.value), Leading(ChosenRegions(name)))
      ensures choice.None? ==> (valid <==> Belongs(AccelNamed(name).bitstreams))
    {
      if choice.Some? {
        assert AccelNamed(name).bitstreams[choice.value] in AccelNamed(name).bitstreams;
        TheChosenOne(name, choice.value);
      }
    }

    /** Loads an accelerator from a bitstream whose regions are free. */
    method LoadFrom(instance: AccelInst) returns (result: LoadResult)
      requires Owned() && Free(instance.bitstream)
      modifies this`live, this`lost, regions.Values`locked, regions.Values`stub, regions.Values`bitstream
      ensures Owned()
      ensures result == if NoDuplicates(RegionsOf(instance.bitstream)) then Loaded(instance) else Failed(RegionLocked)
      ensures result.Loaded? ==>
                && instance !in old(live) && live == old(live) + {instance} && lost == old(lost)
                && Locked() == old(Locked()) + RegionSet(instance.bitstream)
      ensures result.Failed? ==>
                && live == old(live)
                && Locked() == old(Locked()) + SetOf(Leading(RegionsOf(instance.bitstream)))
                && lost == old(lost) + SetOf(Leading(RegionsOf(instance.bitstream)))
      ensures Contents() == LoadedInto(old(Contents()), instance.id, Leading(RegionsOf(instance.bitstream)))
    {
      FreeIsUnlocked(instance.bitstream);
      hide Holding;
      ghost var names, held := RegionsOf(instance.bitstream), Locked() - lost;
      if NoDuplicates(names) {
        OneMore(live, held, instance);
      }
      var ok := FpgaLoadRegions(instance.id, instance.bitstream);
      if !ok {
        lost := lost + SetOf(Leading(names));
        assert Locked() - lost == held;
        return Failed(RegionLocked);
      }
      live := live + {instance};
      assert Locked() - lost == held + RegionSet(instance.bitstream);
      result := Loaded(instance);
    }

    /** An accelerator with one bitstream. */
    lemma SingleBitstream(name: string, bitstream: Bitstream)
      requires name in accels && accels[name].bitstreams == [bitstream]
      ensures CanLoad(name) <==> Free(bitstream)
      ensures CanLoad(name) ==> ChosenRegions(name) == RegionsOf(bitstream)
      ensures Belongs(AccelNamed(name).bitstreams) <==> bitstream.mainRegion in regions
    {
      var bitstreams := AccelNamed(name).bitstreams;
      assert bitstreams[0] == bitstream;
      if CanLoad(name) {
        assert bitstreams[ChosenIndex(name)] == bitstream;
      }
    }

    lemma TheChosenOne(name: string, choice: nat)
      requires CanLoad(name) && Chosen(name, AccelNamed(name).bitstreams, choice)
      ensures ChosenIndex(name) == choice
    {
      ChoiceIsUnique(name, AccelNamed(name).bitstreams, choice, ChosenIndex(name));
    }

    lemma FreeIsUnlocked(bitstream: Bitstream)
      requires Free(bitstream)
      ensures RegionSet(bitstream) !! Locked() && RegionSet(bitstream) <= regions.Keys
      ensures SetOf(Leading(RegionsOf(bitstream))) !! Locked()
    {
    }

    /** Sets registers of an accelerator in a region; stops at a register it does not have. */
    method ProgramAccel(accel: Accel, region: Region, parameters: seq<(string, nat)>) returns (ok: bool)
      modifies region`registers
      ensures ok <==> AllKnown(accel, parameters)
      ensures region.registers == Written(old(region.registers), accel, Known(accel, parameters))
    {
      for k := 0 to |parameters|
        invariant AllKnown(accel, parameters[..k])
        invariant region.registers == Written(old(region.registers), accel, parameters[..k])
      {
        var name := parameters[k].0;
        assert parameters[k] in parameters;
        if name !in accel.registers {
          KnownUpTo(accel, parameters, k);
          return false;
        }
        assert parameters[..k + 1] == parameters[..k] + [parameters[k]];
        assert parameters[..k + 1][..k] == parameters[..k];
        region.registers := region.registers[WordOffset(accel.registers[name]) := parameters[k].1];
      }
      assert parameters[..|parameters|] == parameters;
      ok := true;
    }

    /** Starts an accelerator; fails if it has no control register. */
    method RunAccel(accel: Accel, region: Region) returns (ok: bool)
      modifies region`registers
      ensures ok <==> "control" in accel.registers
      ensures region.registers == if ok then old(region.registers)[WordOffset(accel.registers["control"]) := 1]
                                  else old(region.registers)
    {
      ok := "control" in accel.registers;
      if ok {
        region.registers := region.registers[WordOffset(accel.registers["control"]) := 1];
      }
    }

    method ProgramMain(accel: Accel, main: string, parameters: seq<(string, nat)>) returns (ok: bool)
      requires RegionsApart() && main in regions
      modifies regions.Values`registers
      ensures ok <==> AllKnown(accel, parameters)
      ensures Registers() == old(Registers())[main := Written(old(Registers())[main], accel, Known(accel, parameters))]
    {
      hide Written, Known;
      ok := ProgramAccel(accel, regions[main], parameters);
    }

    method RunMain(accel: Accel, main: string) returns (ok: bool)
      requires RegionsApart() && main in regions
      modifies regions.Values`registers
      ensures ok <==> "control" in accel.registers
      ensures Registers() == if ok then old(Registers())[main := Started(old(Registers())[main], accel)]
                             else old(Registers())
    {
      hide WordOffset;
      ok := RunAccel(accel, regions[main]);
    }

    /**
     * Regions stay locked although nothing was started: the chosen bitstream lists one of them twice, or there was
     * nothing to complain of but the missing control register.
     */
    ghost predicate Leaks(name: string, parameters: seq<(string, nat)>)
      reads this`accels, this`regions, regions.Values`locked, regions.Values`bitstream
    {
      && CanLoad(name)
      && (NoDuplicates(ChosenRegions(name)) ==>
            AllKnown(AccelNamed(name), parameters) && "control" !in AccelNamed(name).registers)
    }

    /** Why loading, programming and starting an accelerator fails; no error if it does not. */
    ghost function RunError(name: string, parameters: seq<(string, nat)>): Option<LoadError>
      reads this`accels, this`regions, regions.Values`locked, regions.Values`bitstream
    {
      if !CanLoad(name) then Some(if Belongs(AccelNamed(name).bitstreams) then FPGAFull else RegionNotFound)
      else if !NoDuplicates(ChosenRegions(name)) then Some(RegionLocked)
      else if !AllKnown(AccelNamed(name), parameters) || "control" !in AccelNamed(name).registers then
        Some(NoSuchRegister)
      else None
    }

    /** The registers once an accelerator has been run: those of the region that controls it have been written. */
    ghost function RegistersAfter(name: string, parameters: seq<(string, nat)>): map<string, map<int, nat>>
      reads this`accels, this`regions, regions.Values`locked, regions.Values`bitstream, regions.Values`registers
    {
      if CanLoad(name) && NoDuplicates(ChosenRegions(name)) then
        var main := ChosenRegions(name)[0];
        assert main in regions by { ChosenExist(name); }
        Registers()[main := AfterRunning(Registers()[main], AccelNamed(name), parameters)]
      else Registers()
    }

    lemma ChosenExist(name: string)
      requires CanLoad(name)
      ensures ChosenRegions(name)[0] in regions
    {
      assert AllFree(ChosenRegions(name));
    }

    /**
     * Loads, programs and starts an accelerator. What it comes to, which registers it writes, and whether a failure
     * leaves regions locked, is known before the call.
     */
    method FpgaRun(name: string, parameters: seq<(string, nat)>) returns (result: LoadResult)
      requires Owned()
      modifies this`accels, this`live, this`lost, regions.Values
      ensures Owned() && accels == old(accels)[name := old(AccelNamed(name))]
      ensures result.Loaded? <==> old(RunError(name, parameters)) == None
      ensures result.Failed? ==> old(RunError(name, parameters)) == Some(result.error) && live == old(live)
      ensures result.Failed? ==> (Locked() == old(Locked()) <==> !old(Leaks(name, parameters)))
      ensures result.Failed? && old(Leaks(name, parameters)) ==>
                && Locked() == old(Locked()) + SetOf(Leading(old(ChosenRegions(name))))
                && lost == old(lost) + SetOf(Leading(old(ChosenRegions(name))))
      ensures !old(Leaks(name, parameters)) ==> lost == old(lost)
      ensures Registers() == old(RegistersAfter(name, parameters))
      ensures Contents() == if old(CanLoad(name)) then old(ContentsLoaded(name)) else old(Contents())
      ensures result.Loaded? ==>
                && live == old(live) + {result.instance}
                && Locked() == old(Locked()) + RegionSet(result.instance.bitstream)
                && result.instance.id == BitstreamId(name, old(ChosenIndex(name)))
                && result.instance.bitstream == old(AccelNamed(name).bitstreams[ChosenIndex(name)])
    {
      hide *;
      ChosenIsUnlocked(name);
      RunIs(name, parameters);
      result := FpgaLoad(name);
      if result.Loaded? {
        var ok := ProgramAndStart(accels[name], result.instance, parameters);
        if !ok {
          result := Failed(NoSuchRegister);
        }
      }
    }

    /** What a run comes to, case by case. */
    lemma RunIs(name: string, parameters: seq<(string, nat)>)
      ensures !CanLoad(name) ==>
                && RunError(name, parameters) ==
                   Some(if Belongs(AccelNamed(name).bitstreams) then FPGAFull else RegionNotFound)
                && !Leaks(name, parameters) && RegistersAfter(name, parameters) == Registers()
      ensures CanLoad(name) && !NoDuplicates(ChosenRegions(name)) ==>
                && RunError(name, parameters) == Some(RegionLocked)
                && Leaks(name, parameters) && RegistersAfter(name, parameters) == Registers()
      ensures CanLoad(name) && NoDuplicates(ChosenRegions(name)) ==>
                var accel, main := AccelNamed(name), ChosenRegions(name)[0];
                var works := AllKnown(accel, parameters) && "control" in accel.registers;
                && RunError(name, parameters) == (if works then None else Some(NoSuchRegister))
                && (Leaks(name, parameters) <==> AllKnown(accel, parameters) && "control" !in accel.registers)
                && main in Registers()
                && RegistersAfter(name, parameters) ==
                   Registers()[main := AfterRunning(Registers()[main], accel, parameters)]
      ensures CanLoad(name) && NoDuplicates(ChosenRegions(name)) ==>
                var bitstream := AccelNamed(name).bitstreams[ChosenIndex(name)];
                && bitstream.mainRegion == ChosenRegions(name)[0]
                && RegionSet(bitstream) == SetOf(Leading(ChosenRegions(name)))
    {
      hide Chosen, CanLoad, Belongs, AfterRunning, AllKnown;
      if CanLoad(name) {
        ChosenExist(name);
      }
    }

    /** Programs and starts a loaded accelerator. Its regions are given back only when programming fails. */
    method ProgramAndStart(accel: Accel, instance: AccelInst, parameters: seq<(string, nat)>) returns (ok: bool)
      requires Owned() && instance in live
      modifies this`live, this`lost, regions.Values
      ensures Owned() && (ok <==> AllKnown(accel, parameters) && "control" in accel.registers)
      ensures live == if ok then old(live) else old(live) - {instance}
      ensures Locked() == if AllKnown(accel, parameters) then old(Locked())
                          else old(Locked()) - RegionSet(instance.bitstream)
      ensures lost == if AllKnown(accel, parameters) && !ok then old(lost) + RegionSet(instance.bitstream)
                      else old(lost)
      ensures instance.bitstream.mainRegion in old(Registers()) && Contents() == old(Contents())
      ensures var main := instance.bitstream.mainRegion;
              Registers() == old(Registers())[main := AfterRunning(old(Registers())[main], accel, parameters)]
    {
      hide *;
      MainIsLocked(instance);
      var main := instance.bitstream.mainRegion;
      AfterRunningIs(Registers()[main], accel, parameters);
      ok := ProgramMain(accel, main, parameters);
      if !ok {
        FpgaUnloadRegions(instance);
        return;
      }
      ok := RunMain(accel, main);
      if !ok {
        Lose(instance);
      }
    }

    /** The regions of the chosen bitstream are free, and there is at least one. */
    lemma ChosenIsUnlocked(name: string)
      ensures CanLoad(name) ==> SetOf(Leading(ChosenRegions(name))) !! Locked()
      ensures CanLoad(name) ==> SetOf(Leading(ChosenRegions(name))) != {}
    {
      if CanLoad(name) {
        var names := ChosenRegions(name);
        FreeIsUnlocked(AccelNamed(name).bitstreams[ChosenIndex(name)]);
        LeadingIsLongest(names, 1);
        assert Leading(names)[0] in SetOf(Leading(names));
      }
    }

    /** Nobody knows of the instance any more, but its regions stay locked. */
    ghost method Lose(inst: AccelInst)
      requires Owned() && inst in live
      modifies this`live, this`lost
      ensures Owned() && live == old(live) - {inst} && lost == old(lost) + RegionSet(inst.bitstream)
    {
      assert HoldsIts(inst, Locked() - lost);
      OneLess(live, Locked() - lost, inst);
      live, lost := live - {inst}, lost + RegionSet(inst.bitstream);
      assert Locked() - lost == Locked() - old(lost) - RegionSet(inst.bitstream);
    }

    /** The region that controls a live instance is locked, as programming and starting it demand. */
    lemma MainIsLocked(inst: AccelInst)
      requires Owned() && inst in live
      ensures RegionsApart() && inst.bitstream.mainRegion in regions && inst.bitstream.mainRegion in Registers()
      ensures inst.bitstream.mainRegion in Locked()
    {
      assert HoldsIts(inst, Locked() - lost);
      assert RegionsOf(inst.bitstream)[0] == inst.bitstream.mainRegion;
      assert inst.bitstream.mainRegion in RegionSet(inst.bitstream);
    }
  }

  /** The register at the offset is word `w`: four bytes make a word, and division is toward zero. */
  predicate InWord(offset: int, w: int) {
    if offset >= 0 then 4 * w <= offset < 4 * w + 4 else 4 * w - 4 < offset <= 4 * w
  }

  lemma WordOfOffset(offset: int, w: int)
    ensures w == WordOffset(offset) <==> InWord(offset, w)
  {
  }

  /** None of the parameters from `k` on is written to word `w`. */
  ghost predicate Untouched(accel: Accel, parameters: seq<(string, nat)>, k: nat, w: int)
    requires AllKnown(accel, parameters)
  {
    forall l :: k <= l < |parameters| ==> parameters[l] in parameters && !InWord(accel.registers[parameters[l].0], w)
  }

  /** Parameter `k` is the last that is written to word `w`. */
  ghost predicate IsLastWrite(accel: Accel, parameters: seq<(string, nat)>, k: nat, w: int)
    requires AllKnown(accel, parameters)
  {
    && k < |parameters| && parameters[k] in parameters && InWord(accel.registers[parameters[k].0], w)
    && Untouched(accel, parameters, k + 1, w)
  }

  lemma FrontIsKnown(accel: Accel, parameters: seq<(string, nat)>)
    requires AllKnown(accel, parameters) && parameters != []
    ensures AllKnown(accel, parameters[..|parameters| - 1]) && parameters[|parameters| - 1].0 in accel.registers
  {
    assert parameters[|parameters| - 1] in parameters;
  }

  lemma FrontUntouched(accel: Accel, parameters: seq<(string, nat)>, k: nat, w: int)
    requires AllKnown(accel, parameters) && k < |parameters| && Untouched(accel, parameters, k, w)
    ensures AllKnown(accel, parameters[..|parameters| - 1])
    ensures Untouched(accel, parameters[..|parameters| - 1], k, w)
    ensures !InWord(accel.registers[parameters[|parameters| - 1].0], w)
  {
    var front := parameters[..|parameters| - 1];
    assert forall l :: 0 <= l < |front| ==> front[l] == parameters[l] && front[l] in front;
  }

  lemma {:induction false} UntouchedStays(registers: map<int, nat>, accel: Accel, parameters: seq<(string, nat)>,
                                          w: int)
    requires AllKnown(accel, parameters) && Untouched(accel, parameters, 0, w)
    ensures var after := Written(registers, accel, parameters);
            (w in after <==> w in registers) && (w in registers ==> after[w] == registers[w])
  {
    hide Untouched, InWord, WordOffset;
    if parameters != [] {
      FrontUntouched(accel, parameters, 0, w);
      UntouchedStays(registers, accel, parameters[..|parameters| - 1], w);
      WordOfOffset(accel.registers[parameters[|parameters| - 1].0], w);
    }
  }

  lemma {:induction false} LastWriteStays(registers: map<int, nat>, accel: Accel, parameters: seq<(string, nat)>,
                                          k: nat, w: int)
    requires AllKnown(accel, parameters) && IsLastWrite(accel, parameters, k, w)
    ensures var after := Written(registers, accel, parameters); w in after && after[w] == parameters[k].1
  {
    hide Untouched, InWord, WordOffset, AllKnown;
    var last := |parameters| - 1;
    FrontIsKnown(accel, parameters);
    WordOfOffset(accel.registers[parameters[last].0], w);
    if k < last {
      FrontUntouched(accel, parameters, k + 1, w);
      assert parameters[..last][k] == parameters[k];
      LastWriteStays(registers, accel, parameters[..last], k, w);
    }
  }

  /**
   * A run that comes to its end leaves 1 in the control word, in every other word the value of the last parameter that
   * is written to it, and words without a parameter as they were.
   */
  lemma RunningWrites(registers: map<int, nat>, accel: Accel, parameters: seq<(string, nat)>, w: int)
    requires AllKnown(accel, parameters) && "control" in accel.registers
    ensures var after, control := AfterRunning(registers, accel, parameters), accel.registers["control"];
            && (InWord(control, w) ==> w in after && after[w] == 1)
            && (!InWord(control, w) && Untouched(accel, parameters, 0, w) ==>
                  (w in after <==> w in registers) && (w in registers ==> after[w] == registers[w]))
            && forall k: nat :: !InWord(control, w) && IsLastWrite(accel, parameters, k, w) ==>
                 w in after && after[w] == parameters[k].1
  {
    hide Written, Untouched, InWord, IsLastWrite, WordOffset;
    WordOfOffset(accel.registers["control"], w);
    if Untouched(accel, parameters, 0, w) {
      UntouchedStays(registers, accel, parameters, w);
    }
    forall k: nat | IsLastWrite(accel, parameters, k, w)
      ensures k < |parameters| && w in Written(registers, accel, parameters)
      ensures Written(registers, accel, parameters)[w] == parameters[k].1
    {
      IsInRange(accel, parameters, k, w);
      LastWriteStays(registers, accel, parameters, k, w);
    }
  }

  lemma IsInRange(accel: Accel, parameters: seq<(string, nat)>, k: nat, w: int)
    requires AllKnown(accel, parameters) && IsLastWrite(accel, parameters, k, w)
    ensures k < |parameters|
  {
  }

  /** A run that does not has written the parameters before the first that is no register. */
  lemma FailingWrites(registers: map<int, nat>, accel: Accel, parameters: seq<(string, nat)>, stop: nat)
    requires !AllKnown(accel, parameters) || "control" !in accel.registers
    requires stop <= |parameters| && AllKnown(accel, parameters[..stop])
    requires stop < |parameters| ==> parameters[stop].0 !in accel.registers
    ensures AfterRunning(registers, accel, parameters) == Written(registers, accel, parameters[..stop])
  {
    if stop < |parameters| {
      KnownUpTo(accel, parameters, stop);
    } else {
      assert parameters[..stop] == parameters;
    }
  }

  lemma NextIsFree(names: seq<string>, k: nat)
    requires NoDuplicates(names) && k < |names|
    ensures names[k] !in SetOf(names[..k])
    ensures SetOf(names[..k + 1]) == SetOf(names[..k]) + {names[k]}
  {
  }

  lemma RepeatedHere(names: seq<string>, k: nat)
    requires k < |names| && NoDuplicates(names[..k]) && names[k] in names[..k]
    ensures !NoDuplicates(names) && Leading(names) == names[..k]
  {
    LeadingIsLongest(names, k);
    var j :| 0 <= j < k && names[j] == names[k];
    var front := Leading(names);
    if |front| > k {
      assert false;
    }
  }

  lemma {:induction false} KnownUpTo(accel: Accel, parameters: seq<(string, nat)>, k: nat)
    requires k < |parameters| && AllKnown(accel, parameters[..k]) && parameters[k].0 !in accel.registers
    ensures Known(accel, parameters) == parameters[..k] && !AllKnown(accel, parameters)
  {
    assert parameters[k] in parameters;
    if k > 0 {
      assert parameters[..k][0] == parameters[0];
      assert parameters[1..][..k - 1] == parameters[..k][1..];
      KnownUpTo(accel, parameters[1..], k - 1);
    }
  }

  /** A manager of one region, with one accelerator that fits into it. */
  method OneSlot(accel: Accel) returns (manager: PRManager, slot: Region)
    requires accel.bitstreams == [Bitstream("slot0", [])]
    ensures fresh(manager) && fresh(slot) && manager.Owned() && manager.live == {} && manager.lost == {}
    ensures manager.regions == map["slot0" := slot] && slot.registers == map[] && manager.AccelNamed("copy") == accel
    ensures manager.Locked() == {} && manager.Registers() == map["slot0" := map[]] && manager.CanLoad("copy")
    ensures manager.ChosenRegions("copy") == ["slot0"] && NoDuplicates(["slot0"])
  {
    slot := new Region();
    manager := new PRManager(map["slot0" := slot], map["copy" := accel]);
    var bitstream := accel.bitstreams[0];
    assert RegionsOf(bitstream) == ["slot0"];
    assert manager.Free(bitstream);
    manager.SingleBitstream("copy", bitstream);
  }

  lemma SlotIsTaken(manager: PRManager, accel: Accel)
    requires accel.bitstreams == [Bitstream("slot0", [])] && manager.AccelNamed("copy") == accel
    requires "slot0" in manager.regions && "slot0" in manager.Locked()
    ensures !manager.CanLoad("copy") && manager.Belongs(manager.AccelNamed("copy").bitstreams)
  {
    var bitstream := accel.bitstreams[0];
    assert RegionsOf(bitstream)[0] == "slot0" && !manager.Free(bitstream);
    manager.SingleBitstream("copy", bitstream);
  }

  lemma OneRegion(before: map<int, nat>, after: map<int, nat>)
    ensures map["slot0" := before]["slot0" := after] == map["slot0" := after]
    ensures {} + {"slot0"} == {"slot0"}
  {
  }

  lemma SameAccel(manager: PRManager, accel: Accel)
    requires "copy" in manager.accels && manager.accels["copy"] == accel
    ensures manager.AccelNamed("copy") == accel
  {
  }

  lemma OneLeads()
    ensures SetOf(Leading(["slot0"])) == {"slot0"}
  {
    assert NoDuplicates(["slot0"]) && Leading(["slot0"]) == ["slot0"];
  }

  /** What programming one register of a copying accelerator writes. */
  lemma CopyWrites(accel: Accel)
    requires "length" in accel.registers && accel.registers["length"] == 16
    ensures AllKnown(accel, [("length", 8)])
    ensures AfterRunning(map[], accel, [("length", 8)]) ==
            if "control" !in accel.registers then map[4 := 8]
            else map[4 := 8][WordOffset(accel.registers["control"]) := 1]
  {
    var parameters := [("length", 8)];
    assert AllKnown(accel, parameters) && Known(accel, parameters) == parameters;
    assert parameters[..0] == [] && Written(map[], accel, []) == map[];
    assert Written(map[], accel, parameters) == map[][WordOffset(16) := 8];
  }

  /** An accelerator that copies: its length goes to word 4, and 1 to word 0. */
  method RunCopy() returns (slot: Region, result: LoadResult)
    ensures result.Loaded? && result.instance.bitstream == Bitstream("slot0", [])
    ensures slot.locked && slot.bitstream == Some(result.instance.id) && slot.registers == map[4 := 8, 0 := 1]
  {
    var accel := Accel([Bitstream("slot0", [])], map["length" := 16, "control" := 0]);
    var manager;
    manager, slot := OneSlot(accel);
    CopyWrites(accel);
    OneLeads();
    hide manager.CanLoad, manager.Chosen, manager.Belongs, Holding, Leading, AfterRunning, Written, Known;
    manager.RunIs("copy", [("length", 8)]);
    result := manager.FpgaRun("copy", [("length", 8)]);
    assert manager.Registers()["slot0"] == slot.registers && manager.Contents()["slot0"].bitstream == slot.bitstream;
    assert "slot0" in manager.Locked();
  }

  /** An accelerator that cannot be started: its parameter has been written, and its region stays locked. */
  method FailToStart(accel: Accel) returns (manager: PRManager, slot: Region, result: LoadResult)
    requires accel == Accel([Bitstream("slot0", [])], map["length" := 16])
    ensures result == Failed(NoSuchRegister) && fresh(manager) && fresh(slot) && manager.Owned()
    ensures manager.regions == map["slot0" := slot] && manager.AccelNamed("copy") == accel
    ensures manager.live == {} && manager.Locked() == {"slot0"} && manager.lost == {"slot0"}
    ensures manager.Registers() == map["slot0" := map[4 := 8]]
  {
    manager, slot := OneSlot(accel);
    CopyWrites(accel);
    OneLeads();
    OneRegion(map[], map[4 := 8]);
    hide *;
    manager.RunIs("copy", [("length", 8)]);
    result := manager.FpgaRun("copy", [("length", 8)]);
    SameAccel(manager, accel);
  }

  /**
   * An accelerator without a control register: running it fails although its parameter is known and has been written,
   * its region stays locked, and the accelerator cannot be loaded again.
   */
  method RunWithoutControl() returns (manager: PRManager, first: LoadResult, second: LoadResult)
    ensures first == Failed(NoSuchRegister) && second == Failed(FPGAFull)
    ensures manager.Owned() && manager.live == {} && manager.Locked() == manager.lost == {"slot0"}
    ensures manager.Registers() == map["slot0" := map[4 := 8]]
  {
    hide *;
    var accel := Accel([Bitstream("slot0", [])], map["length" := 16]);
    var slot;
    manager, slot, first := FailToStart(accel);
    SlotIsTaken(manager, accel);
    second := manager.FpgaLoad("copy");
  }
}
