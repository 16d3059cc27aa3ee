/** The memory manager: its pool of blocks, and the bitstream that is loaded. */
module MemoryManager {
  import opened Sequences

  const MAX_POSSIBLE_ALLOCATIONS := 6

  class MemoryBlock {
    const words: array<bv32>

    constructor (size: nat)
      ensures fresh(words) && words.Length == size
    {
      words := new bv32[size];
    }
  }

  /** What the memory manager has loaded onto the FPGA. */
  class Fabric {
    var loadedBitstream: string
    var loadedRegisterSpaceSize: int
    ghost var loads: nat

    constructor ()
      ensures loadedBitstream == "" && loadedRegisterSpaceSize == 0 && loads == 0
    {
      loadedBitstream, loadedRegisterSpaceSize, loads := "", 0, 0;
    }

    /** Afterwards the bitstream is loaded; it is loaded again only if it was not, or with another register space. */
    method LoadBitstreamIfNew(name: string, registerSpaceSize: int)
      modifies this
      ensures loadedBitstream == name && loadedRegisterSpaceSize == registerSpaceSize
      ensures loads == old(loads) + if old(loadedBitstream) == name
                                       && old(loadedRegisterSpaceSize) == registerSpaceSize then 0 else 1
    {
      if name != loadedBitstream || registerSpaceSize != loadedRegisterSpaceSize {
        loads := loads + 1;
        loadedRegisterSpaceSize := registerSpaceSize;
        loadedBitstream := name;
      }
    }
  }

  /** The blocks of the memory manager: a stack of free ones, and those that are held. */
  class Pool {
    var available: seq<MemoryBlock>
    var blockCount: nat
    const blockSize: nat
    ghost var held: set<MemoryBlock>
    ghost var mostHeld: nat

    /** Every block ever made is either on the free stack or held, and there are as many as were ever held at once. */
    ghost predicate Valid()
      reads this
    {
      && NoDuplicates(available)
      && (forall b :: b in available ==> b !in held)
      && (forall b :: b in available ==> b.words.Length == blockSize)
      && (forall b :: b in held ==> b.words.Length == blockSize)
      && blockCount == |available| + |held| == mostHeld <= MAX_POSSIBLE_ALLOCATIONS
    }

    constructor (blockSize: nat)
      ensures Valid() && this.blockSize == blockSize && available == [] && held == {} && mostHeld == 0
    {
      available, blockCount, held, mostHeld := [], 0, {}, 0;
      this.blockSize := blockSize;
    }

    /** A free block, or a new one; null where the source throws, which is when six blocks are already held. */
    method GetAvailableMemoryBlock() returns (block: MemoryBlock?)
      requires Valid()
      modifies this`available, this`blockCount, this`held, this`mostHeld
      ensures block == null <==> |old(held)| == MAX_POSSIBLE_ALLOCATIONS
      ensures block != null ==> Valid() && block !in old(held) && held == old(held) + {block}
      ensures block != null ==> mostHeld == if |held| > old(mostHeld) then |held| else old(mostHeld)
      ensures block != null && old(available) == [] ==> fresh(block) && available == []
      ensures old(available) != [] ==>
                block == old(available)[|old(available)| - 1] && available == old(available)[..|old(available)| - 1]
      ensures block == null ==> held == old(held)
    {
      if available == [] {
        block := AllocateMemoryBlock();
        if block != null {
          held := held + {block};
          mostHeld := |held|;
        }
      } else {
        block := available[|available| - 1];
        assert block in available;
        available := available[..|available| - 1];
        held := held + {block};
      }
    }

    method AllocateMemoryBlock() returns (block: MemoryBlock?)
      modifies this`blockCount
      ensures blockCount == old(blockCount) + 1
      ensures block == null <==> old(blockCount) >= MAX_POSSIBLE_ALLOCATIONS
      ensures block != null ==> fresh(block) && block.words.Length == blockSize
    {
      blockCount := blockCount + 1;
      if blockCount - 1 >= MAX_POSSIBLE_ALLOCATIONS {
        return null;
      }
      block := new MemoryBlock(blockSize);
    }

    method FreeMemoryBlock(block: MemoryBlock)
      requires Valid() && block in held
      modifies this`available, this`held
      ensures Valid() && held == old(held) - {block} && available == old(available) + [block]
    {
      available := available + [block];
      held := held - {block};
    }
  }
}
