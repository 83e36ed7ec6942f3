/** A flat, fixed-size memory of `Short` cells, as used for CPU RAM, PPU VRAM
    and sprite RAM. Out-of-range single-cell accesses throw in the source, so
    callers must stay in range; the two bulk writes instead guard against an
    overflowing copy and silently do nothing. */
module NesMemory {
  import opened BitOps
  import opened Buffers

  /** The bounds `System.arraycopy(src, srcPos, dest, destPos, length)`
      checks before copying: no negative position or length, and both ranges
      inside their arrays. */
  predicate CopyInBounds(srcPos: int, srcLength: nat, destPos: int, destLength: nat, length: int) {
    && 0 <= srcPos && 0 <= destPos && 0 <= length
    && srcPos + length <= srcLength && destPos + length <= destLength
  }

  /** The guard of the bulk writes adds two `Int`s, so a copy of one value to
      the last `Int` address wraps to a negative sum, passes the guard, and
      then throws in `System.arraycopy` instead of being skipped. (A JVM
      array never has more than 0x7FFF_FFFF elements.) */
  lemma GuardWraps(memLength: nat, srcLength: nat)
    requires memLength < 0x8000_0000
    ensures AddInt(0x7FFF_FFFF, 1) <= memLength
    ensures !CopyInBounds(0, srcLength, 0x7FFF_FFFF, memLength, 1)
  {
  }

  class Memory {
    const memSize: nat
    const mem: array<short>

    ghost predicate Valid() {
      mem.Length == memSize
    }

    /** `Memory(memSize)`: a fresh, zero-filled array of exactly `memSize` cells. */
    constructor (memSize: nat)
      ensures Valid() && fresh(mem)
      ensures this.memSize == memSize
      ensures forall i :: 0 <= i < memSize ==> mem[i] == 0
    {
      this.memSize := memSize;
      mem := new short[memSize](_ => 0);
    }

    /** Refills the existing array from the stream: `mem.size` values, in order. */
    method StateLoad(buf: ByteBuffer)
      requires buf.pos + mem.Length <= |buf.data|
      modifies mem, buf`pos
      ensures mem[..] == old(buf.data[buf.pos..buf.pos + mem.Length])
      ensures buf.pos == old(buf.pos) + mem.Length
    {
      var vs := buf.ReadBytes(mem.Length);
      forall i | 0 <= i < mem.Length {
        mem[i] := vs[i];
      }
    }

    /** Appends every cell to the stream, in address order. */
    method StateSave(buf: ByteBuffer)
      modifies buf`data
      ensures buf.data == old(buf.data) + mem[..]
    {
      buf.PutBytes(mem[..]);
    }

    /** Saving to a fully read stream and then loading from it gives every
        cell back and leaves the stream fully read. */
    method SaveThenLoad(buf: ByteBuffer)
      requires buf.pos == |buf.data|
      modifies mem, buf
      ensures mem[..] == old(mem[..])
      ensures buf.data == old(buf.data) + old(mem[..]) && buf.pos == |buf.data|
    {
      StateSave(buf);
      StateLoad(buf);
    }

    /** Zeroes every cell; the size never changes. */
    method Reset()
      modifies mem
      ensures forall i :: 0 <= i < mem.Length ==> mem[i] == 0
    {
      var i := 0;
      while i < mem.Length
        invariant 0 <= i <= mem.Length
        invariant forall j :: 0 <= j < i ==> mem[j] == 0
      {
        mem[i] := 0;
        i := i + 1;
      }
    }

    method Write(address: int, value: short)
      requires 0 <= address < mem.Length
      modifies mem
      ensures mem[..] == old(mem[..])[address := value]
    {
      mem[address] := value;
    }

    method Load(address: int) returns (v: short)
      requires 0 <= address < mem.Length
      ensures v == mem[address]
    {
      v := mem[address];
    }

    /** `write(address, array, length)`: copies `array[0..length)` to
        `mem[address..address+length)` unless the `Int` sum `address + length`
        exceeds the size, in which case nothing happens. The copy goes through
        `System.arraycopy`, which checks its bounds before copying anything and
        throws when they fail; `thrown` reports that. The copy is correct even
        when `array` is `mem` itself. */
    method WriteArray(address: int32, src: array<short>, length: int32) returns (thrown: bool)
      modifies mem
      ensures thrown <==> AddInt(address, length) <= mem.Length && !CopyInBounds(0, src.Length, address, mem.Length, length)
      ensures AddInt(address, length) > mem.Length || thrown ==> mem[..] == old(mem[..])
      ensures AddInt(address, length) <= mem.Length && !thrown ==>
                mem[..] == old(mem[..address]) + old(src[..length]) + old(mem[address + length..])
    {
      if AddInt(address, length) > mem.Length {
        return false;
      }
      if !CopyInBounds(0, src.Length, address, mem.Length, length) {
        return true;
      }
      forall i | 0 <= i < length {
        mem[address + i] := src[i];
      }
      assert mem[..] == old(mem[..address]) + old(src[..length]) + old(mem[address + length..]);
      thrown := false;
    }

    /** `write(address, array, arrayoffset, length)`: the same guard, copying
        `array[arrayoffset..arrayoffset+length)`. */
    method WriteArrayAt(address: int32, src: array<short>, arrayoffset: int32, length: int32) returns (thrown: bool)
      modifies mem
      ensures thrown <==>
                AddInt(address, length) <= mem.Length && !CopyInBounds(arrayoffset, src.Length, address, mem.Length, length)
      ensures AddInt(address, length) > mem.Length || thrown ==> mem[..] == old(mem[..])
      ensures AddInt(address, length) <= mem.Length && !thrown ==>
                mem[..] == old(mem[..address]) + old(src[arrayoffset..arrayoffset + length])
                           + old(mem[address + length..])
    {
      if AddInt(address, length) > mem.Length {
        return false;
      }
      if !CopyInBounds(arrayoffset, src.Length, address, mem.Length, length) {
        return true;
      }
      forall i | 0 <= i < length {
        mem[address + i] := src[arrayoffset + i];
      }
      assert mem[..] == old(mem[..address]) + old(src[arrayoffset..arrayoffset + length])
                        + old(mem[address + length..]);
      thrown := false;
    }
  }
}
