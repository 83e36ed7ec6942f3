/** What the two `NES` session classes share: the run flags and the way
    `startEmulation` and `stopEmulation` change them, the save-state image,
    the power-up contents of CPU RAM, and abstract stand-ins for the ROM and
    the memory mapper, whose own classes are not part of this model. */
module Session {
  import opened BitOps
  import opened Buffers

  datatype Option<T> = None | Some(value: T)

  /** A loaded ROM as the session sees it: whether it parsed as a valid image,
      and the nametable mirroring it asks the PPU for. */
  datatype Rom = Rom(valid: bool, mirroring: int)

  /** A memory mapper produced for a ROM. Its banking logic is not part of
      this model; only the state block it saves and restores is. */
  class Mapper {
    const rom: Rom
    var state: seq<short>

    constructor (rom: Rom, state: seq<short>)
      ensures this.rom == rom && this.state == state
    {
      this.rom := rom;
      this.state := state;
    }

    /** Appends its state block. */
    method StateSave(buf: ByteBuffer)
      modifies buf`data
      ensures buf.data == old(buf.data) + state
    {
      buf.PutBytes(state);
    }

    /** `reset`, with the state block the mapper holds afterwards given as
        `after`; the ROM it serves is kept. */
    method Reset(after: seq<short>)
      modifies this`state
      ensures state == after
    {
      state := after;
    }

    /** Reads back a block of the size it saves. */
    method StateLoad(buf: ByteBuffer)
      requires buf.pos + |state| <= |buf.data|
      modifies this`state, buf`pos
      ensures state == old(buf.data[buf.pos..buf.pos + |state|])
      ensures buf.pos == old(buf.pos) + |old(state)|
    {
      state := buf.ReadBytes(|state|);
    }
  }

  /** The state blocks the CPU (after `reset` and `init`), the PPU and the
      mapper hold once their own `reset` has run; for `loadRom`, the CPU and
      PPU blocks as they stand after the mapper's `loadROM` and
      `setMirroring` as well. Those classes are not part of this model, so
      `NES.reset` and `NES.loadRom` take their outcome as given. */
  datatype ResetState = ResetState(cpuState: seq<short>, ppuState: seq<short>, mapperState: seq<short>)

  // ---------------------------------------------------------------------
  // Run flags

  /** `cpu.isRunning`, the session's own `isRunning`, `papu.isRunning()` and
      the global `Globals.enableSound`. */
  datatype RunFlags = RunFlags(cpuRunning: bool, isRunning: bool, papuRunning: bool, soundEnabled: bool)

  /** `startEmulation`: with sound enabled the audio unit is started if it
      was not; the CPU begins executing, and the session counts as running,
      only with a valid ROM loaded and the CPU not already running. */
  function Started(f: RunFlags, romValid: bool): RunFlags {
    var papu := if f.soundEnabled && !f.papuRunning then true else f.papuRunning;
    if romValid && !f.cpuRunning then f.(cpuRunning := true, isRunning := true, papuRunning := papu)
    else f.(papuRunning := papu)
  }

  /** `stopEmulation`: a running CPU ends execution and the session stops
      counting as running; with sound enabled a running audio unit is stopped. */
  function Stopped(f: RunFlags): RunFlags {
    var papu := if f.soundEnabled && f.papuRunning then false else f.papuRunning;
    if f.cpuRunning then f.(cpuRunning := false, isRunning := false, papuRunning := papu)
    else f.(papuRunning := papu)
  }

  /** `stateSave`: remembers `isRunning`, stops, and starts again only if the
      session was running. */
  function SaveFlags(f: RunFlags, romValid: bool): RunFlags {
    if f.isRunning then Started(Stopped(f), romValid) else Stopped(f)
  }

  /** `stateLoad`: only when the CPU (not the session) is running does it
      stop, and then it starts again afterwards; otherwise no flag changes. */
  function LoadFlags(f: RunFlags, romValid: bool): RunFlags {
    if f.cpuRunning then Started(Stopped(f), romValid) else f
  }

  /** The session counts as running only while the CPU runs a valid ROM. The
      CPU may run without the session counting as running: `beginExecution`
      starts the CPU alone. */
  predicate Consistent(f: RunFlags, romValid: bool) {
    f.isRunning ==> f.cpuRunning && romValid
  }

  /** Stopping twice is stopping once; after a stop neither the CPU nor the
      session runs, and with sound enabled the audio unit is stopped too. */
  lemma StopIdempotent(f: RunFlags, romValid: bool)
    requires Consistent(f, romValid)
    ensures Stopped(Stopped(f)) == Stopped(f)
    ensures !Stopped(f).cpuRunning && !Stopped(f).isRunning
    ensures f.soundEnabled ==> !Stopped(f).papuRunning
    ensures Consistent(Stopped(f), romValid)
  {
  }

  /** Starting sets `isRunning` exactly when a valid ROM is loaded and the CPU
      was idle; otherwise the CPU and session flags are untouched. Starting
      keeps the flags consistent. */
  lemma StartOnlyWithValidRom(f: RunFlags, romValid: bool)
    requires Consistent(f, romValid)
    ensures Started(f, romValid).isRunning <==> f.isRunning || (romValid && !f.cpuRunning)
    ensures !(romValid && !f.cpuRunning) ==>
      Started(f, romValid).cpuRunning == f.cpuRunning && Started(f, romValid).isRunning == f.isRunning
    ensures Consistent(Started(f, romValid), romValid)
  {
  }

  /** Saving leaves the session running exactly when it was running before. A
      CPU started on its own is stopped by a save and not restarted. */
  lemma SaveResumes(f: RunFlags, romValid: bool)
    requires Consistent(f, romValid)
    ensures SaveFlags(f, romValid).isRunning == f.isRunning
    ensures SaveFlags(f, romValid).cpuRunning == f.isRunning
    ensures Consistent(SaveFlags(f, romValid), romValid)
  {
  }

  /** Loading restarts exactly when the CPU was running and the ROM is valid;
      afterwards the session counts as running exactly when the CPU runs, even
      if only the CPU was running before. */
  lemma LoadResumes(f: RunFlags, romValid: bool)
    requires Consistent(f, romValid)
    ensures LoadFlags(f, romValid).cpuRunning == (f.cpuRunning && romValid)
    ensures LoadFlags(f, romValid).isRunning == (f.cpuRunning && romValid)
    ensures Consistent(LoadFlags(f, romValid), romValid)
  {
  }

  // ---------------------------------------------------------------------
  // Save-state image

  /** The six blocks of a save state, in the order they are written. */
  datatype Blocks = Blocks(cpuMem: seq<short>, ppuMem: seq<short>, sprMem: seq<short>,
                           cpu: seq<short>, mapper: seq<short>, ppu: seq<short>)

  /** The version byte that opens every save state. */
  const VERSION: short := 1

  /** The bytes `stateSave` appends: the version byte, then the blocks in order. */
  function Encode(b: Blocks): (bytes: seq<short>)
    ensures |bytes| == 1 + EncodedSize(b)
    ensures bytes[0] == VERSION
  {
    [VERSION] + b.cpuMem + b.ppuMem + b.sprMem + b.cpu + b.mapper + b.ppu
  }

  function EncodedSize(b: Blocks): nat {
    |b.cpuMem| + |b.ppuMem| + |b.sprMem| + |b.cpu| + |b.mapper| + |b.ppu|
  }

  /** What `stateLoad` reads from `bytes`, each component taking a block of
      the size of its current state (`shape`): nothing unless the first byte
      is the version byte and enough bytes follow. */
  function Decode(bytes: seq<short>, shape: Blocks): Option<Blocks> {
    if |bytes| == 0 || bytes[0] != VERSION || |bytes| < 1 + EncodedSize(shape) then None
    else
      var o1 := 1;
      var o2 := o1 + |shape.cpuMem|;
      var o3 := o2 + |shape.ppuMem|;
      var o4 := o3 + |shape.sprMem|;
      var o5 := o4 + |shape.cpu|;
      var o6 := o5 + |shape.mapper|;
      var o7 := o6 + |shape.ppu|;
      Some(Blocks(bytes[o1..o2], bytes[o2..o3], bytes[o3..o4], bytes[o4..o5], bytes[o5..o6], bytes[o6..o7]))
  }

  /** A stream opening with the version byte, followed by blocks of the
      expected sizes, decodes to those blocks. */
  lemma DecodeAt(bytes: seq<short>, shape: Blocks, b: Blocks)
    requires SameShape(b, shape) && |bytes| >= 1 + EncodedSize(shape) && bytes[0] == VERSION
    requires b.cpuMem == bytes[1..1 + |b.cpuMem|]
    requires b.ppuMem == bytes[1 + |b.cpuMem|..1 + |b.cpuMem| + |b.ppuMem|]
    requires b.sprMem == bytes[1 + |b.cpuMem| + |b.ppuMem|..1 + |b.cpuMem| + |b.ppuMem| + |b.sprMem|]
    requires var o4 := 1 + |b.cpuMem| + |b.ppuMem| + |b.sprMem|;
      b.cpu == bytes[o4..o4 + |b.cpu|]
    requires var o5 := 1 + |b.cpuMem| + |b.ppuMem| + |b.sprMem| + |b.cpu|;
      b.mapper == bytes[o5..o5 + |b.mapper|]
    requires var o6 := 1 + |b.cpuMem| + |b.ppuMem| + |b.sprMem| + |b.cpu| + |b.mapper|;
      b.ppu == bytes[o6..o6 + |b.ppu|]
    ensures Decode(bytes, shape) == Some(b)
  {
  }

  /** Same block sizes. */
  predicate SameShape(a: Blocks, b: Blocks) {
    && |a.cpuMem| == |b.cpuMem| && |a.ppuMem| == |b.ppuMem| && |a.sprMem| == |b.sprMem|
    && |a.cpu| == |b.cpu| && |a.mapper| == |b.mapper| && |a.ppu| == |b.ppu|
  }

  /** Loading what was saved gives back every block, whatever follows in the
      stream. */
  lemma DecodeEncode(b: Blocks, shape: Blocks, rest: seq<short>)
    requires SameShape(b, shape)
    ensures Decode(Encode(b) + rest, shape) == Some(b)
  {
    var bytes := Encode(b) + rest;
    var o2 := 1 + |b.cpuMem|;
    var o3 := o2 + |b.ppuMem|;
    var o4 := o3 + |b.sprMem|;
    var o5 := o4 + |b.cpu|;
    var o6 := o5 + |b.mapper|;
    var o7 := o6 + |b.ppu|;
    assert bytes[1..o2] == b.cpuMem;
    assert bytes[o2..o3] == b.ppuMem;
    assert bytes[o3..o4] == b.sprMem;
    assert bytes[o4..o5] == b.cpu;
    assert bytes[o5..o6] == b.mapper;
    assert bytes[o6..o7] == b.ppu;
  }

  /** Whatever loads successfully is a saved image followed by the rest of the
      stream; a stream that does not open with the version byte never loads. */
  lemma EncodeDecode(bytes: seq<short>, shape: Blocks)
    ensures |bytes| > 0 && bytes[0] != VERSION ==> Decode(bytes, shape).None?
    ensures Decode(bytes, shape).Some? ==>
      var b := Decode(bytes, shape).value;
      SameShape(b, shape) && bytes[..1 + EncodedSize(b)] == Encode(b)
  {
    if Decode(bytes, shape).Some? {
      var b := Decode(bytes, shape).value;
      assert bytes[..1 + EncodedSize(b)] == Encode(b);
    }
  }

  // ---------------------------------------------------------------------
  // Power-up RAM

  /** The 2 KiB internal RAM repeats four times below 0x2000. */
  const RAM_MIRROR: nat := 0x800
  const RAM_END: nat := 0x2000

  /** The byte `clearCPUMemory` fixes at an offset within each 2 KiB mirror,
      if any. */
  function Sentinel(offset: int): Option<int> {
    if offset == 0x008 then Some(0xF7)
    else if offset == 0x009 then Some(0xEF)
    else if offset == 0x00A then Some(0xDF)
    else if offset == 0x00F then Some(0xBF)
    else None
  }

  /** `clearCPUMemory`'s effect: every cell below 0x2000 holds a byte value,
      the four sentinel offsets of each mirror hold their fixed bytes, and no
      cell from 0x2000 up changes. */
  predicate PowerUpRam(before: seq<short>, after: seq<short>) {
    && |after| == |before|
    && (forall i :: 0 <= i < |after| && i < RAM_END ==> 0 <= after[i] < 256)
    && (forall i :: 0 <= i < |after| && i < RAM_END && Sentinel(i % RAM_MIRROR).Some? ==>
          after[i] == Sentinel(i % RAM_MIRROR).value)
    && (forall i :: RAM_END <= i < |after| ==> after[i] == before[i])
  }

  /** The sentinels of mirror p, at p * 0x800 + 8, 9, 0xA and 0xF. */
  lemma PowerUpSentinels(before: seq<short>, after: seq<short>, p: int)
    requires PowerUpRam(before, after) && |after| >= RAM_END && 0 <= p < 4
    ensures after[p * RAM_MIRROR + 0x008] == 0xF7
    ensures after[p * RAM_MIRROR + 0x009] == 0xEF
    ensures after[p * RAM_MIRROR + 0x00A] == 0xDF
    ensures after[p * RAM_MIRROR + 0x00F] == 0xBF
  {
    var b := p * RAM_MIRROR;
    assert (b + 0x008) % RAM_MIRROR == 0x008;
    assert (b + 0x009) % RAM_MIRROR == 0x009;
    assert (b + 0x00A) % RAM_MIRROR == 0x00A;
    assert (b + 0x00F) % RAM_MIRROR == 0x00F;
  }

  /** Inside mirror p, the offset within the mirror is the distance from its start. */
  lemma MirrorOffset(j: int, p: int)
    requires 0 <= p && p * RAM_MIRROR <= j < p * RAM_MIRROR + RAM_MIRROR
    ensures j % RAM_MIRROR == j - p * RAM_MIRROR
  {
    DivModUnique(j, RAM_MIRROR, p, j - p * RAM_MIRROR);
  }
}
