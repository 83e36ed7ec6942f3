/** The Kotlin `NES` session: three memories, the run flags, the loaded ROM
    and its mapper, and save/load of the whole machine. The CPU, PPU and audio
    unit appear only through their running flags and their save-state blocks. */
module NesKt {
  import opened BitOps
  import opened Buffers
  import opened NesMemory
  import opened Session

  class Nes {
    const cpuMemory: Memory
    const ppuMemory: Memory
    const sprMemory: Memory

    var cpuRunning: bool
    var isRunning: bool
    var papuRunning: bool
    /** `Globals.enableSound`, a global flag in the source. */
    var soundEnabled: bool

    /** The state blocks the CPU and the PPU save and restore. */
    var cpuState: seq<short>
    var ppuState: seq<short>

    var memoryMapper: Mapper?
    /** The mapper the CPU was handed by `cpu.setMapper`. */
    var cpuMapper: Mapper?
    var rom: Option<Rom>
    var romFile: Option<string>
    /** The mirroring last passed to `ppu.setMirroring`. */
    var mirroring: int

    /** Memory sizes fixed at construction, three distinct arrays, and
        consistent run flags. */
    ghost predicate Valid()
      reads this
    {
      && cpuMemory.mem.Length == 0x10000
      && ppuMemory.mem.Length == 0x8000
      && sprMemory.mem.Length == 0x100
      && cpuMemory.mem != ppuMemory.mem && cpuMemory.mem != sprMemory.mem
      && ppuMemory.mem != sprMemory.mem
      && Consistent(Flags(), RomValid())
    }

    function Flags(): RunFlags
      reads this
    {
      RunFlags(cpuRunning, isRunning, papuRunning, soundEnabled)
    }

    /** `rom != null && rom.isValid()`. */
    predicate RomValid()
      reads this
    {
      rom.Some? && rom.value.valid
    }

    /** The six blocks as `stateSave` would write them now. */
    function Image(): Blocks
      requires memoryMapper != null
      reads this, cpuMemory.mem, ppuMemory.mem, sprMemory.mem, memoryMapper
    {
      Blocks(cpuMemory.mem[..], ppuMemory.mem[..], sprMemory.mem[..], cpuState, memoryMapper.state, ppuState)
    }

    /** `initializeConstructor`: memories of 0x10000, 0x8000 and 0x100 cells,
        sound enabled and the audio unit started, no ROM and no mapper yet, and
        CPU RAM given its power-up contents. The CPU's and PPU's initial state
        blocks come from their own constructors. */
    constructor (cpuState: seq<short>, ppuState: seq<short>)
      ensures Valid()
      ensures fresh(cpuMemory.mem) && fresh(ppuMemory.mem) && fresh(sprMemory.mem)
      ensures Flags() == RunFlags(false, false, true, true)
      ensures PowerUpRam(seq(0x10000, _ => 0), cpuMemory.mem[..])
      ensures forall i :: 0 <= i < 0x8000 ==> ppuMemory.mem[i] == 0
      ensures forall i :: 0 <= i < 0x100 ==> sprMemory.mem[i] == 0
      ensures this.cpuState == cpuState && this.ppuState == ppuState
      ensures memoryMapper == null && cpuMapper == null && rom.None? && romFile.None?
    {
      cpuMemory := new Memory(0x10000);
      ppuMemory := new Memory(0x8000);
      sprMemory := new Memory(0x100);
      cpuRunning, isRunning := false, false;
      papuRunning, soundEnabled := true, true;
      this.cpuState, this.ppuState := cpuState, ppuState;
      memoryMapper, cpuMapper := null, null;
      rom, romFile, mirroring := None, None, 0;
      new;
      assert cpuMemory.mem[..] == seq(0x10000, _ => 0);
      ClearCPUMemory();
    }

    /** `startEmulation`. */
    method StartEmulation()
      modifies this`cpuRunning, this`isRunning, this`papuRunning
      ensures Flags() == Started(old(Flags()), RomValid())
    {
      if soundEnabled && !papuRunning {
        papuRunning := true;
      }
      if rom.Some? && rom.value.valid && !cpuRunning {
        cpuRunning := true;
        isRunning := true;
      }
    }

    /** `stopEmulation`. */
    method StopEmulation()
      modifies this`cpuRunning, this`isRunning, this`papuRunning
      ensures Flags() == Stopped(old(Flags()))
    {
      if cpuRunning {
        cpuRunning := false;
        isRunning := false;
      }
      if soundEnabled && papuRunning {
        papuRunning := false;
      }
    }

    /** `beginExecution`: starts the CPU without marking the session running. */
    method BeginExecution()
      modifies this`cpuRunning
      ensures cpuRunning
    {
      cpuRunning := true;
    }

    /** `clearCPUMemory`: each of the 0x2000 RAM cells gets 0x00, 0xFF or a
        random byte (the random choices are left open here), then the four
        sentinel bytes of each 2 KiB mirror are set. */
    method ClearCPUMemory()
      requires cpuMemory.mem.Length >= RAM_END
      modifies cpuMemory.mem
      ensures PowerUpRam(old(cpuMemory.mem[..]), cpuMemory.mem[..])
    {
      var mem := cpuMemory.mem;
      for i := 0 to RAM_END
        invariant forall j :: 0 <= j < i ==> 0 <= mem[j] < 256
        invariant forall j :: i <= j < mem.Length ==> mem[j] == old(mem[j])
      {
        var r :| 0 <= r < 100;
        if r < 33 {
          mem[i] := 0x00;
        } else if r < 66 {
          mem[i] := 0xFF;
        } else {
          var v :| 0 <= v < 256;
          mem[i] := v;
        }
      }
      for p := 0 to 4
        invariant forall j :: 0 <= j < RAM_END ==> 0 <= mem[j] < 256
        invariant forall j :: 0 <= j < p * RAM_MIRROR && Sentinel(j % RAM_MIRROR).Some? ==>
                    mem[j] == Sentinel(j % RAM_MIRROR).value
        invariant forall j :: RAM_END <= j < mem.Length ==> mem[j] == old(mem[j])
      {
        var i := p * RAM_MIRROR;
        mem[i + 0x008] := 0xF7;
        mem[i + 0x009] := 0xEF;
        mem[i + 0x00A] := 0xDF;
        mem[i + 0x00F] := 0xBF;
        forall j | i <= j < i + RAM_MIRROR
          ensures j % RAM_MIRROR == j - i
        {
          MirrorOffset(j, p);
        }
      }
    }

    /** `reset`: the mapper, if any, reset; all three memories zeroed; CPU
        RAM given its power-up contents; the CPU and the PPU reset. What the
        mapper, CPU and PPU hold afterwards is given as `after`. The resets of
        the audio unit, the palette and the joypad are not part of this model. */
    method Reset(after: ResetState)
      requires Valid()
      modifies cpuMemory.mem, ppuMemory.mem, sprMemory.mem, this`cpuState, this`ppuState, memoryMapper
      ensures PowerUpRam(seq(0x10000, _ => 0), cpuMemory.mem[..])
      ensures forall i :: 0 <= i < 0x8000 ==> ppuMemory.mem[i] == 0
      ensures forall i :: 0 <= i < 0x100 ==> sprMemory.mem[i] == 0
      ensures cpuState == after.cpuState && ppuState == after.ppuState
      ensures memoryMapper != null ==> memoryMapper.state == after.mapperState
    {
      if memoryMapper != null {
        memoryMapper.Reset(after.mapperState);
      }
      cpuMemory.Reset();
      ppuMemory.Reset();
      sprMemory.Reset();
      assert cpuMemory.mem[..] == seq(0x10000, _ => 0);
      ClearCPUMemory();
      cpuState, ppuState := after.cpuState, after.ppuState;
    }

    /** `loadRom(file)`, with the outcome of `ROM.load(file)` given as `parsed`,
        the produced mapper's initial state as `mapperState` and the CPU and
        PPU blocks as `loadRom` leaves them (after the reset, the mapper's
        `init` and `loadROM`, and `setMirroring`) as `after`. The ROM is
        replaced whatever the outcome; only a valid ROM resets the machine,
        installs a fresh mapper in the CPU, sets the mirroring and records
        the file name. */
    method LoadRom(file: string, parsed: Rom, mapperState: seq<short>, after: ResetState) returns (ok: bool)
      requires Valid()
      modifies this`cpuRunning, this`isRunning, this`papuRunning, this`rom
      modifies this`memoryMapper, this`cpuMapper, this`mirroring, this`romFile
      modifies cpuMemory.mem, ppuMemory.mem, sprMemory.mem, this`cpuState, this`ppuState, memoryMapper
      ensures Valid()
      ensures ok == parsed.valid
      ensures LoadedRom(file, parsed, mapperState, after)
    {
      if isRunning {
        StopEmulation();
      }
      rom := Some(parsed);
      if parsed.valid {
        Reset(after);
        InstallMapper(file, parsed, mapperState);
      }
      ok := parsed.valid;
    }

    /** What `loadRom(file)` leaves behind: the ROM replaced and the session
        stopped; for a valid ROM, the CPU and PPU blocks of `after` and a fresh
        mapper in the CPU with the ROM's mirroring and the file recorded; for
        an invalid one, mapper, file, memories and blocks as they were. */
    twostate predicate LoadedRom(file: string, parsed: Rom, mapperState: seq<short>, after: ResetState)
      reads this, memoryMapper, cpuMemory.mem, ppuMemory.mem, sprMemory.mem
    {
      && rom == Some(parsed)
      && Flags() == (if old(isRunning) then Stopped(old(Flags())) else old(Flags()))
      && !isRunning
      && (parsed.valid ==>
            && memoryMapper != null && fresh(memoryMapper)
            && memoryMapper.rom == parsed && memoryMapper.state == mapperState
            && cpuMapper == memoryMapper
            && mirroring == parsed.mirroring
            && romFile == Some(file)
            && cpuState == after.cpuState && ppuState == after.ppuState)
      && (!parsed.valid ==>
            && memoryMapper == old(memoryMapper) && cpuMapper == old(cpuMapper)
            && mirroring == old(mirroring) && romFile == old(romFile)
            && unchanged(cpuMemory.mem, ppuMemory.mem, sprMemory.mem)
            && cpuState == old(cpuState) && ppuState == old(ppuState))
    }

    /** The part of `loadRom` that follows a successful parse and the reset:
        a fresh mapper handed to the CPU, the ROM's mirroring, and the file
        name recorded. */
    method InstallMapper(file: string, parsed: Rom, mapperState: seq<short>)
      modifies this`memoryMapper, this`cpuMapper, this`mirroring, this`romFile
      ensures memoryMapper != null && fresh(memoryMapper)
      ensures memoryMapper.rom == parsed && memoryMapper.state == mapperState
      ensures cpuMapper == memoryMapper
      ensures mirroring == parsed.mirroring && romFile == Some(file)
    {
      memoryMapper := new Mapper(parsed, mapperState);
      cpuMapper := memoryMapper;
      mirroring := parsed.mirroring;
      romFile := Some(file);
    }

    /** `reloadRom`: loads the recorded file again, and does nothing at all
        when no ROM file has been recorded. */
    method ReloadRom(parsed: Rom, mapperState: seq<short>, after: ResetState)
      requires Valid()
      modifies this`cpuRunning, this`isRunning, this`papuRunning, this`rom
      modifies this`memoryMapper, this`cpuMapper, this`mirroring, this`romFile
      modifies cpuMemory.mem, ppuMemory.mem, sprMemory.mem, this`cpuState, this`ppuState, memoryMapper
      ensures Valid()
      ensures old(romFile).None? ==>
        && unchanged(this, cpuMemory.mem, ppuMemory.mem, sprMemory.mem)
        && (memoryMapper != null ==> unchanged(memoryMapper))
      ensures old(romFile).Some? ==> LoadedRom(old(romFile).value, parsed, mapperState, after)
    {
      if romFile.Some? {
        var _ := LoadRom(romFile.value, parsed, mapperState, after);
      }
    }

    /** The three memory blocks of `stateSave`, in order. */
    method WriteMemories(buf: ByteBuffer)
      modifies buf`data
      ensures buf.data == old(buf.data) + cpuMemory.mem[..] + ppuMemory.mem[..] + sprMemory.mem[..]
    {
      cpuMemory.StateSave(buf);
      ppuMemory.StateSave(buf);
      sprMemory.StateSave(buf);
    }

    /** `stateSave`: the version byte and the six blocks appended in order,
        nothing else changed but the run flags, which end as they began when
        the session was running. */
    method StateSave(buf: ByteBuffer)
      requires Valid() && memoryMapper != null
      modifies this`cpuRunning, this`isRunning, this`papuRunning, buf`data
      ensures Valid()
      ensures buf.data == old(buf.data) + Encode(Image())
      ensures Image() == old(Image())
      ensures Flags() == SaveFlags(old(Flags()), RomValid())
    {
      var continueEmulation := isRunning;
      StopEmulation();
      ghost var img := Image();
      buf.PutByte(VERSION);
      WriteMemories(buf);
      buf.PutBytes(cpuState);
      memoryMapper.StateSave(buf);
      buf.PutBytes(ppuState);
      assert buf.data == old(buf.data) + Encode(img);
      if continueEmulation {
        StartEmulation();
      }
      SaveResumes(old(Flags()), RomValid());
    }

    /** The three memory blocks of `stateLoad`, in order. */
    method ReadMemories(buf: ByteBuffer)
      requires Valid()
      requires buf.pos + 0x18100 <= |buf.data|
      modifies cpuMemory.mem, ppuMemory.mem, sprMemory.mem, buf`pos
      ensures buf.pos == old(buf.pos) + 0x18100
      ensures cpuMemory.mem[..] == buf.data[old(buf.pos)..old(buf.pos) + 0x10000]
      ensures ppuMemory.mem[..] == buf.data[old(buf.pos) + 0x10000..old(buf.pos) + 0x18000]
      ensures sprMemory.mem[..] == buf.data[old(buf.pos) + 0x18000..old(buf.pos) + 0x18100]
    {
      cpuMemory.StateLoad(buf);
      ppuMemory.StateLoad(buf);
      sprMemory.StateLoad(buf);
    }

    /** The six blocks of `stateLoad`, read back in the order `stateSave`
        writes them, just after the version byte. */
    method ReadBlocks(buf: ByteBuffer)
      requires Valid() && memoryMapper != null
      requires 1 <= buf.pos
      requires buf.pos + 0x18100 + |cpuState| + |memoryMapper.state| + |ppuState| <= |buf.data|
      requires buf.data[buf.pos - 1] == VERSION
      modifies this`cpuState, this`ppuState, cpuMemory.mem, ppuMemory.mem, sprMemory.mem, memoryMapper, buf`pos
      ensures Valid() && memoryMapper != null
      ensures Decode(buf.data[old(buf.pos) - 1..], old(Image())) == Some(Image())
      ensures buf.pos == old(buf.pos) + EncodedSize(Image())
    {
      ghost var bytes := buf.data[buf.pos - 1..];
      ghost var shape := Image();
      ReadMemories(buf);
      cpuState := buf.ReadBytes(|cpuState|);
      memoryMapper.StateLoad(buf);
      ppuState := buf.ReadBytes(|ppuState|);
      DecodeAt(bytes, shape, Image());
    }

    /** `stateLoad`: reads the version byte; only if it is 1 are the six
        blocks read back, each component taking as many bytes as it saves.
        Otherwise that one byte is consumed and no component changes. The run
        flags are restored when the CPU was running on entry. */
    method StateLoad(buf: ByteBuffer) returns (success: bool)
      requires Valid()
      requires buf.pos < |buf.data|
      requires buf.data[buf.pos] == VERSION ==>
        memoryMapper != null &&
        buf.pos + 1 + 0x10000 + 0x8000 + 0x100 + |cpuState| + |memoryMapper.state| + |ppuState| <= |buf.data|
      modifies this`cpuRunning, this`isRunning, this`papuRunning, this`cpuState, this`ppuState
      modifies cpuMemory.mem, ppuMemory.mem, sprMemory.mem, memoryMapper, buf`pos
      ensures Valid()
      ensures success <==> old(buf.data[buf.pos]) == VERSION
      ensures success ==>
        && memoryMapper != null && Decode(buf.data[old(buf.pos)..], old(Image())) == Some(Image())
        && buf.pos == old(buf.pos) + 1 + EncodedSize(Image())
      ensures !success ==>
        && buf.pos == old(buf.pos) + 1
        && unchanged(cpuMemory.mem, ppuMemory.mem, sprMemory.mem)
        && (memoryMapper != null ==> unchanged(memoryMapper))
        && cpuState == old(cpuState) && ppuState == old(ppuState)
      ensures Flags() == LoadFlags(old(Flags()), RomValid())
    {
      var continueEmulation := false;
      if cpuRunning {
        continueEmulation := true;
        StopEmulation();
      }
      var version := buf.ReadByte();
      if version == VERSION {
        ReadBlocks(buf);
        success := true;
      } else {
        success := false;
      }
      if continueEmulation {
        StartEmulation();
      }
      LoadResumes(old(Flags()), RomValid());
    }
  }
}
