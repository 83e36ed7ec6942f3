/** The Java `NES` session, twin of the Kotlin one: three memories, the run flags, the loaded ROM
    and its mapper, and save/load of the whole machine. The CPU, PPU and audio
    unit appear only through their running flags and their save-state blocks. */
module NesJava {
  import opened BitOps
  import opened Buffers
  import opened NesMemory
  import opened Session

  class Nes {
    const cpuMem: Memory
    const ppuMem: Memory
    const sprMem: Memory

    var cpuRunning: bool
    var isRunning: bool
    var papuRunning: bool
    /** `Globals.enableSound`, a global flag in the source. */
    var soundEnabled: bool

    /** The state blocks the CPU and the PPU save and restore. */
    var cpuState: seq<short>
    var ppuState: seq<short>

    var memMapper: Mapper?
    /** The mappers the CPU and the PPU were handed by `cpu.setMapper` and
        `ppu.setMapper`. */
    var cpuMapper: Mapper?
    var ppuMapper: Mapper?
    var rom: Option<Rom>
    var romFile: Option<string>
    /** The mirroring last passed to `ppu.setMirroring`. */
    var mirroring: int

    /** Memory sizes fixed at construction, three distinct arrays, and
        consistent run flags. */
    ghost predicate Valid()
      reads this
    {
      && cpuMem.mem.Length == 0x10000
      && ppuMem.mem.Length == 0x8000
      && sprMem.mem.Length == 0x100
      && cpuMem.mem != ppuMem.mem && cpuMem.mem != sprMem.mem
      && ppuMem.mem != sprMem.mem
      && Consistent(Flags(), RomValid())
    }

    function Flags(): RunFlags
      reads this
    {
      RunFlags(cpuRunning, isRunning, papuRunning, soundEnabled)
    }

    /** `rom != null && rom.isValid()`. */
    predicate RomValid()
      reads this
    {
      rom.Some? && rom.value.valid
    }

    /** The six blocks as `stateSave` would write them now. */
    function Image(): Blocks
      requires memMapper != null
      reads this, cpuMem.mem, ppuMem.mem, sprMem.mem, memMapper
    {
      Blocks(cpuMem.mem[..], ppuMem.mem[..], sprMem.mem[..], cpuState, memMapper.state, ppuState)
    }

    /** `initializeConstructor`: memories of 0x10000, 0x8000 and 0x100 cells,
        sound enabled and the audio unit started, no ROM and no mapper yet, and
        CPU RAM given its power-up contents. The CPU's and PPU's initial state
        blocks come from their own constructors. */
    constructor (cpuState: seq<short>, ppuState: seq<short>)
      ensures Valid()
      ensures fresh(cpuMem.mem) && fresh(ppuMem.mem) && fresh(sprMem.mem)
      ensures Flags() == RunFlags(false, false, true, true)
      ensures PowerUpRam(seq(0x10000, _ => 0), cpuMem.mem[..])
      ensures forall i :: 0 <= i < 0x8000 ==> ppuMem.mem[i] == 0
      ensures forall i :: 0 <= i < 0x100 ==> sprMem.mem[i] == 0
      ensures this.cpuState == cpuState && this.ppuState == ppuState
      ensures memMapper == null && cpuMapper == null && ppuMapper == null
      ensures rom.None? && romFile.None?
    {
      cpuMem := new Memory(0x10000);
      ppuMem := new Memory(0x8000);
      sprMem := new Memory(0x100);
      cpuRunning, isRunning := false, false;
      papuRunning, soundEnabled := true, true;
      this.cpuState, this.ppuState := cpuState, ppuState;
      memMapper, cpuMapper, ppuMapper := null, null, null;
      rom, romFile, mirroring := None, None, 0;
      new;
      assert cpuMem.mem[..] == seq(0x10000, _ => 0);
      ClearCPUMemory();
    }

    /** `startEmulation`. */
    method StartEmulation()
      modifies this`cpuRunning, this`isRunning, this`papuRunning
      ensures Flags() == Started(old(Flags()), RomValid())
    {
      if soundEnabled && !papuRunning {
        papuRunning := true;
      }
      if rom.Some? && rom.value.valid && !cpuRunning {
        cpuRunning := true;
        isRunning := true;
      }
    }

    /** `stopEmulation`. */
    method StopEmulation()
      modifies this`cpuRunning, this`isRunning, this`papuRunning
      ensures Flags() == Stopped(old(Flags()))
    {
      if cpuRunning {
        cpuRunning := false;
        isRunning := false;
      }
      if soundEnabled && papuRunning {
        papuRunning := false;
      }
    }

    /** `beginExecution`: starts the CPU without marking the session running. */
    method BeginExecution()
      modifies this`cpuRunning
      ensures cpuRunning
    {
      cpuRunning := true;
    }

    /** `clearCPUMemory`: each of the 0x2000 RAM cells gets 0x00, 0xFF or a
        random byte (the random choices are left open here), then the four
        sentinel bytes of each 2 KiB mirror are set. */
    method ClearCPUMemory()
      requires cpuMem.mem.Length >= RAM_END
      modifies cpuMem.mem
      ensures PowerUpRam(old(cpuMem.mem[..]), cpuMem.mem[..])
    {
      var mem := cpuMem.mem;
      for i := 0 to RAM_END
        invariant forall j :: 0 <= j < i ==> 0 <= mem[j] < 256
        invariant forall j :: i <= j < mem.Length ==> mem[j] == old(mem[j])
      {
        var r :| 0 <= r < 100;
        if r < 33 {
          mem[i] := 0x00;
        } else if r < 66 {
          mem[i] := 0xFF;
        } else {
          var v :| 0 <= v < 256;
          mem[i] := v;
        }
      }
      for p := 0 to 4
        invariant forall j :: 0 <= j < RAM_END ==> 0 <= mem[j] < 256
        invariant forall j :: 0 <= j < p * RAM_MIRROR && Sentinel(j % RAM_MIRROR).Some? ==>
                    mem[j] == Sentinel(j % RAM_MIRROR).value
        invariant forall j :: RAM_END <= j < mem.Length ==> mem[j] == old(mem[j])
      {
        var i := p * RAM_MIRROR;
        mem[i + 0x008] := 0xF7;
        mem[i + 0x009] := 0xEF;
        mem[i + 0x00A] := 0xDF;
        mem[i + 0x00F] := 0xBF;
        forall j | i <= j < i + RAM_MIRROR
          ensures j % RAM_MIRROR == j - i
        {
          MirrorOffset(j, p);
        }
      }
    }

    /** `reset`: the mapper, if any, reset; all three memories zeroed; CPU
        RAM given its power-up contents; the CPU and the PPU reset. What the
        mapper, CPU and PPU hold afterwards is given as `after`. The resets of
        the audio unit, the palette and the joypad are not part of this model. */
    method Reset(after: ResetState)
      requires Valid()
      modifies cpuMem.mem, ppuMem.mem, sprMem.mem, this`cpuState, this`ppuState, memMapper
      ensures PowerUpRam(seq(0x10000, _ => 0), cpuMem.mem[..])
      ensures forall i :: 0 <= i < 0x8000 ==> ppuMem.mem[i] == 0
      ensures forall i :: 0 <= i < 0x100 ==> sprMem.mem[i] == 0
      ensures cpuState == after.cpuState && ppuState == after.ppuState
      ensures memMapper != null ==> memMapper.state == after.mapperState
    {
      if memMapper != null {
        memMapper.Reset(after.mapperState);
      }
      cpuMem.Reset();
      ppuMem.Reset();
      sprMem.Reset();
      assert cpuMem.mem[..] == seq(0x10000, _ => 0);
      ClearCPUMemory();
      cpuState, ppuState := after.cpuState, after.ppuState;
    }

    /** `loadRom(file)`, with the outcome of `ROM.load(file)` given as `parsed`,
        the produced mapper's initial state as `mapperState` and the CPU and
        PPU blocks as `loadRom` leaves them (after the reset, the mapper's
        `init` and `loadROM`, and `setMirroring`) as `after`. The ROM is
        replaced whatever the outcome; only a valid ROM resets the machine,
        installs one fresh mapper in both the CPU and the PPU, sets the
        mirroring and records the file name. */
    method LoadRom(file: string, parsed: Rom, mapperState: seq<short>, after: ResetState) returns (ok: bool)
      requires Valid()
      modifies this`cpuRunning, this`isRunning, this`papuRunning, this`rom
      modifies this`memMapper, this`cpuMapper, this`ppuMapper, this`mirroring, this`romFile
      modifies cpuMem.mem, ppuMem.mem, sprMem.mem, this`cpuState, this`ppuState, memMapper
      ensures Valid()
      ensures ok == parsed.valid
      ensures LoadedRom(file, parsed, mapperState, after)
    {
      if isRunning {
        StopEmulation();
      }
      rom := Some(parsed);
      if parsed.valid {
        Reset(after);
        InstallMapper(file, parsed, mapperState);
      }
      ok := parsed.valid;
    }

    /** What `loadRom(file)` leaves behind: the ROM replaced and the session
        stopped; for a valid ROM, the CPU and PPU blocks of `after` and one fresh
        mapper in the CPU and the PPU with the ROM's mirroring and the file recorded; for
        an invalid one, mapper, file, memories and blocks as they were. */
    twostate predicate LoadedRom(file: string, parsed: Rom, mapperState: seq<short>, after: ResetState)
      reads this, memMapper, cpuMem.mem, ppuMem.mem, sprMem.mem
    {
      && rom == Some(parsed)
      && Flags() == (if old(isRunning) then Stopped(old(Flags())) else old(Flags()))
      && !isRunning
      && (parsed.valid ==>
            && memMapper != null && fresh(memMapper)
            && memMapper.rom == parsed && memMapper.state == mapperState
            && cpuMapper == memMapper && ppuMapper == memMapper
            && mirroring == parsed.mirroring
            && romFile == Some(file)
            && cpuState == after.cpuState && ppuState == after.ppuState)
      && (!parsed.valid ==>
            && memMapper == old(memMapper) && cpuMapper == old(cpuMapper) && ppuMapper == old(ppuMapper)
            && mirroring == old(mirroring) && romFile == old(romFile)
            && unchanged(cpuMem.mem, ppuMem.mem, sprMem.mem)
            && cpuState == old(cpuState) && ppuState == old(ppuState))
    }

    /** The part of `loadRom` that follows a successful parse and the reset:
        one fresh mapper for the CPU and the PPU, the ROM's mirroring, and the
        file name recorded. */
    method InstallMapper(file: string, parsed: Rom, mapperState: seq<short>)
      modifies this`memMapper, this`cpuMapper, this`ppuMapper, this`mirroring, this`romFile
      ensures memMapper != null && fresh(memMapper)
      ensures memMapper.rom == parsed && memMapper.state == mapperState
      ensures cpuMapper == memMapper && ppuMapper == memMapper
      ensures mirroring == parsed.mirroring && romFile == Some(file)
    {
      memMapper := new Mapper(parsed, mapperState);
      cpuMapper := memMapper;
      ppuMapper := memMapper;
      mirroring := parsed.mirroring;
      romFile := Some(file);
    }

    /** `reloadRom`: loads the recorded file again, and does nothing at all
        when no ROM file has been recorded. */
    method ReloadRom(parsed: Rom, mapperState: seq<short>, after: ResetState)
      requires Valid()
      modifies this`cpuRunning, this`isRunning, this`papuRunning, this`rom
      modifies this`memMapper, this`cpuMapper, this`ppuMapper, this`mirroring, this`romFile
      modifies cpuMem.mem, ppuMem.mem, sprMem.mem, this`cpuState, this`ppuState, memMapper
      ensures Valid()
      ensures old(romFile).None? ==>
        && unchanged(this, cpuMem.mem, ppuMem.mem, sprMem.mem)
        && (memMapper != null ==> unchanged(memMapper))
      ensures old(romFile).Some? ==> LoadedRom(old(romFile).value, parsed, mapperState, after)
    {
      if romFile.Some? {
        var _ := LoadRom(romFile.value, parsed, mapperState, after);
      }
    }

    /** The three memory blocks of `stateSave`, in order. */
    method WriteMemories(buf: ByteBuffer)
      modifies buf`data
      ensures buf.data == old(buf.data) + cpuMem.mem[..] + ppuMem.mem[..] + sprMem.mem[..]
    {
      cpuMem.StateSave(buf);
      ppuMem.StateSave(buf);
      sprMem.StateSave(buf);
    }

    /** `stateSave`: the version byte and the six blocks appended in order,
        nothing else changed but the run flags, which end as they began when
        the session was running. */
    method StateSave(buf: ByteBuffer)
      requires Valid() && memMapper != null
      modifies this`cpuRunning, this`isRunning, this`papuRunning, buf`data
      ensures Valid()
      ensures buf.data == old(buf.data) + Encode(Image())
      ensures Image() == old(Image())
      ensures Flags() == SaveFlags(old(Flags()), RomValid())
    {
      var continueEmulation := isRunning;
      StopEmulation();
      ghost var img := Image();
      buf.PutByte(VERSION);
      WriteMemories(buf);
      buf.PutBytes(cpuState);
      memMapper.StateSave(buf);
      buf.PutBytes(ppuState);
      assert buf.data == old(buf.data) + Encode(img);
      if continueEmulation {
        StartEmulation();
      }
      SaveResumes(old(Flags()), RomValid());
    }

    /** The three memory blocks of `stateLoad`, in order. */
    method ReadMemories(buf: ByteBuffer)
      requires Valid()
      requires buf.pos + 0x18100 <= |buf.data|
      modifies cpuMem.mem, ppuMem.mem, sprMem.mem, buf`pos
      ensures buf.pos == old(buf.pos) + 0x18100
      ensures cpuMem.mem[..] == buf.data[old(buf.pos)..old(buf.pos) + 0x10000]
      ensures ppuMem.mem[..] == buf.data[old(buf.pos) + 0x10000..old(buf.pos) + 0x18000]
      ensures sprMem.mem[..] == buf.data[old(buf.pos) + 0x18000..old(buf.pos) + 0x18100]
    {
      cpuMem.StateLoad(buf);
      ppuMem.StateLoad(buf);
      sprMem.StateLoad(buf);
    }

    /** The six blocks of `stateLoad`, read back in the order `stateSave`
        writes them, just after the version byte. */
    method ReadBlocks(buf: ByteBuffer)
      requires Valid() && memMapper != null
      requires 1 <= buf.pos
      requires buf.pos + 0x18100 + |cpuState| + |memMapper.state| + |ppuState| <= |buf.data|
      requires buf.data[buf.pos - 1] == VERSION
      modifies this`cpuState, this`ppuState, cpuMem.mem, ppuMem.mem, sprMem.mem, memMapper, buf`pos
      ensures Valid() && memMapper != null
      ensures Decode(buf.data[old(buf.pos) - 1..], old(Image())) == Some(Image())
      ensures buf.pos == old(buf.pos) + EncodedSize(Image())
    {
      ghost var bytes := buf.data[buf.pos - 1..];
      ghost var shape := Image();
      ReadMemories(buf);
      cpuState := buf.ReadBytes(|cpuState|);
      memMapper.StateLoad(buf);
      ppuState := buf.ReadBytes(|ppuState|);
      DecodeAt(bytes, shape, Image());
    }

    /** `stateLoad`: reads the version byte; only if it is 1 are the six
        blocks read back, each component taking as many bytes as it saves.
        Otherwise that one byte is consumed and no component changes. The run
        flags are restored when the CPU was running on entry. */
    method StateLoad(buf: ByteBuffer) returns (success: bool)
      requires Valid()
      requires buf.pos < |buf.data|
      requires buf.data[buf.pos] == VERSION ==>
        memMapper != null &&
        buf.pos + 1 + 0x10000 + 0x8000 + 0x100 + |cpuState| + |memMapper.state| + |ppuState| <= |buf.data|
      modifies this`cpuRunning, this`isRunning, this`papuRunning, this`cpuState, this`ppuState
      modifies cpuMem.mem, ppuMem.mem, sprMem.mem, memMapper, buf`pos
      ensures Valid()
      ensures success <==> old(buf.data[buf.pos]) == VERSION
      ensures success ==>
        && memMapper != null && Decode(buf.data[old(buf.pos)..], old(Image())) == Some(Image())
        && buf.pos == old(buf.pos) + 1 + EncodedSize(Image())
      ensures !success ==>
        && buf.pos == old(buf.pos) + 1
        && unchanged(cpuMem.mem, ppuMem.mem, sprMem.mem)
        && (memMapper != null ==> unchanged(memMapper))
        && cpuState == old(cpuState) && ppuState == old(ppuState)
      ensures Flags() == LoadFlags(old(Flags()), RomValid())
    {
      var continueEmulation := false;
      if cpuRunning {
        continueEmulation := true;
        StopEmulation();
      }
      var version := buf.ReadByte();
      if version == VERSION {
        ReadBlocks(buf);
        success := true;
      } else {
        success := false;
      }
      if continueEmulation {
        StartEmulation();
      }
      LoadResumes(old(Flags()), RomValid());
    }
  }
}
