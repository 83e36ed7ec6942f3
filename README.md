# vNES / kNES core in Dafny

This project models the core of the vNES emulator and its Kotlin rewrite,
kNES:

- kNES's flat `Memory` of `Short` cells, used for CPU RAM, PPU VRAM and
  sprite RAM. The vNES `NES` models reuse it for vNES's own memory class,
  which is not part of this model (see "## Left out");
- the 6502 decode tables of `CpuInfo`: the packed `opdata` words, the
  `cycTable` of base cycle counts, the instruction mnemonics and the
  addressing-mode descriptions;
- the APU noise channel `ChannelNoise`: its register writes, envelope,
  length counter and reset;
- the formatting helpers of `Misc`: hexadecimal, binary, array resizing
  and string padding;
- the `NES` session class, in its Kotlin form and its Java twin: the run
  flags of start, stop, save and load; the version-1 save-state image; the
  power-up contents of CPU RAM; ROM loading and reloading.

Files and modules:

| file | module | what it holds |
|---|---|---|
| `bit_ops.dfy` | `BitOps` | JVM `Short`/`Int`/`Long` ranges, arithmetic right shift, bit tests, Euclidean division facts |
| `byte_buffer.dfy` | `Buffers` | the save-state stream, as append-only data plus a read cursor |
| `memory.dfy` | `NesMemory` | class `Memory` over a `short` array |
| `cpu_info.dfy` | `CpuInfo` | registrations, packing, cycle table, names, class `OpTables` |
| `channel_noise.dfy` | `Noise` | class `ChannelNoise` |
| `misc.dfy` | `Misc` | hex and binary rendering with reference readings, `resizeArray`, `pad` |
| `session.dfy` | `Session` | what both `NES` classes share: run flags, save-state `Encode`/`Decode`, power-up RAM, abstract ROM and mapper |
| `nes_kt.dfy` | `NesKt` | class `Nes` for `NES.kt` |
| `nes_java.dfy` | `NesJava` | class `Nes` for `NES.java`, which also hands the mapper to the PPU |

Models of the JVM:

- `x and (2^k - 1)` is `x % 2^k`, because Dafny's `%` with a positive
  divisor is never negative.
- `x shr s` is `Shr(x, s)`, floor halving repeated s times.
- `Int` shift counts are taken modulo 32 and `Long` shift counts modulo 64.
- `Integer.toHexString` reads its argument as an unsigned 32-bit value.

Randomness becomes a nondeterministic choice. Calls into classes that are
not part of this model become parameters:

- `ROM.load` becomes the parsed `Rom`.
- The state blocks of the CPU, the PPU and the mapper become sequences of
  `short`.
- `getLengthMax` becomes a function fixed when the channel is built.

Where the two `NES` classes differ, each model follows its own file. Both
check `cpu.isRunning` in `stateLoad` and the session's own `isRunning` in
`stateSave`; these two flags can diverge through `beginExecution`. The
contracts keep them apart: `Session.SaveFlags` and `Session.LoadFlags`.

## Model

| member | source | states |
|---|---|---|
| NesMemory.Memory.constructor | knes-emulator/src/main/kotlin/knes/emulator/Memory.kt:20-25 | a fresh array of exactly `memSize` cells, all zero |
| NesMemory.Memory.StateLoad | knes-emulator/src/main/kotlin/knes/emulator/Memory.kt:27-30 | the existing array (same size) is refilled with the next `mem.size` values of the stream, and the cursor moves past them |
| NesMemory.Memory.StateSave | knes-emulator/src/main/kotlin/knes/emulator/Memory.kt:32-34 | every cell is appended to the stream in address order |
| NesMemory.Memory.SaveThenLoad | knes-emulator/src/main/kotlin/knes/emulator/Memory.kt:27-34 | saving and then loading from the same stream gives back every cell exactly |
| NesMemory.Memory.Reset | knes-emulator/src/main/kotlin/knes/emulator/Memory.kt:36-38 | every cell is zero afterwards |
| NesMemory.Memory.Write | knes-emulator/src/main/kotlin/knes/emulator/Memory.kt:40-42 | exactly one cell changes, to the value written |
| NesMemory.Memory.Load | knes-emulator/src/main/kotlin/knes/emulator/Memory.kt:44-46 | returns the cell at the address |
| NesMemory.Memory.WriteArray | knes-emulator/src/main/kotlin/knes/emulator/Memory.kt:67-70 | the guard adds address and length as `Int`s, wrapping; when the sum exceeds the size memory is unchanged; otherwise `System.arraycopy` throws (leaving memory unchanged) exactly when its bounds fail, and else memory is the old prefix, the copied source prefix and the old suffix |
| NesMemory.Memory.WriteArrayAt | knes-emulator/src/main/kotlin/knes/emulator/Memory.kt:72-75 | the same wrapped guard, throw condition and splice, copying from `arrayoffset` |
| NesMemory.GuardWraps | knes-emulator/src/main/kotlin/knes/emulator/Memory.kt:67-75 | a copy of one value to address 0x7FFFFFFF wraps the guard's sum negative, passes the guard and throws in `System.arraycopy` |
| CpuInfo.Pack | knes-emulator/src/main/kotlin/knes/emulator/CpuInfo.kt:441-447 | each of the four bytes of the packed word reads back as its masked argument, including when the cycle byte makes the `Int` negative |
| CpuInfo.PackDecodes | knes-emulator/src/main/kotlin/knes/emulator/CpuInfo.kt:441-447 | a well-formed registration packs to a word whose fields decode to it and which differs from the invalid marker 0xFF |
| CpuInfo.EntryDecodes | knes-emulator/src/main/kotlin/knes/emulator/CpuInfo.kt:148-151 | a word decodes to the invalid instruction 0xFF exactly when no registration was stored, and otherwise to the registration's four fields |
| CpuInfo.RegisteredWellFormed | knes-emulator/src/main/kotlin/knes/emulator/CpuInfo.kt:157-438 | every `setOp` call names an opcode byte, a real instruction and addressing mode, the size that mode implies and the cycle count `cycTable` holds for that opcode (2 to 7) |
| CpuInfo.OpWordDecodes | knes-emulator/src/main/kotlin/knes/emulator/CpuInfo.kt:143-447 | after `initOpData`, an opcode's word decodes to 0xFF iff the opcode is undocumented, and to its registration otherwise |
| CpuInfo.OpTables.SetOp | knes-emulator/src/main/kotlin/knes/emulator/CpuInfo.kt:441-447 | only entry `op` changes, to the packed word |
| CpuInfo.OpTables.InitOpData | knes-emulator/src/main/kotlin/knes/emulator/CpuInfo.kt:143-439 | fresh 256-entry tables; `opdata[op]` is the registered word or 0xFF, and `cycTable[op]` is the listed count |
| CpuInfo.OpTables.OpData | knes-emulator/src/main/kotlin/knes/emulator/CpuInfo.kt:105-109 | the getter re-initialises and returns a fresh table holding every opcode's word |
| CpuInfo.InitInstNamesThrows | knes-emulator/src/main/kotlin/knes/emulator/CpuInfo.kt:449-509 | as written, the first store into the empty name array is out of bounds |
| CpuInfo.InitInstNamesStoresAll | knes-emulator/src/main/kotlin/knes/emulator/CpuInfo.kt:449-509 | with room for the names, the table is exactly the 56 mnemonics, one per instruction type |
| CpuInfo.InstNamesAreMnemonics | knes-emulator/src/main/kotlin/knes/emulator/CpuInfo.kt:453-508 | every stored name is three upper-case letters |
| CpuInfo.GetInstName | knes-emulator/src/main/kotlin/knes/emulator/CpuInfo.kt:119-127 | over the corrected 56-slot table of `CpuInfo.InitInstNames` (see "## Findings"; as written `getInstName` always throws): an instruction type gets its own mnemonic, `InstName(inst)`, three upper-case letters; any index from 56 on gets "???" |
| CpuInfo.GetAddressModeName | knes-emulator/src/main/kotlin/knes/emulator/CpuInfo.kt:135-141 | a mode in range gets its 20-character description; the result is "???" exactly when the mode is out of range |
| Noise.ChannelNoise.constructor | knes-emulator/src/main/kotlin/knes/emulator/papu/channels/ChannelNoise.kt:19-55 | every field starts at zero or false, except `accCount` 1 and the shift register 1 shl 14 |
| Noise.ChannelNoise.WriteReg | knes-emulator/src/main/kotlin/knes/emulator/papu/channels/ChannelNoise.kt:103-128 | $400C decodes bits 4, 5 and 0-3 and sets the master volume; $400E sets the timer period and mode; $400F loads the length counter and requests an envelope reset; every other field, and every field for any other address, is unchanged; the value ranges are kept |
| Noise.ChannelNoise.WriteRegShort | knes-emulator/src/main/kotlin/knes/emulator/papu/channels/ChannelNoise.kt:57-59 | the same decoding of the low byte: $400F loads `lengthMax(value and 0xFF and 248)`, an index that is a multiple of 8 in 0..248; $400E's mode is 0 or 1; every other field is as `writeReg` leaves it |
| Noise.ChannelNoise.UpdateSampleValue | knes-emulator/src/main/kotlin/knes/emulator/papu/channels/ChannelNoise.kt:97-101 | the sample becomes `randomBit * masterVolume` only while enabled with a running length counter |
| Noise.ChannelNoise.ClockLengthCounter | knes-emulator/src/main/kotlin/knes/emulator/papu/channels/ChannelNoise.kt:66-73 | counts down by one only while the length counter is enabled and positive, never below zero; the sample never changes |
| Noise.ChannelNoise.ClockEnvDecay | knes-emulator/src/main/kotlin/knes/emulator/papu/channels/ChannelNoise.kt:75-95 | a pending reset restarts at volume 15; otherwise the divider counts down and on expiry reloads and lowers the volume, wrapping to 15 only in loop mode; the master volume follows; ranges are kept |
| Noise.ChannelNoise.SetEnabled | knes-emulator/src/main/kotlin/knes/emulator/papu/channels/ChannelNoise.kt:130-136 | disabling clears the length counter, so the length status is 0 |
| Noise.ChannelNoise.LengthStatus | knes-emulator/src/main/kotlin/knes/emulator/papu/channels/ChannelNoise.kt:142-143 | 0 or 1, and 1 exactly when enabled with a non-zero length counter |
| Noise.ChannelNoise.ChannelEnabled | knes-emulator/src/main/kotlin/knes/emulator/papu/channels/ChannelNoise.kt:138-140 | the channel's enable flag; `Noise.ResetIsSilent` states it is off after a reset |
| Noise.ChannelNoise.Reset | knes-emulator/src/main/kotlin/knes/emulator/papu/channels/ChannelNoise.kt:145-163 | counters, flags and volumes become zero and the shift register 1; `envReset`, `accValue` and `accCount` are untouched |
| Noise.ResetIsSilent | knes-emulator/src/main/kotlin/knes/emulator/papu/channels/ChannelNoise.kt:138-163 | a reset channel is within range, disabled and reports length status 0 |
| Noise.ModeIsOneBit | knes-emulator/src/main/kotlin/knes/emulator/papu/channels/ChannelNoise.kt:118 | `value shr 7` of a byte is 0 or 1 |
| Noise.LengthIndex | knes-emulator/src/main/kotlin/knes/emulator/papu/channels/ChannelNoise.kt:122 | `value and 248` of a byte is 8k for some k < 32; `WriteRegShort` uses it to bound the length-table index |
| Misc.HexOfValue | knes-emulator/src/main/kotlin/knes/emulator/utils/Misc.kt:30 | the `toHexString` rendering is a digit string that reads back as its value |
| Misc.ZeroPadHex | knes-emulator/src/main/kotlin/knes/emulator/utils/Misc.kt:29-40 | the result is at least `width` long, only upper-case hex digits, and reads back as the unsigned value of `i` |
| Misc.Hex8 | knes-emulator/src/main/kotlin/knes/emulator/utils/Misc.kt:28-33 | exactly two digits for 0..255, otherwise `toHexString`'s own digits (never padded beyond two), upper case, reads back as the unsigned value |
| Misc.Hex16 | knes-emulator/src/main/kotlin/knes/emulator/utils/Misc.kt:35-40 | exactly four digits for 0..65535, otherwise `toHexString`'s own digits (never padded beyond four), upper case, reads back as the unsigned value |
| Misc.BinN | knes-emulator/src/main/kotlin/knes/emulator/utils/Misc.kt:42-47 | exactly N characters |
| Misc.BinNIsBits | knes-emulator/src/main/kotlin/knes/emulator/utils/Misc.kt:42-47 | up to 32 positions, `binN` equals the reference rendering by halving and reads back as num mod 2^N |
| Misc.BinNWraps | knes-emulator/src/main/kotlin/knes/emulator/utils/Misc.kt:42-47 | past 32 positions the shift count wraps, so the rendering repeats every 32 characters |
| Misc.BinWidths | knes-emulator/src/main/kotlin/knes/emulator/utils/Misc.kt:49-53 | `bin8` and `bin16` render num mod 256 and num mod 65536 |
| Misc.BinStr | knes-emulator/src/main/kotlin/knes/emulator/utils/Misc.kt:55-60 | `bitcount` characters, none when it is not positive, except at `Int.MIN_VALUE`, where `bitcount - 1` wraps and the range covers 2^31 positions |
| Misc.BinStrIsBits | knes-emulator/src/main/kotlin/knes/emulator/utils/Misc.kt:55-60 | up to 64 positions, `binStr` is the reference rendering and reads back as value mod 2^bitcount |
| Misc.ResizeArray | knes-emulator/src/main/kotlin/knes/emulator/utils/Misc.kt:62-67 | a fresh array of the new size: the common prefix copied, zeros after it |
| Misc.Pad | knes-emulator/src/main/kotlin/knes/emulator/utils/Misc.kt:69-76 | the string followed by whole copies of `padStr`; unchanged when long enough, otherwise at least `length` and less than `length + |padStr|` long |
| Session.StopIdempotent | vnes-emulator/src/main/kotlin/vnes/emulator/NES.kt:181-190 | stopping twice equals stopping once; afterwards neither the CPU nor the session runs, and with sound on the audio unit is stopped |
| Session.StartOnlyWithValidRom | vnes-emulator/src/main/kotlin/vnes/emulator/NES.kt:170-179 | `isRunning` becomes true only with a valid ROM and an idle CPU, and otherwise the CPU and session flags are untouched |
| Session.SaveResumes | vnes-emulator/src/main/kotlin/vnes/emulator/NES.kt:149-168 | after a save the session runs exactly when it ran before, and the CPU runs exactly when the session ran |
| Session.LoadResumes | vnes-emulator/src/main/kotlin/vnes/emulator/NES.kt:121-147 | after a load the CPU and the session run exactly when the CPU was running before and the ROM is valid |
| Session.Encode | vnes-emulator/src/main/kotlin/vnes/emulator/NES.kt:153-162 | the image opens with version byte 1 and is one byte longer than its blocks |
| Session.DecodeEncode | vnes-emulator/src/main/kotlin/vnes/emulator/NES.kt:121-168 | reading back a saved image with blocks of the saved sizes returns every block, whatever follows |
| Session.EncodeDecode | vnes-emulator/src/main/kotlin/vnes/emulator/NES.kt:130-141 | a stream not opening with byte 1 never loads; whatever loads is a saved image followed by the rest |
| Session.PowerUpSentinels | vnes-emulator/src/main/kotlin/vnes/emulator/NES.kt:215-222 | each of the four 2 KiB mirrors holds 0xF7, 0xEF, 0xDF and 0xBF at offsets 8, 9, 0xA and 0xF |
| NesKt.Nes.constructor | vnes-emulator/src/main/kotlin/vnes/emulator/NES.kt:83-101 | memories of exactly 0x10000, 0x8000 and 0x100 cells; sound on and the audio unit started; no ROM or mapper; CPU RAM in its power-up state, the others zero |
| NesKt.Nes.StartEmulation | vnes-emulator/src/main/kotlin/vnes/emulator/NES.kt:170-179 | the flags become `Started` of the old flags |
| NesKt.Nes.StopEmulation | vnes-emulator/src/main/kotlin/vnes/emulator/NES.kt:181-190 | the flags become `Stopped` of the old flags |
| NesKt.Nes.BeginExecution | vnes-emulator/src/main/kotlin/vnes/emulator/NES.kt:287-289 | the CPU runs; `isRunning` is not touched |
| NesKt.Nes.ClearCPUMemory | vnes-emulator/src/main/kotlin/vnes/emulator/NES.kt:198-223 | only cells below 0x2000 change, each to a byte value, with the four sentinels in every mirror |
| NesKt.Nes.Reset | vnes-emulator/src/main/kotlin/vnes/emulator/NES.kt:261-285 | the mapper, if any, holds its reset state; PPU and sprite memory are zero; CPU RAM is in its power-up state over a zeroed memory; the CPU and PPU blocks are their reset states |
| NesKt.Nes.LoadRom | vnes-emulator/src/main/kotlin/vnes/emulator/NES.kt:228-259 | returns the ROM's validity; the ROM is always replaced and the session stopped; a valid ROM leaves the CPU and PPU blocks as given by `after` (their state after the reset, the mapper's `loadROM` and `setMirroring`) and installs a fresh mapper in the CPU, with the mirroring and file recorded; an invalid one leaves mapper, file, memories and blocks unchanged |
| NesKt.Nes.InstallMapper | vnes-emulator/src/main/kotlin/vnes/emulator/NES.kt:246-256 | a fresh mapper for the ROM, handed to the CPU, the ROM's mirroring and the file recorded |
| NesKt.Nes.ReloadRom | vnes-emulator/src/main/kotlin/vnes/emulator/NES.kt:192-196 | with no recorded file nothing changes; otherwise everything `loadRom` promises holds for the recorded file |
| NesKt.Nes.StateSave | vnes-emulator/src/main/kotlin/vnes/emulator/NES.kt:149-168 | appends exactly `Encode` of the six blocks, changes no block, and leaves the flags as `SaveFlags` says |
| NesKt.Nes.StateLoad | vnes-emulator/src/main/kotlin/vnes/emulator/NES.kt:121-147 | succeeds iff the version byte is 1; on success the blocks are what `Decode` reads and the cursor ends just past the image; on failure one byte is consumed and no block changes; the flags end as `LoadFlags` says |
| NesKt.Nes.ReadBlocks | vnes-emulator/src/main/kotlin/vnes/emulator/NES.kt:131-136 | the six blocks read back in save order are `Decode` of the stream from the version byte, and the cursor ends just past them |
| NesJava.Nes.constructor | vnes-emulator/src/main/java/vnes/emulator/NES.java:75-103 | memories of exactly 0x10000, 0x8000 and 0x100 cells; sound on; no ROM or mapper in the CPU or PPU; CPU RAM in its power-up state |
| NesJava.Nes.StartEmulation | vnes-emulator/src/main/java/vnes/emulator/NES.java:166-176 | the flags become `Started` of the old flags |
| NesJava.Nes.StopEmulation | vnes-emulator/src/main/java/vnes/emulator/NES.java:178-187 | the flags become `Stopped` of the old flags |
| NesJava.Nes.BeginExecution | vnes-emulator/src/main/java/vnes/emulator/NES.java:326-328 | the CPU runs; `isRunning` is not touched |
| NesJava.Nes.ClearCPUMemory | vnes-emulator/src/main/java/vnes/emulator/NES.java:197-222 | only cells below 0x2000 change, each to a byte value, with the four sentinels in every mirror |
| NesJava.Nes.Reset | vnes-emulator/src/main/java/vnes/emulator/NES.java:298-324 | the mapper, if any, holds its reset state; PPU and sprite memory are zero; CPU RAM is in its power-up state over a zeroed memory; the CPU and PPU blocks are their reset states |
| NesJava.Nes.LoadRom | vnes-emulator/src/main/java/vnes/emulator/NES.java:268-296 | returns the ROM's validity; the ROM is always replaced and the session stopped; a valid ROM leaves the CPU and PPU blocks as given by `after` (their state after the reset, the mapper's `loadROM` and `setMirroring`) and installs one fresh mapper as the CPU's and the PPU's (the same instance), with the mirroring and file recorded; an invalid one leaves mappers, file, memories and blocks unchanged |
| NesJava.Nes.InstallMapper | vnes-emulator/src/main/java/vnes/emulator/NES.java:284-292 | one fresh mapper handed to both the CPU and the PPU, the ROM's mirroring and the file recorded |
| NesJava.Nes.ReloadRom | vnes-emulator/src/main/java/vnes/emulator/NES.java:189-195 | with no recorded file nothing changes; otherwise everything `loadRom` promises holds for the recorded file |
| NesJava.Nes.StateSave | vnes-emulator/src/main/java/vnes/emulator/NES.java:139-160 | appends exactly `Encode` of the six blocks, changes no block, and leaves the flags as `SaveFlags` says |
| NesJava.Nes.StateLoad | vnes-emulator/src/main/java/vnes/emulator/NES.java:109-137 | succeeds iff the version byte is 1; on success the blocks are what `Decode` reads and the cursor ends just past the image; on failure only that byte is consumed and no block changes; the flags end as `LoadFlags` says |
| NesJava.Nes.ReadBlocks | vnes-emulator/src/main/java/vnes/emulator/NES.java:120-125 | the six blocks read back in save order are `Decode` of the stream from the version byte, and the cursor ends just past them |

## Left out

- `ByteBuffer` is not part of this model. `Buffers.ByteBuffer` assumes only that writes append and reads consume from a cursor.
- The CPU, PPU, PAPU, palette table, joypad, ROM parser and mapper classes are not part of this model. The session sees them only through run flags, state blocks and the parsed `Rom`. The state blocks the CPU, PPU and mapper hold after their own `reset` are given to `reset` as a `Session.ResetState`. The resets of the audio unit, palette and joypad, and the effects of `setMirroring` and `loadROM`, are not modelled.
- NesKt.Nes.LoadRom: says nothing about memory contents after a valid load, because `memoryMapper.loadROM` writes the ROM into memory inside the mapper, which is not part of this model. The same holds for NesJava.Nes.LoadRom.
- NesKt.Nes.LoadRom: the CPU and PPU blocks after a valid load are taken as given in `after`; what the mapper's `init` and `loadROM` and the PPU's `setMirroring` do to them is not derived. The mirroring is kept as a field of the session rather than inside the PPU block.
- NesJava.Nes.LoadRom: the same as for NesKt.Nes.LoadRom; the blocks after `init`, `loadROM` and `setMirroring` are given in `after`, and the mirroring is a separate field.
- NesKt.Nes.StateLoad: each unseen component is assumed to read a block of the size its current state has. The same holds for NesJava.Nes.StateLoad.
- NesKt.Nes.ClearCPUMemory: the 33/33/34 split between 0x00, 0xFF and a random byte is a nondeterministic choice, so the distribution is not captured. The same holds for NesJava.Nes.ClearCPUMemory.
- NesKt.Nes.StateSave: requires a mapper. Without a ROM the source stops emulation, appends the version byte, the three memories and the CPU block, and then throws at `memoryMapper!!`; that partial write is not modelled. The same holds for NesJava.Nes.StateSave, which throws at `memMapper`.
- NesKt.Nes.StateLoad: requires a mapper and enough bytes when the version byte is 1. Without a mapper the source has already reloaded the three memories and the CPU block when it throws, and a short stream throws inside `ByteBuffer`; neither is modelled. The same holds for NesJava.Nes.StateLoad.
- `vnes.emulator.Memory`, the memory class both `NES` classes construct, is not part of this model. Both `Nes` models use `NesMemory.Memory`, the model of kNES's `Memory.kt`. They therefore assume the vNES class behaves the same way: `reset` zeroes every cell, `stateSave` appends `mem` in address order, and `stateLoad` refills `mem.size` values from the stream.
- NesMemory.Memory.constructor: takes a natural size. A negative `memSize` makes `ShortArray(memSize)` throw, which is not modelled.
- NesMemory.Memory.StateLoad: requires `mem.size` more values in the stream. A short stream throws inside `ByteBuffer`, which is not modelled.
- Misc.BinN: requires `N >= 0`. A negative `N` makes `CharArray(N)` throw, which is not modelled.
- Misc.ResizeArray: requires `newSize >= 0`. A negative size makes `IntArray(newSize)` throw, which is not modelled.
- Misc.BinStr: at `bitcount == Int.MIN_VALUE` the model returns the 2^31-character string the wrapped range describes, while the JVM cannot build a string that long and fails.
- Misc.Pad: requires a non-empty `padStr` when `str` is shorter than `length`. With an empty `padStr` the source loops forever, and that non-termination is not modelled.
- Misc.Pad: lengths are counted in Dafny characters, which are Unicode scalar values, while `StringBuilder.length` counts UTF-16 code units. The two differ for characters outside the Basic Multilingual Plane. For example, `pad("😀", "x", 2)` returns `"😀"` in the source but `"😀x"` in the model.
- NesMemory.Memory.Write: requires an in-range address. Out of range, the array store throws.
- NesMemory.Memory.Load: requires an in-range address. Out of range, the array load throws.
- CpuInfo.GetInstName: requires a non-negative index. In the source a negative index passes the range test and then throws on the array access.
- `enableSound`, `menuListener`, `destroy`, the getters and the GUI wiring of the `NES` constructors are left out, because they are global-flag, audio-line and UI plumbing. The constructor's effect of `enableSound(true)` is kept: sound is on and the audio unit is started.
- `Memory.dump` is left out: it is file output.
- `Misc.random` and the `rnd` table are left out: they are floating-point randomness.
- `ChannelNoise.clock` is left out because its body is empty.
- `ChannelNoise.destroy` is left out: it only drops the audio context.
- Noise.ChannelNoise.WriteReg: `getLengthMax` is an arbitrary function into the naturals. Its table belongs to the audio context, which is not part of this model.
- Noise.ChannelNoise.WriteReg: after `destroy` the audio context is null, and a $400F write then throws at `audioContext!!.getLengthMax`; that is not modelled, since `lengthMax` is a total function. The same holds for Noise.ChannelNoise.WriteRegShort.
- Noise.ChannelNoise.UpdateSampleValue: the product `randomBit * masterVolume` is not wrapped to 32 bits. The volume is at most 15, and this class only ever sets `randomBit` to 0.
- CpuInfo.OpTables.InitOpData: registrations are applied in opcode order, not in the order of the calls. The table is the same because no opcode byte is registered twice.
- Misc.ZeroPadHex: `uppercase()` is modelled for ASCII only, which covers every character `toHexString` produces.
- `Misc.debug` is left out: it is an unused flag.

## Findings

| source | as written | input that shows it | evidently intended | confidence | as-written member | corrected member |
|---|---|---|---|---|---|---|
| knes-emulator/src/main/kotlin/knes/emulator/CpuInfo.kt:449-509 | `instname` is created by `arrayOf<String>()`, with no elements, and then stored into at indices 0 to 55 | any call of `getInstName` or `instNames`: the store at index 0 is out of bounds | an array of 56 slots holding the mnemonics | high; not executed | CpuInfo.InitInstNamesAsWritten | CpuInfo.InitInstNames |
