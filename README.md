# rsgb core in Dafny

A model of the core of rsgb, a Game Boy (Sharp LR35902) emulator, with proofs
of what its code promises:

- **Byte helpers** (`util.dfy`): joining two bytes into a word and splitting a
  word into its bytes, on 8- and 16-bit bit-vectors as in the source.
- **Instruction set** (`instruction.dfy`): the `Bit`, `Register`, `Cond`,
  `ResetAddress` and `Instruction` enums as datatypes, with lemmas fixing the
  size of each small enum.
- **Encoder and decoder** (`encoding.dfy`, `decoding.dfy`): the three-byte
  instruction buffer and the two 49-entry `LD r,r` tables, proved to be
  inverse to each other and injective.
- **Pixel buffer** (`screen.dfy`): a class over a 160 x 144 array of shades.
- **Machine state and memory router** (`emulator_state.dfy`, `emulator.dfy`):
  a value-level `State` with the address map, reads and writes through it,
  power-on, cartridge loading and the background renderer as functions; and
  the `Emulator` class, whose fields and fixed-size arrays are updated in
  place and whose every method is proved equal to those functions through
  `Snapshot()`.
- **Fetch/execute step** (`cpu.dfy`): the program-counter-advancing fetch,
  decoding and `LD r,r` execution, as functions on `State` and as methods on
  an `Emulator`.

The source files come from mismatched revisions; the model takes one
coherent interface:

- memory is fallible, as in `src/emulator.rs` (`get_memory`/`set_memory`
  return a result);
- the fetch is the closure of `src/cpu.rs`: the program counter is set to
  `pc + 1` before the byte at `pc` is read, and at `0xFFFF` no byte is
  produced; a memory error while fetching fails the step, with the program
  counter already moved;
- the decoder reads from a byte sequence standing for the byte source;
- `tick` takes a `u8`, as in `src/emulator.rs:178`;
- the source's `get_bit` is not among the modelled files; `Util.GetBit`
  takes `get_bit(b, i)` to be bit `i` of `b` (bit 0 least significant);
- `Emulator::step` calls `step_cpu`, which is not part of this model; `Cpu.Step`
  models the `step` of `src/cpu.rs` on the emulator instead.

Each `unimplemented!()` panic of the decoder and of `do_instruction` is an
explicit outcome (`DecodeResult.Unimplemented`, `StepError.UnimplementedOpcode`,
`StepError.UnimplementedInstruction`); the encoder's panic is excluded by the
precondition `i.LD_R_R?`.

At program counter `0xFFFF` the fetch closure yields `None`, so
`decode_instruction` returns `None` and the step fails; the model reports
this as `DecodeExhausted`. Only `LD r,r` is executed.

The one place where the code is evidently wrong, the sprite attribute table,
is listed under Findings. The rest of the model uses the corrected map: the
Game Boy's sprite table holds 40 sprites of 4 bytes each, 0xA0 bytes at
`0xFE00-0xFE9F`.

## Model

| member | source | states |
|---|---|---|
| Util.MakeWord16 | src/util.rs:1-3 | the word's high byte is `h` and its low byte is `l` |
| Util.LowByte | src/util.rs:5-7 | the truncating cast keeps `v % 256` |
| Util.HighByte | src/util.rs:9-11 | the shifted cast gives `v / 256` |
| Util.HighByteOfWord | src/util.rs:1-11 | the high byte of `make_word16(h, l)` is `h` |
| Util.LowByteOfWord | src/util.rs:1-7 | the low byte of `make_word16(h, l)` is `l` |
| Util.WordOfBytes | src/util.rs:1-11 | joining the high and low bytes of any 16-bit word gives the word back |
| Instruction.RegisterCount | src/instruction.rs:16-26 | there are exactly seven registers, A B C D E H L, each once; F is not one of them |
| Instruction.CondCount | src/instruction.rs:29-35 | there are exactly four branch conditions, Zero, NZero, Carry and NCarry, each once |
| Instruction.BitIndex | src/instruction.rs:4-13 | every `Bit` names a position below 8 |
| Instruction.BitOfIndex | src/instruction.rs:4-13 | every position below 8 is named by a `Bit` |
| Instruction.BitIsExactlyEightPositions | src/instruction.rs:4-13 | `Bit` and the positions 0-7 correspond one to one, so BIT/SET/RES name only in-range bits |
| Instruction.ResetVector | src/instruction.rs:39-48 | every RST vector is a multiple of 8 no larger than 0x38 |
| Instruction.ResetVectorsAreTheEightMultiplesOfEight | src/instruction.rs:39-48 | the vectors are exactly 0x00, 0x08, ..., 0x38 and no two reset addresses share one |
| Encoding.Deref | src/instructions/encoding.rs:21-27 | the visible bytes are the first `len` buffer bytes and no more |
| Encoding.One | src/instructions/encoding.rs:8-10 | a one-byte encoding shows exactly its byte |
| Encoding.Two | src/instructions/encoding.rs:12-14 | a two-byte encoding shows exactly its two bytes, in order |
| Encoding.Three | src/instructions/encoding.rs:16-18 | a three-byte encoding shows exactly its three bytes, in order |
| Encoding.RegisterOfCode | src/instructions/encoding.rs:31-85 | every register field of the table other than 6 names a register |
| Encoding.RegisterCodeInjective | src/instructions/encoding.rs:31-85 | register fields name registers one to one |
| Encoding.EncodeInstruction | src/instructions/encoding.rs:29-89 | every `LD t,s` encodes to exactly one byte, `0x40 + 8*code(t) + code(s)`; other instructions are refused |
| Encoding.LdOpcodeIsLoad | src/instructions/encoding.rs:31-85 | every byte of the table lies in 0x40-0x7F, has neither register field equal to 6, and is never 0x76 |
| Decoding.DecodeInstruction | src/instructions/decoding.rs:3-65 | an empty source decodes to nothing; a first byte decodes exactly when it is an `LD r,r` opcode, to the registers its two fields name, consuming one byte; any other first byte is unimplemented |
| Decoding.DecodeReadsOnlyFirstByte | src/instructions/decoding.rs:3-4 | bytes after the first never affect the result |
| Decoding.DecodeEncode | src/instructions/decoding.rs:7-61 | decoding the encoding of `LD t,s` gives `LD t,s` back, having consumed one byte |
| Decoding.EncodeDecode | src/instructions/decoding.rs:7-61 | every opcode the decoder accepts is the encoding of what it decodes to |
| Decoding.EncodingInjective | src/instructions/encoding.rs:31-85 | distinct `LD r,r` instructions have distinct encodings |
| Screen.IndexInBounds | src/screen.rs:9-12 | every on-screen coordinate addresses a cell of the 23040-cell buffer |
| Screen.IndexInjective | src/screen.rs:19-25 | distinct on-screen coordinates address distinct cells |
| Screen.IndexAliasesNextRow | src/screen.rs:19-25 | an x of 160 or more addresses the cell of `(x - 160, y + 1)` |
| Screen.Screen.constructor | src/screen.rs:15-17 | a new screen has every pixel White |
| Screen.Screen.GetPixel | src/screen.rs:19-21 | defined as the cell at `y * 160 + x`; `SetPixel` and the constructor state what it reads back |
| Screen.Screen.SetPixel | src/screen.rs:23-25 | the addressed cell becomes `p`, read back by `GetPixel`, and every other on-screen pixel is unchanged |
| EmulatorState.Locate | src/emulator.rs:184-205 | the corrected address map: every offset is in bounds of its region, and exactly 0xE000-0xFDFF is the echo of `addr - 0x2000` |
| EmulatorState.LocateAsWritten | src/emulator.rs:184-205 | defined as the match arms exactly as written, the sprite attribute arm ending at 0xFE99 and unmatched addresses reaching the asserting arm (`None`) |
| EmulatorState.PanicsAsWritten | src/emulator.rs:30 | defined as: no arm but the asserting one matches, or the offset runs past the 0x80-byte sprite array |
| EmulatorState.PanicsAsWrittenExactlyInOamTail | src/emulator.rs:194 | as written, exactly 0xFE80-0xFE9F panic: 0xFE80-0xFE99 index past the 0x80-byte table and 0xFE9A-0xFE9F fall to the `0xffff` assertion |
| EmulatorState.LocateAgreesWithWrittenElsewhere | src/emulator.rs:184-205 | outside 0xFE80-0xFE9F the corrected map is the written one |
| EmulatorState.Read | src/emulator.rs:184-205 | each region reads its array at `addr - base`; cartridge RAM and 0xFEA0-0xFEFF are errors; 0xFF00-0xFF7F reads 0; 0xFFFF reads IE; the echo reads its mirror |
| EmulatorState.Write | src/emulator.rs:207-228 | writes fail exactly on ROM, cartridge RAM and the unusable region, with the matching error; I/O writes change nothing; a successful write changes memory only |
| EmulatorState.ReadDependsOnlyOnMemory | src/emulator.rs:184-205 | what an address reads depends on memory alone, not on registers, flags, PC or SP |
| EmulatorState.EchoMirrorsWorkRam | src/emulator.rs:193 | reads and writes in 0xE000-0xFDFF act on `addr - 0x2000` |
| EmulatorState.ReadAfterWrite | src/emulator.rs:207-228 | after a successful write, the address and its echo read the written byte, except in the I/O window, which reads 0 |
| EmulatorState.WriteChangesOneCell | src/emulator.rs:207-228 | a successful write leaves every address of another cell reading as before |
| EmulatorState.RegisterValue | src/emulator.rs:128-138 | defined as the field of the named register; `WithRegister` states how it changes |
| EmulatorState.WithRegister | src/emulator.rs:140-150 | the written register holds the value, every other register, the flags, PC, SP and memory are unchanged |
| EmulatorState.WithRegisterIdempotent | src/emulator.rs:128-150 | writing a register's own value changes nothing, and of two writes only the second counts |
| EmulatorState.PowerOn | src/emulator.rs:34-61 | defined as the struct literal of `Emulator::new`; its contract states only that the state is well formed, and `PowerOnReadsZero` states what it reads |
| EmulatorState.PowerOnReadsZero | src/emulator.rs:34-61 | at power-on every readable address reads 0 except IE, which reads 0x0F |
| EmulatorState.LoadRom | src/emulator.rs:63-95 | loading fails, in the source's order, on a short image, an unsupported cartridge type, a non-zero size code, and a length other than 0x8000; it succeeds exactly otherwise, with the banks holding the image's two halves |
| EmulatorState.LoadedRomIsReadable | src/emulator.rs:84-89 | after loading, every ROM address reads the image's byte there |
| EmulatorState.Shade | src/emulator.rs:113-118 | defined as the shade table of `get_screen`: (0,0) White, (0,1) LightGray, (1,0) DarkGray, (1,1) Black |
| EmulatorState.ShadeInjective | src/emulator.rs:113-118 | the four bit pairs map to four different shades |
| EmulatorState.RenderedPixel | src/emulator.rs:105-118 | defined as the shade of the pixel's column bit in the two bytes of its row of the tile under it |
| EmulatorState.RenderedPixelOfTile | src/emulator.rs:101-124 | pixel `(8x + xt, 8y + yt)` takes bit `7 - xt` of the two bytes of row `yt` of tile `bg_map[32y + x]`, and every index stays in bounds |
| Emulator.CopyFromSlice | src/emulator.rs:84-89 | the destination array holds exactly the source slice |
| Emulator.Emulator.constructor | src/emulator.rs:34-61 | a new emulator is the power-on state |
| Emulator.Emulator.LoadRom | src/emulator.rs:63-95 | fails with the error of the value-level `LoadRom`, or yields a fresh emulator in its state |
| Emulator.Emulator.GetRegister | src/emulator.rs:128-138 | returns the register's value in the machine state |
| Emulator.Emulator.SetRegister | src/emulator.rs:140-150 | the new state is the old with only that register changed |
| Emulator.Emulator.GetProgramCounter | src/emulator.rs:160-162 | returns the program counter of the machine state |
| Emulator.Emulator.SetProgramCounter | src/emulator.rs:164-166 | only the program counter changes |
| Emulator.Emulator.Tick | src/emulator.rs:178 | the machine state is untouched; the call is recorded |
| Emulator.Emulator.GetMemory | src/emulator.rs:184-205 | returns what the value-level `Read` gives for the current state |
| Emulator.Emulator.SetMemory | src/emulator.rs:207-228 | succeeds exactly when `Write` does, then the state is `Write`'s; on failure returns its error and changes nothing |
| Emulator.Emulator.GetScreen | src/emulator.rs:101-124 | returns a freshly allocated screen whose every on-screen pixel is the rendered pixel of the current state |
| Emulator.Emulator.DrawTile | src/emulator.rs:104-121 | one tile's 8 x 8 block is rendered and no other pixel changes |
| Emulator.DrawTileRowStep | src/emulator.rs:106-120 | drawing row `ytile` of a tile from the character RAM extends the rendered part of the tile by that row and leaves every other pixel as it was |
| Emulator.DrawTileRow | src/emulator.rs:106-120 | one tile row: eight cells take the shades of the row's two bytes, bit 7 leftmost, and no other cell changes |
| Cpu.Fetched | src/cpu.rs:32-40 | below 0xFFFF the fetch yields the byte at PC (or its read error) and leaves PC one higher; at 0xFFFF it yields nothing and changes nothing |
| Cpu.Executed | src/cpu.rs:45-56 | `LD t,s` puts the old value of s into t and changes no other register, flag, PC, SP or memory; every other instruction is unimplemented |
| Cpu.Stepped | src/cpu.rs:31-43 | a successful step moves PC on by one and leaves flags, SP and memory as they were; a failed step leaves the state as it was, or with only PC moved past the fetched byte |
| Cpu.SelfLoadChangesNothing | src/cpu.rs:47-49 | `LD r,r` leaves the state as it was |
| Cpu.StepAtEndOfMemory | src/cpu.rs:34-35 | a step at PC 0xFFFF fails with nothing changed; PC never wraps |
| Cpu.FailedStepOnlyAdvancesPc | src/cpu.rs:32-42 | a failed step writes no register, flag or memory; at most PC has moved past the fetched byte |
| Cpu.StepLoad | src/cpu.rs:32-50 | a step over an `LD t,s` opcode copies s into t and advances PC by one, nothing else |
| Cpu.StepUnimplementedOpcode | src/cpu.rs:32-42 | a step over any other opcode fails as unimplemented, having only advanced PC |
| Cpu.StepSelfLoad | src/cpu.rs:32-50 | a step over `LD r,r` with equal registers only advances PC |
| Cpu.FetchByte | src/cpu.rs:32-40 | the emulator's fetch is `Fetched` on its state and charges no tick |
| Cpu.DoInstruction | src/cpu.rs:45-56 | on `LD r,r` the new state is `Executed`'s and exactly one `tick(4)` is charged; otherwise the error is returned and nothing changes |
| Cpu.Step | src/cpu.rs:31-43 | the emulator's step is `Stepped` on its state, charging `tick(4)` exactly when it succeeds |

## Left out

- `halt`, `stop` and `set_interrupts_enabled` (src/emulator.rs:176-182) are empty stubs that nothing in the modelled core calls.
- `get_flags`/`set_flags` and `get_stack_pointer`/`set_stack_pointer` (src/emulator.rs:152-174) are plain field accessors that nothing in the modelled core calls; the fields themselves are modelled.
- Emulator.Emulator.Tick: `tick` has no effect in the source; the model only records its calls in a ghost log so that contracts can count them.
- The text of error messages: errors are tagged values (`MemoryError`, `LoadError`, `StepError`).
- The semantics of every instruction other than `LD r,r`: the source leaves them unimplemented.
- The command-line driver, which reads files, runs a step loop and writes an image, and the module re-exports: they are I/O and plumbing.
- The trait declarations of `src/cpu.rs`, whose signatures differ from the emulator's implementation: one interface is modelled, as described above.
- Emulator.CopyFromSlice: models `copy_from_slice` with a parallel assignment; the source's panic on a length mismatch is excluded by the precondition, and no caller can reach it.
- Emulator.Emulator.GetScreen: the two inner loops of `get_screen` are factored into `DrawTile` and `DrawTileRow`, which run the same loops in the same order.
- Screen.Screen.GetPixel: an index of 23040 or more panics in the source; the model excludes it by precondition.
- Screen.Screen.SetPixel: an index of 23040 or more panics in the source; the model excludes it by precondition.

## Findings

| source | as written | input that shows it | evidently intended | confidence | as-written member | corrected member |
|---|---|---|---|---|---|---|
| src/emulator.rs:30,194,217,200-201,223-224 | the sprite attribute arm covers 0xFE00-0xFE99 but the table has only 0x80 bytes, so exactly 0xFE80-0xFE9F panic (PanicsAsWrittenExactlyInOamTail) | 0xFE80 indexes entry 0x80 of the 0x80-byte table and panics; 0xFE9A matches no arm and fails `assert_eq!(addr, 0xffff)` | sprite attribute memory is 0xFE00-0xFE9F backed by 0xA0 bytes, every address of it readable and writable | not executed; high | EmulatorState.LocateAsWritten | EmulatorState.Locate |
