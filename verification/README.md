# rusty_64 VR4300 core — a Dafny model

This project models the instruction-execution core of the rusty_64 Nintendo 64
emulator: a NEC VR4300 (MIPS) CPU with a 32-entry general register file whose
register 0 is hardwired to zero, the coprocessor-0 Config and Status registers,
kseg1-only virtual-to-physical address translation, and the interconnect's
read path for the PIF boot ROM. It also models the older single-file CPU that
still sits beside the newer one.

Everything is pure. A CPU state is an immutable record, and one execution step
`Cpu.Step` is a function from a state to a `Faults.Result`. Each Rust `panic!`
becomes a `Fault` that carries the offending word, address, index or data.
Out-of-bounds indexing and debug-mode u64 overflow become faults in the same
way. Register contents and instruction words are bit-vectors. Addresses and
the program counter are integers kept in u32 / u64 range by subset types.

Modules, one per source file or component:

- `Bits`: the u32 / u64 ranges and the two `as u32` casts.
- `Faults`: the `Fault` taxonomy and `Result`.
- `Instruction`: bit windows of an instruction word (`src/cpu/instruction.rs`).
- `RegConfig`, `RegStatus`, `Cp0`: coprocessor 0 (`src/cpu/cp0/*.rs`).
- `Gpr`: the general register file. Both CPU files have the same
  `write_reg_gpr`.
- `Interconnect`: the memory map (`src/interconnect.rs`).
- `Cpu`: the newer CPU (`src/cpu/cpu.rs`).
- `LegacyCpu`: the older CPU (`src/cpu.rs`). It shares the translation and
  fetch path with `Cpu`, because the code of that path is identical in both
  files.

What the code does, and so what the model does:

- Only LUI and MTC0 have handlers; every other opcode is a fault.
- LUI zero-extends `imm << 16`; sign extension is marked as a TODO in the
  code.
- The interconnect maps only the PIF ROM window.
- Coprocessor 0 starts at its derived `Default` value.

## Model

| member | source | states |
|---|---|---|
| Bits.Low32 | src/cpu/cp0/cp0.rs:27 | the `data as u32` cast keeps exactly the low 32 bits of the u64 |
| Bits.AddrToU32 | src/cpu/cpu.rs:95 | the `phys_addr as u32` cast is the identity on addresses below 2^32 |
| Instruction.Top6 | src/cpu/instruction.rs:12 | the opcode field is below 64 and the mask is redundant: it equals `w >> 26` |
| Instruction.Rs | src/cpu/instruction.rs:18-21 | rs is a register index below 32 |
| Instruction.Rt | src/cpu/instruction.rs:25-28 | rt is a register index below 32 |
| Instruction.Rd | src/cpu/instruction.rs:31-34 | rd is a register index below 32 |
| Instruction.Imm | src/cpu/instruction.rs:37-40 | the immediate is below 65536 |
| Instruction.Offset | src/cpu/instruction.rs:43-46 | the offset is always the immediate |
| Instruction.RtIndex | src/cpu/cpu.rs:73-79 | the `rt as usize` cast used for the register-file access is always an index below 32 |
| Instruction.Opcode | src/cpu/instruction.rs:10-14 | succeeds iff the top six bits are a key of the opcode table, and then gives that mnemonic; otherwise fails carrying the exact word |
| Instruction.FieldsRecompose | src/cpu/instruction.rs:12-40 | every word equals (top6 << 26) \| (rs << 21) \| (rt << 16) \| imm |
| Instruction.AssembleFields | src/cpu/instruction.rs:12-40 | assembling in-range fields and extracting them gives the same fields back, so the windows do not overlap |
| Instruction.RdIsHighImm | src/cpu/instruction.rs:31-40 | rd is the immediate shifted right by 11: it overlaps the immediate's top five bits |
| Instruction.FieldsOutsideRs | src/cpu/instruction.rs:10-40 | words that differ only in bits 25..21 have equal opcode, rt, rd and immediate |
| Instruction.OpcodeDependsOnTop6Only | src/cpu/instruction.rs:10-14 | opcode resolution depends only on bits 31..26 |
| RegConfig.Default | src/cpu/cp0/reg_config.rs:42-76 | the default Config is Normal, Big endian, CU clear, kseg0 cache flag clear |
| RegConfig.PatternFrom | src/cpu/cp0/reg_config.rs:50-61 | EP = 0 gives Normal, EP = 6 gives DxxDxx, and any other EP value fails with the raw value |
| RegConfig.EndiannessFrom | src/cpu/cp0/reg_config.rs:78-89 | Big iff bit 15 is set, otherwise Little; never fails |
| RegConfig.ConfigFrom | src/cpu/cp0/reg_config.rs:20-32 | succeeds iff EP is valid and fails with the raw value otherwise; CU iff bit 3 is set; kseg0 cacheable iff the low three bits differ from 010 |
| RegConfig.PowerOnReset | src/cpu/cp0/reg_config.rs:12-17 | sets Normal / Big and keeps CU and the kseg0 flag |
| RegConfig.DecodeEncode | src/cpu/cp0/reg_config.rs:20-32 | decoding the canonical encoding of any typed Config gives that Config back |
| RegConfig.EncodeDecode | src/cpu/cp0/reg_config.rs:20-32 | re-encoding a decoded value reproduces its EP, BE and CU bits and whether K0 is 010 |
| RegConfig.ConfigFromIgnoresUndecodedBits | src/cpu/cp0/reg_config.rs:20-32 | values that agree on bits 27..24, 15, 3 and 2..0 either both fail or both decode to the same Config |
| RegConfig.PowerOnResetIdempotent | src/cpu/cp0/reg_config.rs:12-17 | resetting twice equals resetting once |
| RegConfig.ZeroIsNotDefault | src/cpu/cp0/reg_config.rs:20-48 | raw 0 decodes to Normal / Little / CU clear / kseg0 cacheable, which differs from the default |
| RegStatus.MaskBits | src/cpu/cp0/reg_status.rs:48-54 | the interrupt mask holds exactly eight flags: timer, then 5 external, then 2 software |
| RegStatus.StatusFlags | src/cpu/cp0/reg_status.rs:1-30 | the Status register holds 25 boolean flags, with the CU flags first, the interrupt mask at 11..18, and ERL, EXL, IE last |
| RegStatus.DefaultVectorLocation | src/cpu/cp0/reg_status.rs:40-46 | the default BEV location is Normal |
| RegStatus.DefaultDiagnosticStatus | src/cpu/cp0/reg_status.rs:20-30 | the default diagnostic status has BEV Normal and every flag clear |
| RegStatus.DefaultInterruptMask | src/cpu/cp0/reg_status.rs:48-54 | all eight default interrupt-mask bits are clear |
| RegStatus.DefaultMode | src/cpu/cp0/reg_status.rs:65-71 | the default mode is Kernel |
| RegStatus.Default | src/cpu/cp0/reg_status.rs:1-18 | the default Status has all 25 flags clear (all four CU, ERL, EXL, IE included), Kernel mode and Normal BEV |
| RegStatus.ModeKsuBijection | src/cpu/cp0/reg_status.rs:56-63 | the four modes correspond one-to-one to the 2-bit KSU patterns 00, 01, 10, 11 (11 is Invalid) |
| Cp0.Default | src/cpu/cp0/cp0.rs:4-10 | the default coprocessor holds the default Config and the default Status |
| Cp0.PowerOnReset | src/cpu/cp0/cp0.rs:15-18 | only Config changes, to Normal / Big with CU and K0 kept; Status is unchanged |
| Cp0.WriteReg | src/cpu/cp0/cp0.rs:20-35 | index 12 replaces Status with the decode of the low 32 bits; index 16 replaces Config with their decode, leaving Status alone, and fails with the raw value on a bad EP; any other index fails with the index and the data |
| Cp0.WriteRegUsesLow32Only | src/cpu/cp0/cp0.rs:27-31 | for indices 12 and 16 the whole outcome depends only on data mod 2^32 |
| Cp0.WriteRegIdempotent | src/cpu/cp0/cp0.rs:20-35 | repeating a successful write leaves the coprocessor as the first write left it |
| Cp0.PowerOnResetIdempotent | src/cpu/cp0/cp0.rs:15-18 | resetting twice equals resetting once |
| Gpr.Zeroed | src/cpu/cpu.rs:30 | every register of a fresh file is zero |
| Gpr.Read | src/cpu/cpu.rs:124-131 | index 0 reads 0, indices 1..31 read the array, larger indices fail |
| Gpr.Write | src/cpu/cpu.rs:115-122 | succeeds iff the index is below 32, fails with the index otherwise, and never changes register 0's storage |
| Gpr.WriteZeroReadsZero | src/cpu/cpu.rs:115-131 | writing register 0 leaves the file unchanged and register 0 still reads 0 |
| Gpr.ReadAfterWrite | src/cpu/cpu.rs:115-131 | for 0 < i < 32, a write to i reads back exactly, and every other index reads as before |
| Interconnect.New | src/interconnect.rs:17-24 | the ROM image is stored unchanged; RAM has 4·1024·1024 cells, all zero |
| Interconnect.InPifRom | src/interconnect.rs:30 | an address passes the window test only if four bytes from it still lie within the 2048-byte ROM size |
| Interconnect.BigEndian32 | src/interconnect.rs:37-42 | byte 0 lands in bits 31..24, byte 1 in 23..16, byte 2 in 15..8 and byte 3 in 7..0 |
| Interconnect.RomOffset | src/interconnect.rs:30-32 | an in-window address has an offset below 0x7c0 |
| Interconnect.BigEndianOfWordBytes | src/interconnect.rs:37-42 | splitting a word into bytes and reading them big-endian gives the word |
| Interconnect.WordBytesOfBigEndian | src/interconnect.rs:37-42 | reading four bytes big-endian and splitting the word gives the bytes |
| Interconnect.ReadWord | src/interconnect.rs:26-48 | succeeds iff 0x1fc0_0000 ≤ addr < 0x1fc0_07c0 and the image has four bytes at the offset; the word's big-endian bytes are the image bytes there; outside the window it fails with the address; a short image fails too |
| Interconnect.FullRomReadsEveryWindowAddress | src/interconnect.rs:4-30 | with a 2048-byte image every window address is readable |
| Interconnect.UnalignedReadsOverlap | src/interconnect.rs:30-42 | there is no alignment check: reads at addr and addr+1 share three bytes |
| Cpu.New | src/cpu/cpu.rs:26-41 | all GPRs zero, PC, HI, LO, FCR0, FCR31 zero, LLbit clear, default coprocessor, interconnect as given |
| Cpu.PowerOnReset | src/cpu/cpu.rs:43-50 | PC becomes 0xffff_ffff_bfc0_0000 and the coprocessor is reset; every other field (GPRs, HI, LO, LLbit, FCR0, FCR31, the interconnect) is unchanged |
| Cpu.SegmentBits | src/cpu/cpu.rs:101 | the segment selector is a 3-bit value |
| Cpu.Translate | src/cpu/cpu.rs:98-113 | succeeds exactly on 0xffff_ffff_a000_0000 ≤ v < 0xffff_ffff_c000_0000, giving the offset below 2^29 that added to the base yields v; selector ≠ 101 fails as an unknown segment, selector 101 below the base fails as an underflow |
| Cpu.Kseg1Window | src/cpu/cpu.rs:98-113 | selector 101 at or above the base picks out exactly the kseg1 window |
| Cpu.TranslateKseg1Inverse | src/cpu/cpu.rs:98-113 | every physical address below 2^29 is the translation of base + that address |
| Cpu.ResetVectorTranslates | src/cpu/cpu.rs:98-113 | 0xffff_ffff_bfc0_0000 translates to 0x1fc0_0000 |
| Cpu.ReadWord | src/cpu/cpu.rs:92-96 | a translation fault propagates; otherwise the u32 cast is lossless and the read is the interconnect's read at the physical address |
| Cpu.LuiValue | src/cpu/cpu.rs:68-74 | the LUI value has bits 63..32 and 15..0 clear and the immediate in bits 31..16 |
| Cpu.NextPc | src/cpu/cpu.rs:88 | the next PC is exactly 4 more; a u64 overflow is a fault carrying the PC (shared with the legacy CPU, src/cpu.rs:82) |
| Cpu.AdvancePc | src/cpu/cpu.rs:88 | only the PC changes, growing by exactly 4; overflow is a fault |
| Cpu.Lui | src/cpu/cpu.rs:68-74 | rt reads the zero-extended imm << 16 (0 when rt is 0), every other register reads as before, the PC grows by 4, and no other field changes; the only failure is PC overflow |
| Cpu.Mtc0 | src/cpu/cpu.rs:75-81 | a coprocessor fault for writing GPR[rt] to register rd propagates; success replaces cp0 with the coprocessor's result, grows the PC by 4, and changes no other field |
| Cpu.Execute | src/cpu/cpu.rs:60-89 | unhandled opcodes fail with the word; success adds exactly 4 to the PC, keeps register 0's storage, and changes nothing outside the GPRs, cp0 and the PC |
| Cpu.Step | src/cpu/cpu.rs:60-89 | a failed fetch returns the fetch's own fault (the translation or physical-address fault carrying the address); a successful step fetched its word, added exactly 4 to the PC, and kept register 0's storage, the interconnect, HI, LO, LLbit, FCR0 and FCR31; a step never fails by PC overflow |
| Cpu.Run | src/cpu/cpu.rs:52-58 | zero steps leave the state as it is; no run fails by PC overflow |
| Cpu.RunStopsAtFirstFault | src/cpu/cpu.rs:52-58 | a failing first step ends the run with that step's fault, as a panic ends the loop |
| Cpu.ExecuteLui | src/cpu/cpu.rs:65-74 | after LUI, rt reads the zero-extended imm << 16 (0 when rt is 0), every other register reads as before, and the coprocessor is unchanged; it fails only on PC overflow |
| Cpu.ExecuteMtc0 | src/cpu/cpu.rs:75-81 | opcode 010000 succeeds iff the coprocessor accepts the write of GPR[rt] to register rd and the PC increment does not overflow; a coprocessor fault propagates; the GPRs are unchanged |
| Cpu.ExecuteIgnoresRs | src/cpu/cpu.rs:64-81 | for LUI and MTC0, the rs field does not affect the outcome |
| Cpu.FetchedStepAdvancesPc | src/cpu/cpu.rs:60-88 | once the fetch succeeds, the step is the dispatch of the fetched word and the PC increment cannot overflow |
| Cpu.BootFetchReadsRomStart | src/cpu/cpu.rs:43-62 | after construction and reset, the first fetch reads the first four ROM bytes big-endian |
| Cpu.RunAdvancesPc | src/cpu/cpu.rs:52-58 | after n successful steps the PC has grown by 4n, and the interconnect and register 0's storage are unchanged |
| LegacyCpu.DefaultEp | src/cpu.rs:130-136 | the legacy EP default is D |
| LegacyCpu.DefaultBe | src/cpu.rs:146-152 | the legacy BE default is BigEndian |
| LegacyCpu.DefaultCp0 | src/cpu.rs:154-177 | the legacy coprocessor's Config defaults to D / BigEndian |
| LegacyCpu.Cp0PowerOnReset | src/cpu.rs:164-185 | reset sets D / BigEndian, which equals the default |
| LegacyCpu.New | src/cpu.rs:25-40 | all registers zero, default coprocessor, interconnect as given |
| LegacyCpu.PowerOnReset | src/cpu.rs:42-49 | PC becomes 0xffff_ffff_bfc0_0000 and Config becomes D / BigEndian; every other field (GPRs, HI, LO, LLbit, FCR0, FCR31, the interconnect) is unchanged |
| LegacyCpu.Execute | src/cpu.rs:59-116 | every LUI fails with an out-of-bounds register index (the masked index); any other opcode fails with the word |
| LegacyCpu.Step | src/cpu.rs:59-90 | a fetch fault (same kseg1 / PIF ROM path as the newer CPU) propagates unchanged |
| LegacyCpu.LuiTarget | src/cpu.rs:71 | the index computed with mask 0x11111 can only have bits 0, 4, 8, 12 and 16 set, and its bit 0 equals bit 0 of the 5-bit rt field |
| LegacyCpu.LuiTargetAtLeast4096 | src/cpu.rs:63-71 | for any LUI word the index computed with mask 0x11111 is at least 0x1000, so it is out of range |
| LegacyCpu.LuiAlwaysFails | src/cpu.rs:66-116 | every legacy LUI fails with an out-of-bounds register index |
| LegacyCpu.StepNeverSucceeds | src/cpu.rs:59-116 | no legacy step ever succeeds |
| LegacyCpu.LuiMaskWitness | src/cpu.rs:71 | for `lui $8, 0x1234` (0x3c08_1234), rt is 8 but the legacy index is 0x1000 |

## Findings

| source | as written | input that shows it | evidently intended | confidence | as-written member | corrected member |
|---|---|---|---|---|---|---|
| src/cpu.rs:71 | `rt = (instruction >> 16) & 0x11111`, a hex mask over bits 0, 4, 8, 12, 16 | word 0x3c08_1234 (`lui $8, 0x1234`): the index is 0x1000, and the array write at src/cpu.rs:114 is out of bounds; every LUI word has bit 28 set, so every legacy LUI fails | the binary mask 0b11111, giving rt = 8 (as src/cpu/cpu.rs:65 does) | high; not executed | LegacyCpu.LuiAlwaysFails | Cpu.ExecuteLui |

## Left out

- `Cpu::run` and the legacy `run`, the endless loop. The model has one `Step` and the n-step fold `Run`.
- The floating-point registers `reg_fpr`. They are floating point and never used. HI, LO, LLbit, FCR0 and FCR31 are zero-initialised fields that no operation changes; the reset, LUI, MTC0, Execute and Step contracts say so.
- The `Opcode` enum and its `from_u32`. Their definitions are not part of this model, so `Instruction.Opcode` takes the table as a map parameter. The newer CPU dispatches on the raw 6-bit value and does not use it.
- `From<u32> for RegStatus`. Its definition is not part of this model, so it is the total function parameter `statusFrom`. No bit layout of the Status register is modelled, so the raw-value test of the Status decode is not stated.
- Cp0.WriteReg: a panic inside the Status decoder would be a fault, but the decoder parameter is total, so that fault is not modelled.
- `RegConfig.ConfigBits` is a canonical encoder with no counterpart in the code. It exists only to state the decode round trip. K0 keeps only the "is 010" distinction, so raw-to-raw round trips hold up to that.
- The `byteorder` crate. It is replaced by the explicit big-endian formula and its byte-split inverse.
- RAM contents. RAM is never read or written after construction, so only its size and its zero cells are modelled.
- Release-build arithmetic. `reg_pc += 4` and the kseg1 subtraction follow debug-build semantics: an overflow is a fault. In a release build they would wrap.
- `println!` in the legacy LUI handler, `fmt::Debug` for `Interconnect`, and all of `src/main.rs`. These are argument parsing, file reading and printing.
