/** The VR4300 CPU: register state, kseg1 address translation, and the
    single-step fetch / dispatch / PC-advance cycle. Only LUI and MTC0 have
    handlers. Every step is a pure function from a state to a `Result`.
 */
module Cpu {
  import opened Faults
  import opened Bits
  import Gpr
  import Instruction
  import Cp0
  import Interconnect

  /** Power-on reset vector of the program counter. */
  const RESET_VECTOR: U64 := 0xffff_ffff_bfc0_0000
  /** Lowest kseg1 address; kseg1 maps linearly onto physical address 0. */
  const KSEG1_BASE: U64 := 0xffff_ffff_a000_0000
  /** First address past kseg1. */
  const KSEG1_END: U64 := 0xffff_ffff_c000_0000
  /** Size of the kseg1 window, and so the bound on its physical addresses. */
  const KSEG1_SIZE: U64 := 0x2000_0000

  /** Opcode field values that have handlers. */
  const OP_LUI: bv32 := 0x0f
  const OP_COP0: bv32 := 0x10

  /** The floating-point registers are never used and are not part of this
      state; HI, LO, LLbit, FCR0 and FCR31 are only ever zero-initialised. */
  datatype Cpu = Cpu(
    regGpr: Gpr.Gprs,
    regPc: U64,
    regHi: bv64,
    regLo: bv64,
    regLlbit: bool,
    regFcr0: bv32,
    regFcr31: bv32,
    cp0: Cp0.Cp0,
    interconnect: Interconnect.Interconnect)

  /** `Cpu::new`: every register zero, the default coprocessor, and the given
      interconnect. No reset is implied. */
  function New(ic: Interconnect.Interconnect): (c: Cpu)
    ensures forall i :: 0 <= i < Gpr.NUM_GPR ==> c.regGpr[i] == 0
    ensures c.regPc == 0 && c.regHi == 0 && c.regLo == 0 && !c.regLlbit
    ensures c.regFcr0 == 0 && c.regFcr31 == 0
    ensures c.cp0 == Cp0.Default()
    ensures c.interconnect == ic
  {
    Cpu(Gpr.Zeroed(), 0, 0, 0, false, 0, 0, Cp0.Default(), ic)
  }

  /** `Cpu::power_on_reset`: resets the coprocessor and points the PC at the
      reset vector; the registers keep their values. */
  function PowerOnReset(c: Cpu): (r: Cpu)
    ensures r.regPc == RESET_VECTOR
    ensures r.cp0 == Cp0.PowerOnReset(c.cp0)
    ensures r.regGpr == c.regGpr && r.regHi == c.regHi && r.regLo == c.regLo
    ensures r.interconnect == c.interconnect
    ensures r.regLlbit == c.regLlbit && r.regFcr0 == c.regFcr0 && r.regFcr31 == c.regFcr31
    ensures r == c.(cp0 := r.cp0, regPc := r.regPc)
  {
    c.(cp0 := Cp0.PowerOnReset(c.cp0), regPc := RESET_VECTOR)
  }

  /** The kseg1 segment selector: bits 31..29 of a virtual address. */
  function SegmentBits(vaddr: U64): (b: int)
    ensures 0 <= b < 8
  {
    (vaddr / 0x2000_0000) % 8
  }

  /** `virt_addr_to_phys_addr`: bits 31..29 equal to 101 select kseg1, whose
      base is subtracted as a u64 (an underflow is a failure, as in a debug
      build); any other segment fails. The successful inputs are exactly the
      kseg1 window, and the result is the offset into it. */
  function Translate(vaddr: U64): (r: Result<U64>)
    ensures r.Ok? <==> KSEG1_BASE <= vaddr < KSEG1_END
    ensures r.Ok? ==> r.value < KSEG1_SIZE && r.value + KSEG1_BASE == vaddr
    ensures SegmentBits(vaddr) != 5 ==> r == Err(UnrecognizedVirtualAddress(vaddr))
    ensures SegmentBits(vaddr) == 5 && r.Err? ==> r == Err(AddressUnderflow(vaddr))
  {
    Kseg1Window(vaddr);
    if SegmentBits(vaddr) == 5 then
      if vaddr < KSEG1_BASE then Err(AddressUnderflow(vaddr))
      else Ok(vaddr - KSEG1_BASE)
    else
      Err(UnrecognizedVirtualAddress(vaddr))
  }

  /** Among u64 addresses, selector 101 at or above the kseg1 base picks out
      exactly the kseg1 window. */
  lemma Kseg1Window(vaddr: U64)
    ensures (SegmentBits(vaddr) == 5 && vaddr >= KSEG1_BASE) <==> KSEG1_BASE <= vaddr < KSEG1_END
  {
    var q := vaddr / 0x2000_0000;
    if KSEG1_BASE <= vaddr < KSEG1_END {
      assert q == 0x7_ffff_fffd;
    }
    if SegmentBits(vaddr) == 5 && vaddr >= KSEG1_BASE {
      assert q >= 0x7_ffff_fffd;
      assert q <= 0x7_ffff_ffff;
    }
  }

  /** Every physical address below the kseg1 size is reached from exactly
      the kseg1 address that lies that far above the base. */
  lemma TranslateKseg1Inverse(paddr: U64)
    requires paddr < KSEG1_SIZE
    ensures Translate(paddr + KSEG1_BASE) == Ok(paddr)
  {
  }

  /** The reset vector maps to the start of the PIF ROM window. */
  lemma ResetVectorTranslates()
    ensures Translate(RESET_VECTOR) == Ok(Interconnect.PIF_ROM_START)
  {
  }

  /** `Cpu::read_word`: translate, narrow the physical address to 32 bits and
      read through the interconnect. The narrowing never loses bits, since a
      kseg1 physical address is below 2^29. */
  function ReadWord(ic: Interconnect.Interconnect, vaddr: U64): (r: Result<bv32>)
    ensures Translate(vaddr).Err? ==> r == Translate(vaddr).PropagateFailure()
    ensures Translate(vaddr).Ok? ==>
      AddrToU32(Translate(vaddr).value) == Translate(vaddr).value
      && r == Interconnect.ReadWord(ic, Translate(vaddr).value)
  {
    var paddr :- Translate(vaddr);
    Interconnect.ReadWord(ic, AddrToU32(paddr))
  }

  /** The value LUI writes: the immediate shifted into bits 31..16, computed
      in 32 bits and zero-extended, so bits 63..32 are always clear (the
      source leaves sign extension as future work). */
  function LuiValue(imm: bv32): (v: bv64)
    requires imm < 0x1_0000
    ensures v >> 32 == 0
    ensures v & 0xffff == 0
    ensures (v >> 16) as bv32 == imm
  {
    (imm << 16) as bv64
  }

  /** `reg_pc += 4` on a u64, failing on overflow as a debug build does.
      Both CPU files share this step. */
  function NextPc(pc: U64): (r: Result<U64>)
    ensures r.Ok? <==> pc + 4 < TWO_64
    ensures r.Ok? ==> r.value == pc + 4
    ensures r.Err? ==> r == Err(PcOverflow(pc))
  {
    if pc + 4 < TWO_64 then Ok(pc + 4) else Err(PcOverflow(pc))
  }

  /** The PC advance at the end of a step: only the PC changes. */
  function AdvancePc(c: Cpu): (r: Result<Cpu>)
    ensures r.Ok? <==> c.regPc + 4 < TWO_64
    ensures r.Ok? ==> r.value == c.(regPc := c.regPc + 4)
    ensures r.Err? ==> r == Err(PcOverflow(c.regPc))
  {
    var pc :- NextPc(c.regPc);
    Ok(c.(regPc := pc))
  }

  /** LUI once decoded: register `rt` receives `LuiValue(imm)`, then the PC
      advances. The register write cannot fail, since rt is a 5-bit field. */
  function Lui(c: Cpu, rt: nat, imm: bv32): (r: Result<Cpu>)
    requires rt < Gpr.NUM_GPR && imm < 0x1_0000
    ensures r.Ok? <==> c.regPc + 4 < TWO_64
    ensures r.Err? ==> r == Err(PcOverflow(c.regPc))
    ensures r.Ok? ==> r.value.regPc == c.regPc + 4 && r.value.cp0 == c.cp0
    ensures r.Ok? ==> Gpr.Read(r.value.regGpr, rt) == Ok(if rt == 0 then 0 else LuiValue(imm))
    ensures r.Ok? ==> forall j: nat :: j != rt ==> Gpr.Read(r.value.regGpr, j) == Gpr.Read(c.regGpr, j)
    ensures r.Ok? ==> r.value.regGpr[0] == c.regGpr[0] && r.value.interconnect == c.interconnect
    ensures r.Ok? ==> r.value.regHi == c.regHi && r.value.regLo == c.regLo
    ensures r.Ok? ==> r.value == c.(regGpr := r.value.regGpr, regPc := c.regPc + 4)
  {
    var regs := Gpr.Write(c.regGpr, rt, LuiValue(imm)).value;
    AdvancePc(c.(regGpr := regs))
  }

  /** MTC0 once decoded: GPR `rt` is written to coprocessor register `rd`
      (a coprocessor fault propagates), then the PC advances. */
  function Mtc0(c: Cpu, rt: nat, rd: bv32, statusFrom: Cp0.StatusDecoder): (r: Result<Cpu>)
    requires rt < Gpr.NUM_GPR
    ensures var cp0 := Cp0.WriteReg(c.cp0, rd, Gpr.Read(c.regGpr, rt).value, statusFrom);
      && (cp0.Err? ==> r == cp0.PropagateFailure())
      && (r.Ok? <==> cp0.Ok? && c.regPc + 4 < TWO_64)
      && (r.Ok? ==> r.value.cp0 == cp0.value && r.value.regPc == c.regPc + 4)
    ensures r.Ok? ==> r.value.regGpr == c.regGpr && r.value.interconnect == c.interconnect
    ensures r.Ok? ==> r.value.regHi == c.regHi && r.value.regLo == c.regLo
    ensures r.Ok? ==> r.value == c.(cp0 := r.value.cp0, regPc := c.regPc + 4)
  {
    var data := Gpr.Read(c.regGpr, rt).value;
    var cp0 :- Cp0.WriteReg(c.cp0, rd, data, statusFrom);
    AdvancePc(c.(cp0 := cp0))
  }

  /** The dispatch half of `run_instruction`: LUI writes `LuiValue` to rt,
      MTC0 (any word with opcode 010000; the rs sub-field is not checked)
      hands rt's value to coprocessor register rd, any other opcode fails
      with the word. The PC advances by four after a successful dispatch. */
  function Execute(c: Cpu, w: bv32, statusFrom: Cp0.StatusDecoder): (r: Result<Cpu>)
    ensures Instruction.Top6(w) != OP_LUI && Instruction.Top6(w) != OP_COP0 ==>
      r == Err(UnrecognizedOpword(w))
    ensures r.Ok? ==> r.value.regPc == c.regPc + 4
    ensures r.Ok? ==> r.value.regGpr[0] == c.regGpr[0]
    ensures r.Ok? ==> r.value == c.(regGpr := r.value.regGpr, cp0 := r.value.cp0, regPc := r.value.regPc)
  {
    var op := Instruction.Top6(w);
    if op == OP_LUI then
      Lui(c, Instruction.RtIndex(w), Instruction.Imm(w))
    else if op == OP_COP0 then
      Mtc0(c, Instruction.RtIndex(w), Instruction.Rd(w), statusFrom)
    else
      Err(UnrecognizedOpword(w))
  }

  /** `run_instruction`: fetch the word at the PC, then dispatch it. */
  function Step(c: Cpu, statusFrom: Cp0.StatusDecoder): (r: Result<Cpu>)
    ensures ReadWord(c.interconnect, c.regPc).Err? ==>
      r == ReadWord(c.interconnect, c.regPc).PropagateFailure()
    ensures r.Ok? ==> ReadWord(c.interconnect, c.regPc).Ok?
    ensures r.Ok? ==> r.value.regPc == c.regPc + 4
    ensures r.Ok? ==> r.value.regGpr[0] == c.regGpr[0]
    ensures r.Ok? ==> r.value.interconnect == c.interconnect
    ensures r.Ok? ==> r.value.regHi == c.regHi && r.value.regLo == c.regLo
    ensures r.Ok? ==>
      r.value.regLlbit == c.regLlbit && r.value.regFcr0 == c.regFcr0 && r.value.regFcr31 == c.regFcr31
    ensures r.Err? ==> !r.fault.PcOverflow?
  {
    var w :- ReadWord(c.interconnect, c.regPc);
    Execute(c, w, statusFrom)
  }

  /** `n` consecutive steps, stopping at the first failure: the bounded form
      of the endless `run` loop, in which a panic ends the loop. */
  function Run(c: Cpu, n: nat, statusFrom: Cp0.StatusDecoder): (r: Result<Cpu>)
    decreases n
    ensures n == 0 ==> r == Ok(c)
    ensures r.Err? ==> !r.fault.PcOverflow?
  {
    if n == 0 then Ok(c)
    else
      var c' :- Step(c, statusFrom);
      Run(c', n - 1, statusFrom)
  }

  /** A run ends at the first failing step, with that step's fault. */
  lemma RunStopsAtFirstFault(c: Cpu, n: nat, statusFrom: Cp0.StatusDecoder)
    requires n > 0 && Step(c, statusFrom).Err?
    ensures Run(c, n, statusFrom) == Step(c, statusFrom).PropagateFailure()
  {
  }

  /** LUI: rt reads back the zero-extended shifted immediate (or zero when
      rt is register 0), every other register reads as before, and the
      coprocessor is untouched. It fails only if the PC increment overflows. */
  lemma ExecuteLui(c: Cpu, w: bv32, statusFrom: Cp0.StatusDecoder, j: nat)
    requires Instruction.Top6(w) == OP_LUI
    ensures var r := Execute(c, w, statusFrom);
      && (r.Ok? <==> c.regPc + 4 < TWO_64)
      && (r.Ok? ==>
        && r.value.cp0 == c.cp0
        && Gpr.Read(r.value.regGpr, Instruction.Rt(w) as nat)
           == Ok(if Instruction.Rt(w) == 0 then 0 else LuiValue(Instruction.Imm(w)))
        && (j != Instruction.Rt(w) as nat ==> Gpr.Read(r.value.regGpr, j) == Gpr.Read(c.regGpr, j)))
  {
    var rt := Instruction.Rt(w) as nat;
    if rt != 0 {
      Gpr.ReadAfterWrite(c.regGpr, rt, LuiValue(Instruction.Imm(w)), j);
    }
  }

  /** MTC0: succeeds exactly when the coprocessor accepts the write of rt's
      value to register rd (and the PC does not overflow); the general
      registers are untouched. */
  lemma ExecuteMtc0(c: Cpu, w: bv32, statusFrom: Cp0.StatusDecoder)
    requires Instruction.Top6(w) == OP_COP0
    ensures var data := Gpr.Read(c.regGpr, Instruction.Rt(w) as nat).value;
      var cp0 := Cp0.WriteReg(c.cp0, Instruction.Rd(w), data, statusFrom);
      var r := Execute(c, w, statusFrom);
      && (cp0.Err? ==> r == cp0.PropagateFailure())
      && (r.Ok? <==> cp0.Ok? && c.regPc + 4 < TWO_64)
      && (r.Ok? ==> r.value.regGpr == c.regGpr && r.value.cp0 == cp0.value)
  {
  }

  /** Neither handler looks at the rs field: two handled words that differ
      only there execute identically. */
  lemma ExecuteIgnoresRs(c: Cpu, w1: bv32, w2: bv32, statusFrom: Cp0.StatusDecoder)
    requires Instruction.Top6(w1) == OP_LUI || Instruction.Top6(w1) == OP_COP0
    requires w1 & Instruction.RS_CLEAR == w2 & Instruction.RS_CLEAR
    ensures Execute(c, w1, statusFrom) == Execute(c, w2, statusFrom)
  {
    Instruction.FieldsOutsideRs(w1, w2);
  }

  /** Once fetched, a step cannot overflow the PC: a successful fetch means
      the PC lies in kseg1, far below the top of the address space. */
  lemma FetchedStepAdvancesPc(c: Cpu, statusFrom: Cp0.StatusDecoder)
    requires ReadWord(c.interconnect, c.regPc).Ok?
    ensures var w := ReadWord(c.interconnect, c.regPc).value;
      Step(c, statusFrom) == Execute(c, w, statusFrom)
      && AdvancePc(c).Ok?
  {
  }

  /** After construction and power-on reset, the first fetch reads the first
      four bytes of the PIF ROM image, big-endian. */
  lemma BootFetchReadsRomStart(rom: seq<bv8>)
    requires |rom| >= 4
    ensures var c := PowerOnReset(New(Interconnect.New(rom)));
      ReadWord(c.interconnect, c.regPc) == Ok(Interconnect.BigEndian32(rom[..4]))
  {
    ResetVectorTranslates();
    var c := PowerOnReset(New(Interconnect.New(rom)));
    var w := ReadWord(c.interconnect, c.regPc).value;
    assert Interconnect.RomOffset(Interconnect.PIF_ROM_START) == 0;
    Interconnect.BigEndianOfWordBytes(w);
  }

  /** Over `n` successful steps the PC advances by exactly 4n, the memory map
      is unchanged, and register 0's storage is never written. */
  lemma {:induction false} RunAdvancesPc(c: Cpu, n: nat, statusFrom: Cp0.StatusDecoder)
    requires Run(c, n, statusFrom).Ok?
    decreases n
    ensures Run(c, n, statusFrom).value.regPc == c.regPc + 4 * n
    ensures Run(c, n, statusFrom).value.interconnect == c.interconnect
    ensures Run(c, n, statusFrom).value.regGpr[0] == c.regGpr[0]
  {
    if n > 0 {
      var c' := Step(c, statusFrom).value;
      RunAdvancesPc(c', n - 1, statusFrom);
    }
  }
}
