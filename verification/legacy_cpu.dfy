/** The older single-file CPU (`src/cpu.rs`), kept beside the newer one. It
    has its own two-field Config register and coprocessor, handles only LUI,
    and extracts LUI's target register with the mask 0x11111, which is a hex
    literal (bits 0, 4, 8, 12 and 16) rather than the five low bits. Address
    translation and the fetch path are the same as the newer CPU's and are
    shared with it.
 */
module LegacyCpu {
  import opened Faults
  import opened Bits
  import Gpr
  import Instruction
  import Interconnect
  import Cpu

  /** The 'EP' area of the legacy Config register. */
  datatype RegConfigEp = D | DxxDxx | RFU

  /** The 'BE' area of the legacy Config register. */
  datatype RegConfigBe = LittleEndian | BigEndian

  datatype RegConfig = RegConfig(regConfigEp: RegConfigEp, regConfigBe: RegConfigBe)

  datatype Cp0 = Cp0(regConfig: RegConfig)

  datatype LegacyCpu = LegacyCpu(
    regGpr: Gpr.Gprs,
    regPc: U64,
    regHi: bv64,
    regLo: bv64,
    regLlbit: bool,
    regFcr0: bv32,
    regFcr31: bv32,
    cp0: Cp0,
    interconnect: Interconnect.Interconnect)

  /** The mask the legacy LUI handler applies to `word >> 16`. */
  const LUI_RT_MASK: bv32 := 0x11111

  /** `Default for RegConfigEp`. */
  function DefaultEp(): (e: RegConfigEp)
    ensures e == D
  {
    D
  }

  /** `Default for RegConfigBe`. */
  function DefaultBe(): (b: RegConfigBe)
    ensures b == BigEndian
  {
    BigEndian
  }

  /** The derived defaults of the legacy Config and coprocessor. */
  function DefaultCp0(): (c: Cp0)
    ensures c.regConfig.regConfigEp == D && c.regConfig.regConfigBe == BigEndian
  {
    Cp0(RegConfig(DefaultEp(), DefaultBe()))
  }

  /** `Cp0::power_on_reset` / `RegConfig::power_on_reset`: EP = D and
      BE = BigEndian, which is also the default, so resetting a freshly
      built coprocessor changes nothing. */
  function Cp0PowerOnReset(c: Cp0): (r: Cp0)
    ensures r.regConfig.regConfigEp == D && r.regConfig.regConfigBe == BigEndian
    ensures r == DefaultCp0()
  {
    c.(regConfig := RegConfig(D, BigEndian))
  }

  /** `Cpu::new` of the legacy CPU: every register zero. */
  function New(ic: Interconnect.Interconnect): (c: LegacyCpu)
    ensures forall i :: 0 <= i < Gpr.NUM_GPR ==> c.regGpr[i] == 0
    ensures c.regPc == 0 && c.regHi == 0 && c.regLo == 0 && !c.regLlbit
    ensures c.regFcr0 == 0 && c.regFcr31 == 0
    ensures c.cp0 == DefaultCp0() && c.interconnect == ic
  {
    LegacyCpu(Gpr.Zeroed(), 0, 0, 0, false, 0, 0, DefaultCp0(), ic)
  }

  /** `Cpu::power_on_reset` of the legacy CPU: reset vector in the PC, Config
      at D / BigEndian, registers kept. */
  function PowerOnReset(c: LegacyCpu): (r: LegacyCpu)
    ensures r.regPc == Cpu.RESET_VECTOR
    ensures r.cp0.regConfig == RegConfig(D, BigEndian)
    ensures r.regGpr == c.regGpr && r.interconnect == c.interconnect
    ensures r.regHi == c.regHi && r.regLo == c.regLo
    ensures r.regLlbit == c.regLlbit && r.regFcr0 == c.regFcr0 && r.regFcr31 == c.regFcr31
    ensures r == c.(cp0 := r.cp0, regPc := r.regPc)
  {
    c.(cp0 := Cp0PowerOnReset(c.cp0), regPc := Cpu.RESET_VECTOR)
  }

  /** The register index the legacy LUI handler computes. */
  function LuiTarget(w: bv32): (r: bv32)
    ensures r & 0xfffe_eeee == 0
    ensures r & 1 == Instruction.Rt(w) & 1
  {
    (w >> 16) & LUI_RT_MASK
  }

  /** The dispatch half of the legacy `run_instruction`: LUI writes the
      zero-extended shifted immediate to register `LuiTarget`, which is
      always out of range, so LUI fails on the register index; any other
      opcode fails with the word. The PC would only advance after a
      successful write. */
  function Execute(c: LegacyCpu, w: bv32): (r: Result<LegacyCpu>)
    ensures Instruction.Top6(w) != Cpu.OP_LUI ==> r == Err(UnrecognizedOpword(w))
    ensures Instruction.Top6(w) == Cpu.OP_LUI ==> r == Err(GprIndexOutOfBounds(LuiTarget(w) as nat))
  {
    if Instruction.Top6(w) == Cpu.OP_LUI then
      LuiTargetAtLeast4096(w);
      match Gpr.Write(c.regGpr, LuiTarget(w) as nat, Cpu.LuiValue(Instruction.Imm(w)))
      case Err(f) => Err(f)
      case Ok(regs) =>
        match Cpu.NextPc(c.regPc)
        case Err(f) => Err(f)
        case Ok(pc) => Ok(c.(regGpr := regs, regPc := pc))
    else
      Err(UnrecognizedOpword(w))
  }

  /** The legacy `run_instruction`: fetch through the shared kseg1 and PIF ROM
      path, then dispatch. */
  function Step(c: LegacyCpu): (r: Result<LegacyCpu>)
    ensures Cpu.ReadWord(c.interconnect, c.regPc).Err? ==>
      r == Cpu.ReadWord(c.interconnect, c.regPc).PropagateFailure()
  {
    var w :- Cpu.ReadWord(c.interconnect, c.regPc);
    Execute(c, w)
  }

  /** LUI's opcode 001111 puts a 1 in instruction bit 28, which the hex mask
      keeps as bit 12 of the index: every legacy LUI index is at least 0x1000. */
  lemma LuiTargetAtLeast4096(w: bv32)
    requires Instruction.Top6(w) == Cpu.OP_LUI
    ensures LuiTarget(w) >= 0x1000
    ensures LuiTarget(w) as nat >= Gpr.NUM_GPR
  {
  }

  /** So the legacy LUI always indexes past the 32-entry register array and
      fails, leaving nothing changed. */
  lemma LuiAlwaysFails(c: LegacyCpu, w: bv32)
    requires Instruction.Top6(w) == Cpu.OP_LUI
    ensures Execute(c, w) == Err(GprIndexOutOfBounds(LuiTarget(w) as nat))
  {
    LuiTargetAtLeast4096(w);
  }

  /** Hence no legacy step ever succeeds: LUI fails on the register index and
      every other opcode is unrecognised. */
  lemma StepNeverSucceeds(c: LegacyCpu)
    ensures Step(c).Err?
  {
    var fetched := Cpu.ReadWord(c.interconnect, c.regPc);
    if fetched.Ok? && Instruction.Top6(fetched.value) == Cpu.OP_LUI {
      LuiAlwaysFails(c, fetched.value);
    }
  }

  /** A concrete witness: `lui $8, 0x1234` is word 0x3c08_1234. The five-bit
      rt field names register 8, the legacy mask computes 0x1000. */
  lemma LuiMaskWitness()
    ensures Instruction.Top6(0x3c08_1234) == Cpu.OP_LUI
    ensures Instruction.Rt(0x3c08_1234) == 8
    ensures LuiTarget(0x3c08_1234) == 0x1000
  {
  }
}
