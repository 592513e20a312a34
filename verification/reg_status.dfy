/** The coprocessor-0 Status register (index 12) in its typed form: its
    datatypes and their defaults. The decoder from a raw 32-bit value
    (`From<u32> for RegStatus`) is not modelled, so no bit layout of the whole
    register is given here; the coprocessor takes the decoder as a parameter.
 */
module RegStatus {

  /** Fixed-size boolean arrays of the Rust structs. */
  type Flags2 = s: seq<bool> | |s| == 2 witness [false, false]
  type Flags4 = s: seq<bool> | |s| == 4 witness [false, false, false, false]
  type Flags5 = s: seq<bool> | |s| == 5 witness [false, false, false, false, false]

  /** 'BEV': where TLB and general exception vectors live. */
  datatype TLBGeneralExceptionVectorLocation = Normal | Bootstrap

  /** 'DS': the diagnostic status sub-fields. */
  datatype DiagnosticStatus = DiagnosticStatus(
    instructionTraceSupport: bool,               // ITS
    tlbGeneralExceptionVectorLocation: TLBGeneralExceptionVectorLocation, // BEV
    tlbShutdown: bool,                           // TS
    softResetOrNmiOccurred: bool,                // SR
    conditionBit: bool)                          // CH

  /** 'IM(7:0)': one timer, five external and two software interrupt bits. */
  datatype InterruptMask = InterruptMask(
    timerInterrupt: bool,                        // IM(7)
    externalInterruptWriteReq: Flags5,           // IM(6:2)
    softwareInterruptCauseReg: Flags2)           // IM(1:0)

  /** 'KSU': the operating mode, one variant per 2-bit pattern. */
  datatype Mode = Kernel | Supervisor | User | Invalid

  datatype RegStatus = RegStatus(
    coprocessorUsability: Flags4,                // CU
    lowPower: bool,                              // RP
    additionalFpRegs: bool,                      // FR
    reverseEndian: bool,                         // RE
    diagnosticStatus: DiagnosticStatus,          // DS
    interruptMask: InterruptMask,                // IM
    kernelMode64BitAddressing: bool,             // KX
    supervisorMode64BitAddressing: bool,         // SX
    userMode64BitAddressing: bool,               // UX
    mode: Mode,                                  // KSU
    errorLevel: bool,                            // ERL
    exceptionLevel: bool,                        // EXL
    interruptsEnabled: bool)                     // IE

  /** The eight interrupt-mask bits, IM(7) first. */
  function MaskBits(m: InterruptMask): (bits: seq<bool>)
    ensures |bits| == 8
    ensures bits[0] == m.timerInterrupt
    ensures bits[1..6] == m.externalInterruptWriteReq
    ensures bits[6..] == m.softwareInterruptCauseReg
  {
    [m.timerInterrupt] + m.externalInterruptWriteReq + m.softwareInterruptCauseReg
  }

  /** Every boolean flag of the register, in declaration order: four CU bits,
      RP, FR, RE, the four DS flags, the eight IM bits, KX, SX, UX, ERL, EXL
      and IE. */
  function StatusFlags(s: RegStatus): (flags: seq<bool>)
    ensures |flags| == 25
    ensures flags[..4] == s.coprocessorUsability
    ensures flags[11..19] == MaskBits(s.interruptMask)
    ensures flags[22] == s.errorLevel && flags[23] == s.exceptionLevel
    ensures flags[24] == s.interruptsEnabled
  {
    var ds := s.diagnosticStatus;
    var head := s.coprocessorUsability
      + [s.lowPower, s.additionalFpRegs, s.reverseEndian]
      + [ds.instructionTraceSupport, ds.tlbShutdown, ds.softResetOrNmiOccurred, ds.conditionBit];
    var tail := [s.kernelMode64BitAddressing, s.supervisorMode64BitAddressing, s.userMode64BitAddressing]
      + [s.errorLevel, s.exceptionLevel, s.interruptsEnabled];
    assert (head + MaskBits(s.interruptMask) + tail)[11..19] == MaskBits(s.interruptMask);
    head + MaskBits(s.interruptMask) + tail
  }

  /** `Default for TLBGeneralExceptionVectorLocation`. */
  function DefaultVectorLocation(): (l: TLBGeneralExceptionVectorLocation)
    ensures l == Normal
  {
    Normal
  }

  /** The derived default of `DiagnosticStatus`: vectors at their Normal
      location, every flag clear. */
  function DefaultDiagnosticStatus(): (d: DiagnosticStatus)
    ensures d.tlbGeneralExceptionVectorLocation == Normal
    ensures !d.instructionTraceSupport && !d.tlbShutdown
    ensures !d.softResetOrNmiOccurred && !d.conditionBit
  {
    DiagnosticStatus(false, DefaultVectorLocation(), false, false, false)
  }

  /** The derived default of `InterruptMask`: all eight bits clear. */
  function DefaultInterruptMask(): (m: InterruptMask)
    ensures forall i :: 0 <= i < |MaskBits(m)| ==> !MaskBits(m)[i]
  {
    InterruptMask(false, [false, false, false, false, false], [false, false])
  }

  /** `Default for Mode`. */
  function DefaultMode(): (m: Mode)
    ensures m == Kernel
  {
    Kernel
  }

  /** The derived default of `RegStatus`: every flag clear, Kernel mode and
      Normal exception vectors. */
  function Default(): (s: RegStatus)
    ensures forall i :: 0 <= i < |StatusFlags(s)| ==> !StatusFlags(s)[i]
    ensures s.mode == Kernel
    ensures s.diagnosticStatus.tlbGeneralExceptionVectorLocation == Normal
  {
    RegStatus(
      [false, false, false, false], false, false, false,
      DefaultDiagnosticStatus(), DefaultInterruptMask(),
      false, false, false, DefaultMode(), false, false, false)
  }

  /** The KSU bit pattern each mode stands for (00, 01, 10, 11). */
  function KsuBits(m: Mode): bv2
  {
    match m
    case Kernel => 0
    case Supervisor => 1
    case User => 2
    case Invalid => 3
  }

  /** The mode a KSU bit pattern names. */
  function ModeFromKsu(b: bv2): Mode
  {
    if b == 0 then Kernel
    else if b == 1 then Supervisor
    else if b == 2 then User
    else Invalid
  }

  /** Modes and 2-bit KSU patterns are in one-to-one correspondence, so
      `Mode` has exactly the four variants the two bits allow. */
  lemma ModeKsuBijection(m: Mode, b: bv2)
    ensures ModeFromKsu(KsuBits(m)) == m
    ensures KsuBits(ModeFromKsu(b)) == b
  {
  }
}
