/** The general-purpose register file: 32 registers of 64 bits each, with
    register 0 hardwired to zero. Indices reach the file as unsigned machine
    integers; an index of 32 or more is an out-of-bounds array access.
 */
module Gpr {
  import opened Faults

  const NUM_GPR: nat := 32

  type Gprs = s: seq<bv64> | |s| == NUM_GPR witness seq(32, _ => 0)

  /** The register file at construction: every register zero. */
  function Zeroed(): (regs: Gprs)
    ensures forall i :: 0 <= i < NUM_GPR ==> regs[i] == 0
  {
    seq(NUM_GPR, _ => 0)
  }

  /** `read_reg_gpr`: register 0 reads as zero whatever the array holds. */
  function Read(regs: Gprs, index: nat): (r: Result<bv64>)
    ensures index == 0 ==> r == Ok(0)
    ensures 0 < index < NUM_GPR ==> r == Ok(regs[index])
    ensures index >= NUM_GPR ==> r == Err(GprIndexOutOfBounds(index))
  {
    if index == 0 then Ok(0)
    else if index < NUM_GPR then Ok(regs[index])
    else Err(GprIndexOutOfBounds(index))
  }

  /** `write_reg_gpr`: a write to register 0 is discarded. */
  function Write(regs: Gprs, index: nat, value: bv64): (r: Result<Gprs>)
    ensures r.Ok? <==> index < NUM_GPR
    ensures r.Err? ==> r == Err(GprIndexOutOfBounds(index))
    ensures r.Ok? ==> r.value[0] == regs[0]
  {
    if index == 0 then Ok(regs)
    else if index < NUM_GPR then Ok(regs[index := value])
    else Err(GprIndexOutOfBounds(index))
  }

  /** Register 0 reads as zero after any write to it. */
  lemma WriteZeroReadsZero(regs: Gprs, value: bv64)
    ensures Write(regs, 0, value) == Ok(regs)
    ensures Read(Write(regs, 0, value).value, 0) == Ok(0)
  {
  }

  /** A write to a register other than 0 is read back exactly, and leaves
      every other register reading as before. */
  lemma ReadAfterWrite(regs: Gprs, i: nat, value: bv64, j: nat)
    requires 0 < i < NUM_GPR
    ensures Write(regs, i, value).Ok?
    ensures Read(Write(regs, i, value).value, i) == Ok(value)
    ensures j != i ==> Read(Write(regs, i, value).value, j) == Read(regs, j)
  {
  }
}
