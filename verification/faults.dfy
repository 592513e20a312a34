/** The failure outcomes of the emulator core.

    The Rust code reports every hardware-rule violation with a `panic!` (or an
    out-of-bounds index, or a debug-mode arithmetic overflow). Here each of those
    becomes a `Fault` value carrying the offending word, address, index or data,
    and every fallible operation returns a `Result`.
 */
module Faults {
  import opened Bits

  datatype Fault =
      /** `Instruction::opcode`: the top six bits name no `Opcode` variant. */
    | UnrecognizedInstruction(word: bv32)
      /** `run_instruction`: the CPU has no handler for the opcode. */
    | UnrecognizedOpword(word: bv32)
      /** `virt_addr_to_phys_addr`: the address is outside kseg1. */
    | UnrecognizedVirtualAddress(vaddr: U64)
      /** `virt_addr_to_phys_addr`: the u64 subtraction of the kseg1 base underflows. */
    | AddressUnderflow(vaddr: U64)
      /** `Interconnect::read_word`: the physical address maps to nothing. */
    | UnrecognizedPhysicalAddress(paddr: U32)
      /** `Interconnect::read_word`: the PIF ROM image holds fewer than four bytes at the offset. */
    | PifRomOutOfBounds(paddr: U32, romLength: nat)
      /** `DataTransferPattern::from`: the EP field is neither 0 nor 6. */
    | InvalidDataTransferPattern(value: bv32)
      /** `Cp0::write_reg`: the register index is not modelled. */
    | UnrecognizedCp0Write(index: bv32, data: bv64)
      /** indexing the 32-entry register array with a larger index. */
    | GprIndexOutOfBounds(gprIndex: nat)
      /** `reg_pc += 4` overflows a u64. */
    | PcOverflow(pc: U64)

  datatype Result<+T> = Ok(value: T) | Err(fault: Fault) {

    predicate IsFailure() {
      Err?
    }

    function PropagateFailure<U>(): Result<U>
      requires Err?
    {
      Err(fault)
    }

    function Extract(): T
      requires Ok?
    {
      value
    }
  }
}
