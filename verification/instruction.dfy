/** A 32-bit MIPS instruction word seen through its fixed bit windows:
    opcode (31..26), rs (25..21), rt (20..16), rd (15..11) and the 16-bit
    immediate / offset (15..0). Field extraction is pure masking and is
    defined for every word; only resolving the opcode can fail.
 */
module Instruction {
  import opened Faults

  type Word = bv32

  /** The raw 6-bit opcode field, bits 31..26. */
  function Top6(w: Word): (r: Word)
    ensures r < 64
    ensures r == w >> 26
  {
    (w >> 26) & 0x3f
  }

  /** Source register index, bits 25..21. */
  function Rs(w: Word): (r: Word)
    ensures r < 32
  {
    (w >> 21) & 0x1f
  }

  /** Target register index, bits 20..16. */
  function Rt(w: Word): (r: Word)
    ensures r < 32
  {
    (w >> 16) & 0x1f
  }

  /** rt as an index into the register file. */
  function RtIndex(w: Word): (i: nat)
    ensures i < 32 && i == Rt(w) as nat
  {
    Rt(w) as nat
  }

  /** Destination register index, bits 15..11. */
  function Rd(w: Word): (r: Word)
    ensures r < 32
  {
    (w >> 11) & 0x1f
  }

  /** The 16-bit immediate, bits 15..0. */
  function Imm(w: Word): (r: Word)
    ensures r < 0x1_0000
  {
    w & 0xffff
  }

  /** The branch / load offset is the same window as the immediate. */
  function Offset(w: Word): (r: Word)
    ensures r == Imm(w)
  {
    Imm(w)
  }

  /** Resolves the opcode field against the table of known mnemonics
      (`table` stands for `Opcode::from_u32`, whose definition is not part of
      this model). Fails with the whole word when the field is unknown. */
  function Opcode<Op>(table: map<Word, Op>, w: Word): (r: Result<Op>)
    ensures r.Ok? <==> w >> 26 in table
    ensures r.Ok? ==> r.value == table[w >> 26]
    ensures r.Err? ==> r == Err(UnrecognizedInstruction(w))
  {
    var code := Top6(w);
    if code in table then Ok(table[code]) else Err(UnrecognizedInstruction(w))
  }

  /** Builds a word from an opcode, two register indices and an immediate
      (the I-type layout). Used to state that the fields partition the word. */
  function Assemble(top: Word, rs: Word, rt: Word, imm: Word): Word
    requires top < 64 && rs < 32 && rt < 32 && imm < 0x1_0000
  {
    (top << 26) | (rs << 21) | (rt << 16) | imm
  }

  /** The opcode, rs, rt and immediate windows cover the whole word: putting
      them back together reproduces it. */
  lemma FieldsRecompose(w: Word)
    ensures Assemble(Top6(w), Rs(w), Rt(w), Imm(w)) == w
  {
  }

  /** Conversely every field reads back what was assembled into it, so the
      windows do not overlap. */
  lemma AssembleFields(top: Word, rs: Word, rt: Word, imm: Word)
    requires top < 64 && rs < 32 && rt < 32 && imm < 0x1_0000
    ensures var w := Assemble(top, rs, rt, imm);
      Top6(w) == top && Rs(w) == rs && Rt(w) == rt && Imm(w) == imm
  {
  }

  /** The rd window is the top five bits of the immediate. */
  lemma RdIsHighImm(w: Word)
    ensures Rd(w) == Imm(w) >> 11
  {
  }

  /** Words that agree everywhere except bits 25..21 have the same opcode,
      rt, rd and immediate fields. */
  lemma FieldsOutsideRs(w1: Word, w2: Word)
    requires w1 & RS_CLEAR == w2 & RS_CLEAR
    ensures Top6(w1) == Top6(w2) && Rt(w1) == Rt(w2)
    ensures Rd(w1) == Rd(w2) && Imm(w1) == Imm(w2)
  {
    Top6OutsideRs(w1, w2);
    RtOutsideRs(w1, w2);
    RdOutsideRs(w1, w2);
    ImmOutsideRs(w1, w2);
  }

  /** All bits except the rs window. */
  const RS_CLEAR: Word := 0xfc1f_ffff

  // One bit-vector fact per field keeps each proof obligation small.
  lemma Top6OutsideRs(w1: Word, w2: Word)
    requires w1 & RS_CLEAR == w2 & RS_CLEAR
    ensures Top6(w1) == Top6(w2)
  {
  }

  lemma RtOutsideRs(w1: Word, w2: Word)
    requires w1 & RS_CLEAR == w2 & RS_CLEAR
    ensures Rt(w1) == Rt(w2)
  {
  }

  lemma RdOutsideRs(w1: Word, w2: Word)
    requires w1 & RS_CLEAR == w2 & RS_CLEAR
    ensures Rd(w1) == Rd(w2)
  {
  }

  lemma ImmOutsideRs(w1: Word, w2: Word)
    requires w1 & RS_CLEAR == w2 & RS_CLEAR
    ensures Imm(w1) == Imm(w2)
  {
  }

  /** Resolving the opcode looks at bits 31..26 only: two words that agree
      there resolve to the same mnemonic, or both fail. */
  lemma OpcodeDependsOnTop6Only<Op>(table: map<Word, Op>, w1: Word, w2: Word)
    requires Top6(w1) == Top6(w2)
    ensures Opcode(table, w1).Ok? <==> Opcode(table, w2).Ok?
    ensures Opcode(table, w1).Ok? ==> Opcode(table, w1).value == Opcode(table, w2).value
  {
  }
}
