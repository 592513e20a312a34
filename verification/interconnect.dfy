/** The physical memory map: the PIF boot ROM image and the RAM, with the
    32-bit big-endian read path. Only the PIF ROM range is mapped.
 */
module Interconnect {
  import opened Faults
  import opened Bits

  const PIF_ROM_SIZE: nat := 2048
  const RAM_SIZE: nat := 4 * 1024 * 1024

  /** First physical address of the PIF ROM window. */
  const PIF_ROM_START: U32 := 0x1fc0_0000
  /** First physical address past the PIF ROM window. */
  const PIF_ROM_END: U32 := 0x1fc0_07c0

  /** RAM is kept in 16-bit cells, as the Rust code stores it. */
  datatype Interconnect = Interconnect(pifRom: seq<bv8>, ram: seq<bv16>)

  /** `Interconnect::new`: takes the ROM image as given and allocates a
      zeroed RAM of `RAM_SIZE` cells. */
  function New(pifRom: seq<bv8>): (ic: Interconnect)
    ensures ic.pifRom == pifRom
    ensures |ic.ram| == RAM_SIZE
    ensures forall i :: 0 <= i < |ic.ram| ==> ic.ram[i] == 0
  {
    Interconnect(pifRom, seq(RAM_SIZE, _ => 0))
  }

  /** The PIF ROM window test. The whole window, four-byte reads at its last
      address included, fits inside a ROM image of `PIF_ROM_SIZE` bytes. */
  function InPifRom(addr: U32): (b: bool)
    ensures b ==> addr - PIF_ROM_START + 4 <= PIF_ROM_SIZE
  {
    PIF_ROM_START <= addr < PIF_ROM_END
  }

  /** Byte offset of a PIF ROM address into the ROM image. */
  function RomOffset(addr: U32): (o: nat)
    requires InPifRom(addr)
    ensures o < PIF_ROM_END - PIF_ROM_START
  {
    addr - PIF_ROM_START
  }

  /** Four bytes read as a big-endian 32-bit word (most significant first). */
  function BigEndian32(b: seq<bv8>): (w: bv32)
    requires |b| == 4
    ensures w >> 24 == b[0] as bv32 && w & 0xff == b[3] as bv32
    ensures (w >> 16) & 0xff == b[1] as bv32 && (w >> 8) & 0xff == b[2] as bv32
  {
    (b[0] as bv32 << 24) | (b[1] as bv32 << 16) | (b[2] as bv32 << 8) | b[3] as bv32
  }

  /** The four bytes of a word, most significant first. */
  function WordBytes(w: bv32): (b: seq<bv8>)
    ensures |b| == 4
  {
    [(w >> 24) as bv8, ((w >> 16) & 0xff) as bv8, ((w >> 8) & 0xff) as bv8, (w & 0xff) as bv8]
  }

  /** Splitting a word into bytes and reading them back is the identity. */
  lemma BigEndianOfWordBytes(w: bv32)
    ensures BigEndian32(WordBytes(w)) == w
  {
  }

  /** Reading four bytes as a word and splitting it gives the same bytes. */
  lemma WordBytesOfBigEndian(b: seq<bv8>)
    requires |b| == 4
    ensures WordBytes(BigEndian32(b)) == b
  {
  }

  /** `Interconnect::read_word`: inside the PIF ROM window, the big-endian
      word at the window offset; the read fails when the image is too short
      for four bytes there, and any address outside the window fails. */
  function ReadWord(ic: Interconnect, addr: U32): (r: Result<bv32>)
    ensures r.Ok? <==> InPifRom(addr) && RomOffset(addr) + 4 <= |ic.pifRom|
    ensures r.Ok? ==> WordBytes(r.value) == ic.pifRom[RomOffset(addr)..RomOffset(addr) + 4]
    ensures !InPifRom(addr) ==> r == Err(UnrecognizedPhysicalAddress(addr))
    ensures InPifRom(addr) && r.Err? ==> r == Err(PifRomOutOfBounds(addr, |ic.pifRom|))
  {
    if InPifRom(addr) then
      var o := RomOffset(addr);
      if o + 4 <= |ic.pifRom| then
        WordBytesOfBigEndian(ic.pifRom[o..o + 4]);
        Ok(BigEndian32(ic.pifRom[o..o + 4]))
      else
        Err(PifRomOutOfBounds(addr, |ic.pifRom|))
    else
      Err(UnrecognizedPhysicalAddress(addr))
  }

  /** With a full-size ROM image every address of the window is readable:
      the last window address plus four bytes still lies inside 2048 bytes. */
  lemma FullRomReadsEveryWindowAddress(ic: Interconnect, addr: U32)
    requires |ic.pifRom| == PIF_ROM_SIZE
    requires InPifRom(addr)
    ensures ReadWord(ic, addr).Ok?
  {
  }

  /** There is no alignment check: reads at neighbouring addresses share
      three bytes, so the low three bytes of one are the high three of the
      next. */
  lemma UnalignedReadsOverlap(ic: Interconnect, addr: U32)
    requires ReadWord(ic, addr).Ok? && ReadWord(ic, addr + 1).Ok?
    ensures ReadWord(ic, addr).value << 8 == ReadWord(ic, addr + 1).value & 0xffff_ff00
  {
    var o := RomOffset(addr);
    var w1 := ReadWord(ic, addr).value;
    var w2 := ReadWord(ic, addr + 1).value;
    var rom := ic.pifRom;
    assert WordBytes(w1) == rom[o..o + 4];
    assert WordBytes(w2) == rom[o + 1..o + 5];
    assert WordBytes(w1)[1..] == WordBytes(w2)[..3] by {
      assert WordBytes(w1)[1..] == rom[o + 1..o + 4];
      assert WordBytes(w2)[..3] == rom[o + 1..o + 4];
    }
    ShiftedWordBytes(w1, w2);
  }

  /** Bit-level step of the overlap: sharing three bytes is a byte shift. */
  lemma ShiftedWordBytes(w1: bv32, w2: bv32)
    requires WordBytes(w1)[1..] == WordBytes(w2)[..3]
    ensures w1 << 8 == w2 & 0xffff_ff00
  {
    assert WordBytes(w1)[1] == WordBytes(w2)[0];
    assert WordBytes(w1)[2] == WordBytes(w2)[1];
    assert WordBytes(w1)[3] == WordBytes(w2)[2];
  }
}
