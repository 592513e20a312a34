/** The coprocessor-0 Config register (index 16) in its typed form, decoded
    from a raw 32-bit value: EP (bits 27..24), BE (bit 15), CU (bit 3) and K0
    (bits 2..0, kept only as "is kseg0 cacheable").
 */
module RegConfig {
  import opened Faults

  /** The 'EP' field. `Normal` is the datasheet's 'D' pattern. */
  datatype DataTransferPattern = Normal | DxxDxx

  /** The 'BE' field. */
  datatype Endianness = Little | Big

  datatype RegConfig = RegConfig(
    dataTransferPattern: DataTransferPattern,
    endianness: Endianness,
    cu: bool,
    kseg0CacheEnabled: bool)

  /** Bits 2..0 of K0 that mark kseg0 as uncached. */
  const K0_UNCACHED: bv32 := 2

  /** Every bit the decoder looks at: EP, BE, CU and K0. */
  const DECODED_BITS: bv32 := 0x0f00_800f

  /** The `Default` derivation: every field at its own default. */
  function Default(): (c: RegConfig)
    ensures c.dataTransferPattern == Normal && c.endianness == Big
    ensures !c.cu && !c.kseg0CacheEnabled
  {
    RegConfig(Normal, Big, false, false)
  }

  /** `DataTransferPattern::from`: EP = 0 is Normal, EP = 6 is DxxDxx, and any
      other EP value is a decode failure carrying the raw register value. */
  function PatternFrom(value: bv32): (r: Result<DataTransferPattern>)
    ensures r.Ok? <==> (value >> 24) & 0xf == 0 || (value >> 24) & 0xf == 6
    ensures r == Ok(Normal) <==> value & 0x0f00_0000 == 0
    ensures r == Ok(DxxDxx) <==> value & 0x0f00_0000 == 0x0600_0000
    ensures r.Err? ==> r == Err(InvalidDataTransferPattern(value))
  {
    match (value >> 24) & 0xf
    case 0 => Ok(Normal)
    case 6 => Ok(DxxDxx)
    case _ => Err(InvalidDataTransferPattern(value))
  }

  /** `Endianness::from`: bit 15 clear is Little, set is Big. Total. */
  function EndiannessFrom(value: bv32): (e: Endianness)
    ensures e == Big <==> value & 0x8000 != 0
  {
    if (value >> 15) & 1 == 0 then Little else Big
  }

  /** `RegConfig::from(u32)`. Fails exactly when the EP field is invalid. */
  function ConfigFrom(value: bv32): (r: Result<RegConfig>)
    ensures r.Ok? <==> PatternFrom(value).Ok?
    ensures r.Err? ==> r == Err(InvalidDataTransferPattern(value))
    ensures r.Ok? ==> (r.value.cu <==> value & 8 != 0)
    ensures r.Ok? ==> (r.value.kseg0CacheEnabled <==> value & 7 != K0_UNCACHED)
  {
    var ep :- PatternFrom(value);
    Ok(RegConfig(
      ep,
      EndiannessFrom(value),
      value & (1 << 3) != 0,
      value & 7 != K0_UNCACHED))
  }

  /** `RegConfig::power_on_reset`: EP and BE take their reset values, CU and
      K0 keep whatever they held. */
  function PowerOnReset(c: RegConfig): (r: RegConfig)
    ensures r.dataTransferPattern == Normal && r.endianness == Big
    ensures r.cu == c.cu && r.kseg0CacheEnabled == c.kseg0CacheEnabled
  {
    c.(dataTransferPattern := Normal, endianness := Big)
  }

  /** A canonical raw encoding of a typed Config value. The Rust code has no
      encoder; this one exists so that the decoder can be checked against an
      inverse. An enabled kseg0 cache is written as K0 = 000. */
  function ConfigBits(c: RegConfig): bv32
  {
    (if c.dataTransferPattern == DxxDxx then 0x0600_0000 else 0)
    | (if c.endianness == Big then 0x8000 else 0)
    | (if c.cu then 8 else 0)
    | (if c.kseg0CacheEnabled then 0 else K0_UNCACHED)
  }

  /** Decoding the canonical encoding gives back the typed value. */
  lemma DecodeEncode(c: RegConfig)
    ensures ConfigFrom(ConfigBits(c)) == Ok(c)
  {
  }

  /** Re-encoding a decoded value reproduces the raw EP, BE and CU fields, and
      the K0 field up to the one distinction the typed form keeps. */
  lemma EncodeDecode(value: bv32)
    requires ConfigFrom(value).Ok?
    ensures ConfigBits(ConfigFrom(value).value) & 0x0f00_8008 == value & 0x0f00_8008
    ensures (ConfigBits(ConfigFrom(value).value) & 7 == K0_UNCACHED)
        <==> (value & 7 == K0_UNCACHED)
  {
  }

  /** The decoded value depends only on the EP, BE, CU and K0 bits: flipping
      any other bit changes neither success nor the result. */
  lemma ConfigFromIgnoresUndecodedBits(v1: bv32, v2: bv32)
    requires v1 & DECODED_BITS == v2 & DECODED_BITS
    ensures ConfigFrom(v1).Ok? <==> ConfigFrom(v2).Ok?
    ensures ConfigFrom(v1).Ok? ==> ConfigFrom(v1).value == ConfigFrom(v2).value
  {
    assert (v1 >> 24) & 0xf == (v2 >> 24) & 0xf;
    assert (v1 >> 15) & 1 == (v2 >> 15) & 1;
  }

  /** Power-on reset applied twice is the same as once. */
  lemma PowerOnResetIdempotent(c: RegConfig)
    ensures PowerOnReset(PowerOnReset(c)) == PowerOnReset(c)
  {
  }

  /** A zero register decodes to Normal / Little / CU clear / kseg0 cacheable,
      which is not the `Default` value (Big endian, kseg0 uncached). */
  lemma ZeroIsNotDefault()
    ensures ConfigFrom(0) == Ok(RegConfig(Normal, Little, false, true))
    ensures ConfigFrom(0).value != Default()
  {
  }
}
