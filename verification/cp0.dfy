/** Coprocessor 0: the Config and Status registers and the index-dispatched
    write path used by MTC0.
 */
module Cp0 {
  import opened Faults
  import RegConfig
  import RegStatus
  import Bits

  datatype Cp0 = Cp0(regConfig: RegConfig.RegConfig, regStatus: RegStatus.RegStatus)

  /** `From<u32> for RegStatus`, whose definition is not part of this model. */
  type StatusDecoder = bv32 -> RegStatus.RegStatus

  const STATUS_INDEX: bv32 := 12
  const CONFIG_INDEX: bv32 := 16

  /** The derived default: default Config and default Status. */
  function Default(): (c: Cp0)
    ensures c.regConfig == RegConfig.Default()
    ensures c.regStatus == RegStatus.Default()
  {
    Cp0(RegConfig.Default(), RegStatus.Default())
  }

  /** `Cp0::power_on_reset`: resets Config only; Status keeps its value. */
  function PowerOnReset(c: Cp0): (r: Cp0)
    ensures r.regConfig.dataTransferPattern == RegConfig.Normal
    ensures r.regConfig.endianness == RegConfig.Big
    ensures r.regConfig.cu == c.regConfig.cu
    ensures r.regConfig.kseg0CacheEnabled == c.regConfig.kseg0CacheEnabled
    ensures r.regStatus == c.regStatus
  {
    c.(regConfig := RegConfig.PowerOnReset(c.regConfig))
  }

  /** `Cp0::write_reg`: index 12 replaces Status, index 16 replaces Config
      (failing when the EP field is invalid), any other index fails with the
      index and the data. Only the low 32 bits of the data are decoded. */
  function WriteReg(c: Cp0, index: bv32, data: bv64, statusFrom: StatusDecoder): (r: Result<Cp0>)
    ensures index == STATUS_INDEX ==>
      r == Ok(c.(regStatus := statusFrom(Bits.Low32(data))))
    ensures index == CONFIG_INDEX ==>
      (r.Ok? <==> RegConfig.ConfigFrom(Bits.Low32(data)).Ok?)
    ensures index == CONFIG_INDEX && r.Ok? ==>
      r.value.regStatus == c.regStatus
      && r.value.regConfig == RegConfig.ConfigFrom(Bits.Low32(data)).value
    ensures index == CONFIG_INDEX && r.Err? ==>
      r == Err(InvalidDataTransferPattern(Bits.Low32(data)))
    ensures index != STATUS_INDEX && index != CONFIG_INDEX ==>
      r == Err(UnrecognizedCp0Write(index, data))
  {
    if index == STATUS_INDEX then
      Ok(c.(regStatus := statusFrom(Bits.Low32(data))))
    else if index == CONFIG_INDEX then
      var config :- RegConfig.ConfigFrom(Bits.Low32(data));
      Ok(c.(regConfig := config))
    else
      Err(UnrecognizedCp0Write(index, data))
  }

  /** For the two modelled registers the outcome, failure included, depends
      only on the data's low 32 bits. */
  lemma WriteRegUsesLow32Only(c: Cp0, index: bv32, d1: bv64, d2: bv64, statusFrom: StatusDecoder)
    requires index == STATUS_INDEX || index == CONFIG_INDEX
    requires d1 & 0xffff_ffff == d2 & 0xffff_ffff
    ensures WriteReg(c, index, d1, statusFrom) == WriteReg(c, index, d2, statusFrom)
  {
    assert Bits.Low32(d1) == Bits.Low32(d2);
  }

  /** A write is a replacement: repeating it changes nothing further. */
  lemma WriteRegIdempotent(c: Cp0, index: bv32, data: bv64, statusFrom: StatusDecoder)
    requires WriteReg(c, index, data, statusFrom).Ok?
    ensures var c' := WriteReg(c, index, data, statusFrom).value;
      WriteReg(c', index, data, statusFrom) == Ok(c')
  {
  }

  /** Power-on reset applied twice is the same as once. */
  lemma PowerOnResetIdempotent(c: Cp0)
    ensures PowerOnReset(PowerOnReset(c)) == PowerOnReset(c)
  {
  }
}
