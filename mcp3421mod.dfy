/** The MCP3421 configuration and sample engine of mcp3421mod.py: the layout
    of the 8-bit configuration register, the decoding of a configuration byte
    into the driver's state, its re-encoding by read-modify-write, the derived
    quantities (resolution, gain, sample rate, conversion time) and the
    reconstruction of a sample from the bytes the device returns.
    Sample rates are counted in quarter-hertz so that 3.75 SPS is the whole
    number 15. */
module Mcp3421Mod {
  import opened Wrappers
  import opened Bits
  import opened BitField

  type Byte = x: nat | x < 256

  // ---------------------------------------------------------------------
  // Layout of the configuration register (Mcp3421._config_reg_mcp3421)

  const RDY: FieldInfo := FieldInfo("RDY", 7, 8, None)
  const CH: FieldInfo := FieldInfo("CH", 5, 7, None)
  const CCM: FieldInfo := FieldInfo("CCM", 4, 5, Some(Span(0, 6)))
  const SAMPLE_RATE: FieldInfo := FieldInfo("SampleRate", 2, 4, None)
  const PGA: FieldInfo := FieldInfo("PGA", 0, 2, None)

  const CONFIG_LAYOUT: seq<FieldInfo> := [RDY, CH, CCM, SAMPLE_RATE, PGA]

  /** The five fields are pairwise disjoint, their names are distinct, and
      together they cover exactly bits 0 .. 7. */
  lemma ConfigLayoutPartitionsByte()
    ensures PairwiseDisjoint(CONFIG_LAYOUT)
    ensures DistinctNames(CONFIG_LAYOUT)
    ensures forall i: nat :: i < 8 <==> Covered(CONFIG_LAYOUT, i)
  {
    forall i: nat | i < 8
      ensures Covered(CONFIG_LAYOUT, i)
    {
      var k := if i == 7 then 0 else if i >= 5 then 1 else if i == 4 then 2 else if i >= 2 then 3 else 4;
      assert CONFIG_LAYOUT[k].Covers(i);
    }
  }

  /** Looking the fields up by name finds each of them. */
  lemma ConfigLayoutLookup()
    ensures FirstNamed(CONFIG_LAYOUT, "RDY") == Some(RDY)
    ensures FirstNamed(CONFIG_LAYOUT, "CCM") == Some(CCM)
    ensures FirstNamed(CONFIG_LAYOUT, "SampleRate") == Some(SAMPLE_RATE)
    ensures FirstNamed(CONFIG_LAYOUT, "PGA") == Some(PGA)
  {
    var l1, l2, l3 := CONFIG_LAYOUT[1..], CONFIG_LAYOUT[2..], CONFIG_LAYOUT[3..];
    assert l1[1..] == l2 && l2[1..] == l3 && l3[1..] == [PGA];
    assert "CCM"[1] != "RDY"[1] && "SampleRate"[0] != "RDY"[0] && "PGA"[0] != "RDY"[0];
    assert "SampleRate"[0] != "CH"[0] && "PGA"[0] != "CH"[0] && "CCM"[1] != "CH"[1];
    assert "SampleRate"[0] != "CCM"[0] && "PGA"[0] != "CCM"[0] && "PGA"[0] != "SampleRate"[0];
    FirstNamedSkips(CONFIG_LAYOUT, "CCM");
    FirstNamedSkips(CONFIG_LAYOUT, "SampleRate");
    FirstNamedSkips(l1, "SampleRate");
    FirstNamedSkips(l2, "SampleRate");
    FirstNamedSkips(CONFIG_LAYOUT, "PGA");
    FirstNamedSkips(l1, "PGA");
    FirstNamedSkips(l2, "PGA");
    FirstNamedSkips(l3, "PGA");
  }

  // ---------------------------------------------------------------------
  // Pure conversions

  /** get_resolution */
  function GetResolution(rawDataRate: int): (bits: int)
    ensures 0 <= rawDataRate < 4 <==> bits in {12, 14, 16, 18}
  {
    12 + 2 * rawDataRate
  }

  lemma ResolutionTable()
    ensures [GetResolution(0), GetResolution(1), GetResolution(2), GetResolution(3)] == [12, 14, 16, 18]
    ensures forall r :: 0 <= r < 4 ==> GetResolution(r) in {12, 14, 16, 18}
  {
  }

  /** raw_sample_rate_to_real in quarter-hertz: sps = 240, 60, 15, 3.75.
      Python indexing accepts -4 .. -1 as well and raises IndexError beyond. */
  function SampleRateQuarterHz(rawSampleRate: int): (q: Result<nat>)
    ensures q.Ok? <==> -4 <= rawSampleRate < 4
    ensures q.Ok? ==> q.value * Pow2(2 * (if rawSampleRate < 0 then rawSampleRate + 4 else rawSampleRate)) == 960
  {
    var sps := [960, 240, 60, 15];
    if -4 <= rawSampleRate < 4 then
      var k := if rawSampleRate < 0 then rawSampleRate + 4 else rawSampleRate;
      assert Pow2(2) == 4 && Pow2(4) == 16 && Pow2(6) == 64;
      Ok(sps[k])
    else Err(IndexOutOfRange)
  }

  /** gain_raw_to_real: 2 ** raw_gain */
  function GainRawToReal(rawGain: nat): (gain: nat)
    ensures gain >= 1
    ensures gain % 2 == 0 <==> rawGain > 0
  {
    Pow2(rawGain)
  }

  lemma GainTable()
    ensures [GainRawToReal(0), GainRawToReal(1), GainRawToReal(2), GainRawToReal(3)] == [1, 2, 4, 8]
  {
  }

  /** The conversion time in microseconds for a sample rate of q/4 SPS:
      1 + int(1_000_000 / sps). It strictly exceeds one sampling period and
      does so by at most one microsecond. */
  function ConversionTimeUs(quarterHz: nat): (t: nat)
    requires quarterHz > 0
    ensures (t - 1) * quarterHz <= 4_000_000 < t * quarterHz
  {
    DivModUnique(4_000_000, quarterHz, 4_000_000 / quarterHz, 4_000_000 % quarterHz);
    1 + 4_000_000 / quarterHz
  }

  lemma ConversionTimeTable()
    ensures ConversionTimeUs(SampleRateQuarterHz(0).value) == 4167
    ensures ConversionTimeUs(SampleRateQuarterHz(1).value) == 16667
    ensures ConversionTimeUs(SampleRateQuarterHz(2).value) == 66667
    ensures ConversionTimeUs(SampleRateQuarterHz(3).value) == 266667
  {
  }

  /** check_gain_raw */
  function CheckGainRaw(gainRaw: int): (r: Result<int>)
    ensures r.Ok? <==> 0 <= gainRaw < 4
    ensures r.Ok? ==> r.value == gainRaw
    ensures r.Err? ==> r.error == OutOfRange("gain_raw", gainRaw)
  {
    if 0 <= gainRaw < 4 then Ok(gainRaw) else Err(OutOfRange("gain_raw", gainRaw))
  }

  /** check_data_rate_raw */
  function CheckDataRateRaw(dataRateRaw: int): (r: Result<int>)
    ensures r.Ok? <==> 0 <= dataRateRaw < 4
    ensures r.Ok? ==> r.value == dataRateRaw
    ensures r.Err? ==> r.error == OutOfRange("data_rate_raw", dataRateRaw)
  {
    if 0 <= dataRateRaw < 4 then Ok(dataRateRaw) else Err(OutOfRange("data_rate_raw", dataRateRaw))
  }

  // ---------------------------------------------------------------------
  // The configuration byte and the driver's state

  /** The driver's runtime state. */
  datatype AdcProps = AdcProps(dataReady: bool, singleShotMode: bool, rawGain: nat, rawDataRate: nat)

  /** The state a configuration byte denotes, read off by positional
      arithmetic: RDY is bit 7 (0 = fresh data), CCM bit 4 (1 = continuous),
      SampleRate bits 2-3 and PGA bits 0-1. */
  function DecodeConfig(raw: nat): (p: AdcProps)
    ensures p.rawGain < 4 && p.rawDataRate < 4
  {
    AdcProps(raw / 128 % 2 == 0, raw / 16 % 2 == 0, raw % 4, raw / 4 % 4)
  }

  /** The byte the driver writes: CH kept from the byte read, CCM the
      negation of single-shot mode, RDY set in single-shot mode (which starts
      a conversion), then the sample rate and the gain. */
  function ConfigByte(read: Byte, singleShot: bool, rawDataRate: nat, rawGain: nat): Byte
    requires rawDataRate < 4 && rawGain < 4
  {
    128 * BoolToInt(singleShot) + 32 * (read / 32 % 4) + 16 * BoolToInt(!singleShot) + 4 * rawDataRate + rawGain
  }

  /** The byte assembled from five field values reads back as those values. */
  lemma ComposeByte(a: nat, b: nat, c: nat, d: nat, e: nat)
    requires a < 2 && b < 4 && c < 2 && d < 4 && e < 4
    ensures var x := 128 * a + 32 * b + 16 * c + 4 * d + e;
            x < 256 && x / 128 % 2 == a && x / 32 % 4 == b && x / 16 % 2 == c && x / 4 % 4 == d && x % 4 == e
  {
    var x := 128 * a + 32 * b + 16 * c + 4 * d + e;
    DivModUnique(x, 128, a, 32 * b + 16 * c + 4 * d + e);
    DivModUnique(a, 2, 0, a);
    DivModUnique(x, 32, 4 * a + b, 16 * c + 4 * d + e);
    DivModUnique(4 * a + b, 4, a, b);
    DivModUnique(x, 16, 8 * a + 2 * b + c, 4 * d + e);
    DivModUnique(8 * a + 2 * b + c, 2, 4 * a + b, c);
    DivModUnique(x, 4, 32 * a + 8 * b + 4 * c + d, e);
    DivModUnique(32 * a + 8 * b + 4 * c + d, 4, 8 * a + 2 * b + c, d);
  }

  /** A byte is the sum of its fields. */
  lemma ByteFromFields(x: nat)
    requires x < 256
    ensures x == 128 * (x / 128 % 2) + 32 * (x / 32 % 4) + 16 * (x / 16 % 2) + 4 * (x / 4 % 4) + x % 4
  {
    var a, r1 := x / 128, x % 128;
    var b, r2 := r1 / 32, r1 % 32;
    var c, r3 := r2 / 16, r2 % 16;
    var d, e := r3 / 4, r3 % 4;
    assert x == 128 * a + 32 * b + 16 * c + 4 * d + e;
    ComposeByte(a, b, c, d, e);
  }

  /** Decoding what the driver encodes restores the mode, the gain and the
      sample rate and keeps the channel bits; the ready flag reads as fresh
      exactly when the byte was written in continuous mode. */
  lemma RoundTrip(read: Byte, singleShot: bool, rawDataRate: nat, rawGain: nat)
    requires rawDataRate < 4 && rawGain < 4
    ensures DecodeConfig(ConfigByte(read, singleShot, rawDataRate, rawGain))
         == AdcProps(!singleShot, singleShot, rawGain, rawDataRate)
    ensures ConfigByte(read, singleShot, rawDataRate, rawGain) / 32 % 4 == read / 32 % 4
  {
    ComposeByte(BoolToInt(singleShot), read / 32 % 4, BoolToInt(!singleShot), rawDataRate, rawGain);
  }

  /** Re-encoding a freshly decoded byte gives the same byte except that RDY
      now mirrors the mode. */
  lemma EncodeDecoded(raw: Byte)
    ensures var p := DecodeConfig(raw);
            ConfigByte(raw, p.singleShotMode, p.rawDataRate, p.rawGain) == raw % 128 + 128 * BoolToInt(p.singleShotMode)
  {
    ByteFromFields(raw);
    var b, c := raw / 32 % 4, raw / 16 % 2;
    assert raw % 128 == 32 * b + 16 * c + 4 * (raw / 4 % 4) + raw % 4 by {
      DivModUnique(raw, 128, raw / 128 % 2, 32 * b + 16 * c + 4 * (raw / 4 % 4) + raw % 4);
    }
  }

  /** The codec's reading of each field is positional arithmetic on the byte. */
  lemma FieldsOfByte(x: nat)
    ensures FieldBits(x, RDY) == x / 128 % 2 && FieldBits(x, CH) == x / 32 % 4
    ensures FieldBits(x, CCM) == x / 16 % 2 && FieldBits(x, SAMPLE_RATE) == x / 4 % 4
    ensures FieldBits(x, PGA) == x % 4
  {
    assert Pow2(0) == 1 && Pow2(1) == 2 && Pow2(2) == 4 && Pow2(4) == 16;
    assert Pow2(5) == 32 && Pow2(7) == 128;
    FieldBitsIsDivMod(x, RDY);
    FieldBitsIsDivMod(x, CH);
    FieldBitsIsDivMod(x, CCM);
    FieldBitsIsDivMod(x, SAMPLE_RATE);
    FieldBitsIsDivMod(x, PGA);
  }

  /** The codec's decoding of each field agrees with DecodeConfig. */
  lemma DecodeFields(raw: nat)
    ensures Extract(raw, RDY) == Flag(raw / 128 % 2 == 1)
    ensures Extract(raw, CCM) == Flag(raw / 16 % 2 == 1)
    ensures Extract(raw, PGA) == Num(raw % 4)
    ensures Extract(raw, SAMPLE_RATE) == Num(raw / 4 % 4)
  {
    FieldsOfByte(raw);
  }

  /** One set_field_value on a byte: the field written reads back as the
      value written, every field disjoint from it is unchanged, and the
      result is still a byte. */
  lemma WriteByteField(x: nat, f: FieldInfo, value: nat)
    requires x < 256 && f.stop <= 8 && value < Pow2(f.Width())
    ensures Insert(x, f, value) < 256
    ensures FieldBits(Insert(x, f, value), f) == value
    ensures forall g | Disjoint(f, g) :: FieldBits(Insert(x, f, value), g) == FieldBits(x, g)
  {
    assert Pow2(8) == 256;
    InsertStaysInWidth(x, f, value, 8);
    InsertThenFieldBits(x, f, value);
    DivModUnique(value, Pow2(f.Width()), 0, value);
    forall g | Disjoint(f, g)
      ensures FieldBits(Insert(x, f, value), g) == FieldBits(x, g)
    {
      InsertKeepsDisjointField(x, f, value, g);
    }
  }

  /** get_field_value without validation on a field the name resolves to
      extracts that field. */
  lemma ConfigGetOutcome(fields: seq<FieldInfo>, stored: nat, name: string, f: FieldInfo)
    requires FirstNamed(fields, name) == Some(f)
    ensures GetOutcome(fields, name, stored, false) == Ok(Extract(stored, f))
  {
  }

  /** The four get_field_value calls of raw_config_to_adc_properties extract
      RDY, CCM, PGA and SampleRate. */
  lemma ConfigReadsExtract(fields: seq<FieldInfo>, raw: nat, rdy: Result<FieldValue>, ccm: Result<FieldValue>,
                           pga: Result<FieldValue>, rate: Result<FieldValue>)
    requires fields == CONFIG_LAYOUT
    requires rdy == GetOutcome(fields, "RDY", raw, false) && ccm == GetOutcome(fields, "CCM", raw, false)
    requires pga == GetOutcome(fields, "PGA", raw, false) && rate == GetOutcome(fields, "SampleRate", raw, false)
    ensures rdy == Ok(Extract(raw, RDY)) && ccm == Ok(Extract(raw, CCM))
    ensures pga == Ok(Extract(raw, PGA)) && rate == Ok(Extract(raw, SAMPLE_RATE))
  {
    ConfigLayoutLookup();
    ConfigGetOutcome(fields, raw, "RDY", RDY);
    ConfigGetOutcome(fields, raw, "CCM", CCM);
    ConfigGetOutcome(fields, raw, "PGA", PGA);
    ConfigGetOutcome(fields, raw, "SampleRate", SAMPLE_RATE);
  }

  /** The four get_field_value results raw_config_to_adc_properties reads
      give DecodeConfig's properties. */
  lemma ConfigReads(fields: seq<FieldInfo>, raw: nat, rdy: Result<FieldValue>, ccm: Result<FieldValue>,
                    pga: Result<FieldValue>, rate: Result<FieldValue>)
    requires fields == CONFIG_LAYOUT
    requires rdy == GetOutcome(fields, "RDY", raw, false) && ccm == GetOutcome(fields, "CCM", raw, false)
    requires pga == GetOutcome(fields, "PGA", raw, false) && rate == GetOutcome(fields, "SampleRate", raw, false)
    ensures rdy.Ok? && rdy.value.Flag? && ccm.Ok? && ccm.value.Flag?
    ensures pga.Ok? && pga.value.Num? && rate.Ok? && rate.value.Num?
    ensures pga.value.n < 4 && rate.value.n < 4
    ensures DecodeConfig(raw) == AdcProps(!rdy.value.b, !ccm.value.b, pga.value.n, rate.value.n)
  {
    ConfigReadsExtract(fields, raw, rdy, ccm, pga, rate);
    DecodeFields(raw);
  }

  /** set_field_value with validation on the stored value: writing a field
      whose name resolves to f with a permitted value stores Insert. */
  lemma ConfigSetOutcome(fields: seq<FieldInfo>, stored: nat, name: string, f: FieldInfo, value: nat)
    requires FirstNamed(fields, name) == Some(f)
    requires f.Checked() ==> f.validValues.value.Contains(value)
    ensures SetOutcome(fields, name, stored, value, None, None, true) == Ok(Insert(stored, f, value))
  {
  }

  /** The four set_field_value calls of adc_properties_to_raw_config, each on
      the value the previous one stored, all succeed and store ConfigByte. */
  lemma ConfigWrites(fields: seq<FieldInfo>, raw: Byte, singleShot: bool, rawDataRate: nat, rawGain: nat,
                     s1: Result<nat>, x1: nat, s2: Result<nat>, x2: nat,
                     s3: Result<nat>, x3: nat, s4: Result<nat>, x4: nat)
    requires fields == CONFIG_LAYOUT && rawDataRate < 4 && rawGain < 4
    requires s1 == SetOutcome(fields, "CCM", raw, BoolToInt(!singleShot), None, None, true)
    requires x1 == if s1.Ok? then s1.value else raw
    requires s2 == SetOutcome(fields, "RDY", x1, BoolToInt(singleShot), None, None, true)
    requires x2 == if s2.Ok? then s2.value else x1
    requires s3 == SetOutcome(fields, "SampleRate", x2, rawDataRate, None, None, true)
    requires x3 == if s3.Ok? then s3.value else x2
    requires s4 == SetOutcome(fields, "PGA", x3, rawGain, None, None, true)
    requires x4 == if s4.Ok? then s4.value else x3
    ensures s1.Ok? && s2.Ok? && s3.Ok? && s4.Ok?
    ensures x4 == ConfigByte(raw, singleShot, rawDataRate, rawGain)
  {
    ConfigLayoutLookup();
    ConfigSetOutcome(fields, raw, "CCM", CCM, BoolToInt(!singleShot));
    ConfigSetOutcome(fields, x1, "RDY", RDY, BoolToInt(singleShot));
    ConfigSetOutcome(fields, x2, "SampleRate", SAMPLE_RATE, rawDataRate);
    ConfigSetOutcome(fields, x3, "PGA", PGA, rawGain);
    EncodeFields(raw, singleShot, rawDataRate, rawGain);
  }

  /** The field values after the four successive set_field_value calls of
      adc_properties_to_raw_config. */
  lemma EncodeFieldBits(x0: nat, x1: nat, x2: nat, x3: nat, x4: nat, singleShot: bool, rawDataRate: nat, rawGain: nat)
    requires x0 < 256 && rawDataRate < 4 && rawGain < 4
    requires x1 == Insert(x0, CCM, BoolToInt(!singleShot))
    requires x2 == Insert(x1, RDY, BoolToInt(singleShot))
    requires x3 == Insert(x2, SAMPLE_RATE, rawDataRate)
    requires x4 == Insert(x3, PGA, rawGain)
    ensures x4 < 256
    ensures FieldBits(x4, PGA) == rawGain && FieldBits(x4, SAMPLE_RATE) == rawDataRate
    ensures FieldBits(x4, RDY) == BoolToInt(singleShot) && FieldBits(x4, CCM) == BoolToInt(!singleShot)
    ensures FieldBits(x4, CH) == FieldBits(x0, CH)
  {
    assert CCM.Width() == 1 && RDY.Width() == 1 && SAMPLE_RATE.Width() == 2 && PGA.Width() == 2;
    assert Pow2(1) == 2 && Pow2(2) == 4;
    WriteByteField(x0, CCM, BoolToInt(!singleShot));
    WriteByteField(x1, RDY, BoolToInt(singleShot));
    WriteByteField(x2, SAMPLE_RATE, rawDataRate);
    WriteByteField(x3, PGA, rawGain);
    assert Disjoint(CCM, RDY) && Disjoint(CCM, CH) && Disjoint(RDY, CH);
    assert Disjoint(SAMPLE_RATE, CH) && Disjoint(SAMPLE_RATE, RDY) && Disjoint(SAMPLE_RATE, CCM);
    assert Disjoint(PGA, CH) && Disjoint(PGA, RDY) && Disjoint(PGA, CCM) && Disjoint(PGA, SAMPLE_RATE);
  }

  /** The four successive set_field_value calls of adc_properties_to_raw_config
      produce ConfigByte. */
  lemma EncodeFields(read: Byte, singleShot: bool, rawDataRate: nat, rawGain: nat)
    requires rawDataRate < 4 && rawGain < 4
    ensures Insert(Insert(Insert(Insert(read, CCM, BoolToInt(!singleShot)), RDY, BoolToInt(singleShot)),
                          SAMPLE_RATE, rawDataRate), PGA, rawGain)
         == ConfigByte(read, singleShot, rawDataRate, rawGain)
  {
    var x1 := Insert(read, CCM, BoolToInt(!singleShot));
    var x2 := Insert(x1, RDY, BoolToInt(singleShot));
    var x3 := Insert(x2, SAMPLE_RATE, rawDataRate);
    var x4 := Insert(x3, PGA, rawGain);
    EncodeFieldBits(read, x1, x2, x3, x4, singleShot, rawDataRate, rawGain);
    FieldsOfByte(x4);
    FieldsOfByte(read);
    ByteFromFields(x4);
  }

  // ---------------------------------------------------------------------
  // Data ready and samples

  /** The data_ready property: the decoded flag in single-shot mode or at
      rate 3 (18 bit); in continuous mode at a lower rate always true,
      because the device was observed not to update RDY there. */
  function ReportedReady(p: AdcProps): (ready: bool)
    ensures p.dataReady ==> ready
    ensures ready <==> p.dataReady || (!p.singleShotMode && p.rawDataRate != 3)
  {
    if p.singleShotMode then p.dataReady
    else if p.rawDataRate == 3 then p.dataReady
    else true
  }

  /** In terms of the configuration byte: ready when RDY is clear, or when
      CCM is set and the rate is below 3, whatever RDY says. */
  lemma ReadyFromConfigByte(raw: Byte)
    ensures ReportedReady(DecodeConfig(raw)) <==> raw < 128 || (raw / 16 % 2 == 1 && raw / 4 % 4 != 3)
  {
  }

  /** signed 8-bit ('b') */
  function Signed8(b: Byte): int
  {
    if b < 128 then b else b - 256
  }

  /** signed 16-bit big-endian ('h' as the driver unpacks it) */
  function Signed16(hi: Byte, lo: Byte): int
  {
    var u := 256 * (hi as int) + lo;
    if u < 32768 then u else u - 65536
  }

  /** The sample part of get_raw_value: two bytes below rate 3, three bytes
      with a signed first byte at rate 3. The result is the two's-complement
      reading of the 16 or 24 bits: the unique number in range that is
      congruent to the unsigned bytes. */
  function DecodeSample(data: seq<Byte>, rawDataRate: nat): (v: int)
    requires |data| >= 3
    ensures rawDataRate < 3 ==> -32768 <= v < 32768 && v % 65536 == 256 * (data[0] as int) + data[1]
    ensures rawDataRate >= 3 ==>
              -8388608 <= v < 8388608 && v % 16777216 == 65536 * (data[0] as int) + 256 * (data[1] as int) + data[2]
  {
    if rawDataRate < 3 then
      var v := Signed16(data[0], data[1]);
      DivModUnique(v, 65536, if v < 0 then -1 else 0, 256 * (data[0] as int) + data[1]);
      v
    else
      var v := 65536 * Signed8(data[0]) + 256 * (data[1] as int) + data[2];
      DivModUnique(v, 16777216, if v < 0 then -1 else 0, 65536 * (data[0] as int) + 256 * (data[1] as int) + data[2]);
      v
  }

  lemma SampleExamples()
    ensures DecodeSample([0x7F, 0xFF, 0], 0) == 32767
    ensures DecodeSample([0x80, 0x00, 0], 1) == -32768
    ensures DecodeSample([0xFF, 0xFF, 0xFF], 3) == -1
    ensures DecodeSample([0x00, 0x01, 0x00], 3) == 256
  {
  }

  /** The bytes the device sends for a sample v of the configured resolution:
      big-endian two's complement, 2 bytes below rate 3, 3 bytes at rate 3
      (the first byte sign-extends the 18-bit value). */
  function EncodeSample(v: int, rawDataRate: nat): seq<Byte>
    requires rawDataRate < 4
    requires -(Pow2(GetResolution(rawDataRate) - 1) as int) <= v < Pow2(GetResolution(rawDataRate) - 1)
  {
    SampleLimits(rawDataRate);
    if rawDataRate < 3 then
      var u := if v < 0 then v + 65536 else v;
      [u / 256, u % 256]
    else
      var u := if v < 0 then v + 16777216 else v;
      [u / 65536, u / 256 % 256, u % 256]
  }

  lemma SampleLimits(rawDataRate: nat)
    requires rawDataRate < 4
    ensures Pow2(GetResolution(rawDataRate) - 1) <= 131072
    ensures rawDataRate < 3 ==> Pow2(GetResolution(rawDataRate) - 1) <= 32768
  {
    assert Pow2(11) == 2048 && Pow2(13) == 8192 && Pow2(15) == 32768 && Pow2(17) == 131072;
  }

  /** Every sample of the configured resolution is recovered from the bytes
      the device sends for it, whatever follows them in the buffer. */
  lemma SampleRoundTrip(v: int, rawDataRate: nat, rest: seq<Byte>)
    requires rawDataRate < 4
    requires -(Pow2(GetResolution(rawDataRate) - 1) as int) <= v < Pow2(GetResolution(rawDataRate) - 1)
    requires |EncodeSample(v, rawDataRate)| + |rest| >= 3
    ensures DecodeSample(EncodeSample(v, rawDataRate) + rest, rawDataRate) == v
  {
    SampleLimits(rawDataRate);
    var data := EncodeSample(v, rawDataRate) + rest;
    if rawDataRate < 3 {
      var u := if v < 0 then v + 65536 else v;
      assert data[0] == u / 256 && data[1] == u % 256;
      TwoByteSample(v, data[0], data[1]);
    } else {
      var u := if v < 0 then v + 16777216 else v;
      assert data[0] == u / 65536 && data[1] == u / 256 % 256 && data[2] == u % 256;
      ThreeByteSample(v, data[0], data[1], data[2]);
    }
  }

  /** The two big-endian bytes of a 16-bit two's-complement value read back as it. */
  lemma TwoByteSample(v: int, hi: Byte, lo: Byte)
    requires -32768 <= v < 32768
    requires var u := if v < 0 then v + 65536 else v; hi == u / 256 && lo == u % 256
    ensures Signed16(hi, lo) == v
  {
    var u := if v < 0 then v + 65536 else v;
    assert 256 * (hi as int) + lo == u;
  }

  /** The three big-endian bytes of a 24-bit two's-complement value read back
      as it, with the first byte signed. */
  lemma ThreeByteSample(v: int, b0: Byte, b1: Byte, b2: Byte)
    requires -8388608 <= v < 8388608
    requires var u := if v < 0 then v + 16777216 else v;
             b0 == u / 65536 && b1 == u / 256 % 256 && b2 == u % 256
    ensures 65536 * Signed8(b0) + 256 * (b1 as int) + b2 == v
  {
    var u := if v < 0 then v + 16777216 else v;
    var q := u / 256;
    assert u == 256 * q + u % 256;
    assert q == 256 * (q / 256) + q % 256;
    DivModUnique(u, 65536, q / 256, 256 * (q % 256) + u % 256);
    assert 65536 * (b0 as int) + 256 * (b1 as int) + b2 == u;
  }

  /** When the first byte sign-extends an 18-bit value (0x00, 0x01, 0xFE or
      0xFF), the 3-byte decode lies in the 18-bit range. */
  lemma EighteenBitRange(data: seq<Byte>)
    requires |data| >= 3 && data[0] in {0x00, 0x01, 0xFE, 0xFF}
    ensures -131072 <= DecodeSample(data, 3) < 131072
  {
  }

  /** What one pull of the iterator yields: nothing in single-shot mode, the
      sample (None when not ready) in continuous mode. */
  datatype Pulled = NotContinuous | Reading(sample: Option<int>)

  /** The driver for one MCP3421: the bit-field store over the configuration
      layout, the 4-byte receive buffer and the runtime state. */
  class Mcp3421 {
    const bitFields: BitFields
    const buf4: array<Byte>
    var dataReady: bool
    var singleShotMode: bool
    var currRawGain: nat
    var currRawDataRate: nat

    ghost predicate Valid()
      reads this, bitFields
    {
      bitFields.fieldsInfo == CONFIG_LAYOUT && bitFields.Valid() && buf4.Length == 4
      && currRawGain < 4 && currRawDataRate < 4
    }

    function Props(): AdcProps
      reads this
    {
      AdcProps(dataReady, singleShotMode, currRawGain, currRawDataRate)
    }

    /** __init__ without the bus: the device's answer is passed in, and its
        configuration byte becomes the initial state. */
    constructor (response: seq<Byte>)
      requires |response| == 4
      ensures Valid() && fresh(bitFields) && fresh(buf4)
      ensures buf4[..] == response && Props() == DecodeConfig(response[3])
      ensures bitFields.sourceVal == response[3] && bitFields.activeFieldName == "SampleRate"
      ensures bitFields.idx == 0
    {
      bitFields := new BitFields(CONFIG_LAYOUT);
      buf4 := new Byte[4](_ => 0);
      dataReady := false;
      singleShotMode := false;
      currRawGain := 0;
      currRawDataRate := 0;
      new;
      var rawCfg := GetRawConfig(response);
      RawConfigToAdcProperties(rawCfg);
    }

    /** get_raw_config: the 4 bytes read from the device land in buf4, and the
        last of them is the configuration byte. */
    method GetRawConfig(response: seq<Byte>) returns (cfg: Byte)
      requires Valid() && |response| == 4
      modifies buf4
      ensures buf4[..] == response && cfg == response[3]
    {
      buf4[0], buf4[1], buf4[2], buf4[3] := response[0], response[1], response[2], response[3];
      cfg := buf4[buf4.Length - 1];
    }

    /** raw_config_to_adc_properties: the byte becomes the codec's source and
        RDY, CCM, PGA and SampleRate are read in turn; the four properties
        are stored once all four reads are done. */
    method RawConfigToAdcProperties(rawConfig: nat)
      requires Valid()
      modifies this, bitFields
      ensures Valid() && Props() == DecodeConfig(rawConfig)
      ensures bitFields.sourceVal == rawConfig && bitFields.activeFieldName == "SampleRate"
      ensures bitFields.idx == old(bitFields.idx)
    {
      bitFields.SetSource(rawConfig);
      bitFields.SetFieldName("RDY");
      var rdy := bitFields.GetFieldValue(false);
      bitFields.SetFieldName("CCM");
      var ccm := bitFields.GetFieldValue(false);
      bitFields.SetFieldName("PGA");
      var pga := bitFields.GetFieldValue(false);
      bitFields.SetFieldName("SampleRate");
      var rate := bitFields.GetFieldValue(false);
      ConfigReads(bitFields.fieldsInfo, rawConfig, rdy, ccm, pga, rate);
      var p := AdcProps(!rdy.value.b, !ccm.value.b, pga.value.n, rate.value.n);
      dataReady, singleShotMode, currRawGain, currRawDataRate := p.dataReady, p.singleShotMode, p.rawGain, p.rawDataRate;
      assert Props() == p;
    }

    /** adc_properties_to_raw_config: reads the configuration byte again and
        writes the mode, the trigger, the sample rate and the gain into it. */
    method AdcPropertiesToRawConfig(response: seq<Byte>) returns (cfg: nat)
      requires Valid() && |response| == 4
      modifies bitFields, buf4
      ensures Valid() && buf4[..] == response
      ensures cfg == ConfigByte(response[3], singleShotMode, currRawDataRate, currRawGain)
      ensures bitFields.sourceVal == cfg && bitFields.activeFieldName == "PGA"
      ensures bitFields.idx == old(bitFields.idx)
    {
      var raw := GetRawConfig(response);
      bitFields.SetSource(raw);
      bitFields.SetFieldName("CCM");
      var setCcm := bitFields.SetFieldValue(BoolToInt(!singleShotMode), None, None, true);
      ghost var x1 := bitFields.sourceVal;
      bitFields.SetFieldName("RDY");
      var setRdy := bitFields.SetFieldValue(BoolToInt(singleShotMode), None, None, true);
      ghost var x2 := bitFields.sourceVal;
      bitFields.SetFieldName("SampleRate");
      var setRate := bitFields.SetFieldValue(currRawDataRate, None, None, true);
      ghost var x3 := bitFields.sourceVal;
      bitFields.SetFieldName("PGA");
      var setGain := bitFields.SetFieldValue(currRawGain, None, None, true);
      ConfigWrites(bitFields.fieldsInfo, raw, singleShotMode, currRawDataRate, currRawGain,
                   setCcm, x1, setRdy, x2, setRate, x3, setGain, bitFields.sourceVal);
      cfg := bitFields.sourceVal;
    }

    /** The single_shot_mode setter of the ADC base class. */
    method SetSingleShotMode(value: bool)
      requires Valid()
      modifies this
      ensures Valid() && Props() == old(Props()).(singleShotMode := value)
    {
      singleShotMode := value;
    }

    /** The current_raw_gain setter of the ADC base class, guarded by check_gain_raw. */
    method SetCurrentRawGain(value: int) returns (r: Result<int>)
      requires Valid()
      modifies this
      ensures Valid() && r == CheckGainRaw(value)
      ensures r.Ok? ==> Props() == old(Props()).(rawGain := r.value)
      ensures r.Err? ==> Props() == old(Props())
    {
      r := CheckGainRaw(value);
      if r.Ok? {
        currRawGain := r.value;
      }
    }

    /** The current_sample_rate setter of the ADC base class, guarded by check_data_rate_raw. */
    method SetCurrentSampleRate(value: int) returns (r: Result<int>)
      requires Valid()
      modifies this
      ensures Valid() && r == CheckDataRateRaw(value)
      ensures r.Ok? ==> Props() == old(Props()).(rawDataRate := r.value)
      ensures r.Err? ==> Props() == old(Props())
    {
      r := CheckDataRateRaw(value);
      if r.Ok? {
        currRawDataRate := r.value;
      }
    }

    /** get_conversion_cycle_time, with sample_rate the real rate of the current raw rate. */
    function GetConversionCycleTime(): (t: nat)
      reads this, bitFields
      requires Valid()
      ensures t == [4167, 16667, 66667, 266667][currRawDataRate]
    {
      ConversionTimeTable();
      ConversionTimeUs(SampleRateQuarterHz(currRawDataRate).value)
    }

    /** get_raw_value: refreshes the state from the device's answer and, when
        data is ready, decodes the sample from the leading bytes. */
    method GetRawValue(response: seq<Byte>) returns (r: Option<int>)
      requires Valid() && |response| == 4
      modifies this, bitFields, buf4
      ensures Valid() && buf4[..] == response && Props() == DecodeConfig(response[3])
      ensures r == if ReportedReady(Props()) then Some(DecodeSample(response, currRawDataRate)) else None
      ensures bitFields.sourceVal == response[3] && bitFields.activeFieldName == "SampleRate"
      ensures bitFields.idx == old(bitFields.idx)
    {
      var cfg := GetRawConfig(response);
      RawConfigToAdcProperties(cfg);
      if ReportedReady(Props()) {
        if currRawDataRate < 3 {
          return Some(Signed16(buf4[0], buf4[1]));
        }
        var b0, b1, b2 := Signed8(buf4[0]), buf4[1], buf4[2];
        return Some(65536 * b0 + 256 * b1 + b2);
      }
      return None;
    }

    /** __next__: a reading only in continuous mode. */
    method Next(response: seq<Byte>) returns (r: Pulled)
      requires Valid() && |response| == 4
      modifies this, bitFields, buf4
      ensures Valid()
      ensures old(singleShotMode) ==> r == NotContinuous && Props() == old(Props()) && buf4[..] == old(buf4[..])
      ensures old(singleShotMode) ==> unchanged(bitFields)
      ensures !old(singleShotMode) ==> buf4[..] == response
      ensures !old(singleShotMode) ==>
                bitFields.sourceVal == response[3] && bitFields.activeFieldName == "SampleRate"
      ensures bitFields.idx == old(bitFields.idx)
      ensures !old(singleShotMode) ==>
                var p := DecodeConfig(response[3]);
                Props() == p && r == Reading(if ReportedReady(p) then Some(DecodeSample(response, p.rawDataRate)) else None)
    {
      if !singleShotMode {
        var sample := GetRawValue(response);
        return Reading(sample);
      }
      return NotContinuous;
    }
  }

  /** An example: a device answers with configuration 0x9C (RDY and CCM
      set: continuous, 18 bit, gain 1, stale data); the driver then selects
      single-shot mode, 16 bit and gain 2 and encodes 0x89 (RDY set to start
      a conversion, CCM clear). */
  method Answer9CScenario()
  {
    var answer: seq<Byte> := [0, 0, 0, 0x9C];
    var adc := new Mcp3421(answer);
    assert !adc.dataReady && !adc.singleShotMode && adc.currRawDataRate == 3 && adc.currRawGain == 0;
    adc.SetSingleShotMode(true);
    var rateSet := adc.SetCurrentSampleRate(2);
    var gainSet := adc.SetCurrentRawGain(1);
    var cfg := adc.AdcPropertiesToRawConfig(answer);
    assert cfg == 0x89;
  }
}
