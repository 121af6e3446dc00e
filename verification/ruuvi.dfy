/** The Ruuvi manufacturer-data decoder (pkg/ruuviparse): two fixed-length
    big-endian layouts, RAWv1 (format byte 3, 14 bytes) and RAWv2 (format
    byte 5, 24 bytes), scaled to physical units. Scaled values are exact
    reals where the Go code computes float32. */
module Ruuvi {
  import opened Wrappers
  import opened Wire

  datatype DataFormat = Unspecified | RAWv1 | RAWv2

  type MacBytes = s: seq<byte> | |s| == 6 witness [0, 0, 0, 0, 0, 0]

  datatype Acceleration = Acceleration(x: Option<real>, y: Option<real>, z: Option<real>)

  /** A decoded payload; every `Option` field is absent independently. */
  datatype RuuviData = RuuviData(
    dataFormat: DataFormat,
    temperature: Option<real>,        // C
    humidity: Option<real>,           // RH %
    pressure: Option<real>,           // hPa
    acceleration: Acceleration,       // G
    batteryVoltage: Option<real>,     // V
    txPower: Option<real>,            // dBm
    movementCounter: Option<nat>,
    measurementSeqNum: Option<nat>,
    mac: Option<MacBytes>)

  datatype ParseError =
    | EmptyInput
    | UnsupportedFormat(got: byte)
    | WrongLength(expected: nat)
    | InFormat(format: DataFormat, cause: ParseError)

  // ---------------------------------------------------------------------
  // RAWv1

  /** The Go struct `binary.Read` fills for RAWv1, field by field. */
  datatype RawV1 = RawV1(
    dataFormat: byte,
    humidity: byte,
    temperature: byte,
    temperatureFraction: byte,
    pressure: uint16,
    accelX: int16,
    accelY: int16,
    accelZ: int16,
    batteryVoltage: uint16)

  /** `binary.Size` of the RAWv1 struct: four bytes and five 16-bit words. */
  const RAWv1Size: nat := 4 * 1 + 5 * 2

  function ReadRawV1(data: seq<byte>): RawV1
    requires |data| == RAWv1Size
  {
    RawV1(data[0], data[1], data[2], data[3],
          Uint16BE(data[4], data[5]),
          Int16BE(data[6], data[7]), Int16BE(data[8], data[9]), Int16BE(data[10], data[11]),
          Uint16BE(data[12], data[13]))
  }

  /** The wire image of a RAWv1 struct: the layout read in the other direction. */
  function EncodeRawV1(raw: RawV1): (data: seq<byte>)
    ensures |data| == RAWv1Size
  {
    [raw.dataFormat, raw.humidity, raw.temperature, raw.temperatureFraction]
      + PutUint16BE(raw.pressure)
      + PutInt16BE(raw.accelX) + PutInt16BE(raw.accelY) + PutInt16BE(raw.accelZ)
      + PutUint16BE(raw.batteryVoltage)
  }

  lemma RawV1LayoutRoundTrip(raw: RawV1)
    ensures ReadRawV1(EncodeRawV1(raw)) == raw
  {
  }

  lemma {:induction false} RawV1BytesRoundTrip(data: seq<byte>)
    requires |data| == RAWv1Size
    ensures EncodeRawV1(ReadRawV1(data)) == data
  {
    Uint16RoundTrip(data[4], data[5]);
    Int16RoundTrip(data[6], data[7]);
    Int16RoundTrip(data[8], data[9]);
    Int16RoundTrip(data[10], data[11]);
    Uint16RoundTrip(data[12], data[13]);
  }

  /** Signed-magnitude temperature: bit 7 is the sign, bits 6..0 the whole
      degrees; the fraction byte holds hundredths and is valid only below 100. */
  function TemperatureV1(t: byte, fraction: byte): Option<real> {
    if fraction < 100 then
      var magnitude := (t % 0x80) as real + fraction as real / 100.0;
      Some(if t / 0x80 == 1 then -magnitude else magnitude)
    else
      None
  }

  function ScaleV1(raw: RawV1): RuuviData {
    RuuviData(
      RAWv1,
      TemperatureV1(raw.temperature, raw.temperatureFraction),
      Some(raw.humidity as real / 2.0),
      Some((raw.pressure as real + 50000.0) / 100.0),
      Acceleration(Some(raw.accelX as real / 1000.0),
                   Some(raw.accelY as real / 1000.0),
                   Some(raw.accelZ as real / 1000.0)),
      Some(raw.batteryVoltage as real / 1000.0),
      None, None, None, None)
  }

  /** parseRAWv1: exact length, then the fixed layout. The format byte is
      read but not checked here. */
  function ParseRAWv1(data: seq<byte>): (r: Result<RuuviData, ParseError>)
    ensures r.Success? <==> |data| == RAWv1Size
    ensures r.Failure? ==> r.error == WrongLength(RAWv1Size)
    ensures r.Success? ==> r.value.dataFormat == RAWv1
    ensures r.Success? ==>
      && r.value.txPower.None? && r.value.movementCounter.None?
      && r.value.measurementSeqNum.None? && r.value.mac.None?
  {
    if |data| != RAWv1Size then Failure(WrongLength(RAWv1Size))
    else Success(ScaleV1(ReadRawV1(data)))
  }

  /** What RAWv1 yields for the struct a payload encodes: temperature is
      present exactly when the fraction is below 100, and every other
      RAWv1 field is always present. */
  lemma RAWv1Fields(raw: RawV1)
    ensures ParseRAWv1(EncodeRawV1(raw)).Success?
    ensures var d := ParseRAWv1(EncodeRawV1(raw)).value;
      && (d.temperature.Some? <==> raw.temperatureFraction < 100)
      && (d.temperature.Some? && raw.temperature < 0x80 ==>
            d.temperature.value == raw.temperature as real + raw.temperatureFraction as real / 100.0)
      && (d.temperature.Some? && raw.temperature >= 0x80 ==>
            d.temperature.value == -((raw.temperature - 0x80) as real + raw.temperatureFraction as real / 100.0))
      && d.humidity == Some(raw.humidity as real / 2.0)
      && d.pressure == Some((raw.pressure as real + 50000.0) / 100.0)
      && d.acceleration.x == Some(raw.accelX as real / 1000.0)
      && d.acceleration.y == Some(raw.accelY as real / 1000.0)
      && d.acceleration.z == Some(raw.accelZ as real / 1000.0)
      && d.batteryVoltage == Some(raw.batteryVoltage as real / 1000.0)
  {
    RawV1LayoutRoundTrip(raw);
  }

  // ---------------------------------------------------------------------
  // RAWv2

  /** The Go struct `binary.Read` fills for RAWv2. */
  datatype RawV2 = RawV2(
    dataFormat: byte,
    temperature: int16,
    humidity: uint16,
    pressure: uint16,
    accelX: int16,
    accelY: int16,
    accelZ: int16,
    powerInfo: uint16,
    movementCounter: byte,
    measurementSeqNum: uint16,
    mac: MacBytes)

  /** `binary.Size` of the RAWv2 struct. */
  const RAWv2Size: nat := 1 + 7 * 2 + 1 + 2 + 6

  function ReadRawV2(data: seq<byte>): RawV2
    requires |data| == RAWv2Size
  {
    RawV2(data[0],
          Int16BE(data[1], data[2]),
          Uint16BE(data[3], data[4]),
          Uint16BE(data[5], data[6]),
          Int16BE(data[7], data[8]), Int16BE(data[9], data[10]), Int16BE(data[11], data[12]),
          Uint16BE(data[13], data[14]),
          data[15],
          Uint16BE(data[16], data[17]),
          data[18..24])
  }

  function EncodeRawV2(raw: RawV2): (data: seq<byte>)
    ensures |data| == RAWv2Size
  {
    [raw.dataFormat]
      + PutInt16BE(raw.temperature)
      + PutUint16BE(raw.humidity)
      + PutUint16BE(raw.pressure)
      + PutInt16BE(raw.accelX) + PutInt16BE(raw.accelY) + PutInt16BE(raw.accelZ)
      + PutUint16BE(raw.powerInfo)
      + [raw.movementCounter]
      + PutUint16BE(raw.measurementSeqNum)
      + raw.mac
  }

  lemma RawV2LayoutRoundTrip(raw: RawV2)
    ensures ReadRawV2(EncodeRawV2(raw)) == raw
  {
    var data := EncodeRawV2(raw);
    assert data[18..24] == raw.mac;
  }

  lemma {:induction false} RawV2BytesRoundTrip(data: seq<byte>)
    requires |data| == RAWv2Size
    ensures EncodeRawV2(ReadRawV2(data)) == data
  {
    Int16RoundTrip(data[1], data[2]);
    Uint16RoundTrip(data[3], data[4]);
    Uint16RoundTrip(data[5], data[6]);
    Int16RoundTrip(data[7], data[8]);
    Int16RoundTrip(data[9], data[10]);
    Int16RoundTrip(data[11], data[12]);
    Uint16RoundTrip(data[13], data[14]);
    Uint16RoundTrip(data[16], data[17]);
    assert data == data[..18] + data[18..24];
  }

  /** nilInvF32 and nilInvUint: absent exactly when the raw field holds
      its sentinel. */
  function NilInv<T>(invalid: int, current: int, v: T): (r: Option<T>)
    ensures r.None? <==> current == invalid
    ensures r.Some? ==> r.value == v
  {
    if current == invalid then None else Some(v)
  }

  const AllOnesMac: MacBytes := [0xFF, 0xFF, 0xFF, 0xFF, 0xFF, 0xFF]

  /** The power word: battery in bits 15..5 (`p >> 5`), tx power in bits 4..0 (`p & 0x1F`). */
  function BatteryBits(p: uint16): int { p / 0x20 }
  function TxPowerBits(p: uint16): int { p % 0x20 }

  function ScaleV2(raw: RawV2): RuuviData {
    var battery := BatteryBits(raw.powerInfo);
    var tx := TxPowerBits(raw.powerInfo);
    RuuviData(
      RAWv2,
      NilInv(-32768, raw.temperature, raw.temperature as real * 0.005),
      NilInv(65535, raw.humidity, raw.humidity as real * 0.0025),
      NilInv(65535, raw.pressure, (raw.pressure as real + 50000.0) / 100.0),
      Acceleration(NilInv(-32768, raw.accelX, raw.accelX as real / 1000.0),
                   NilInv(-32768, raw.accelY, raw.accelY as real / 1000.0),
                   NilInv(-32768, raw.accelZ, raw.accelZ as real / 1000.0)),
      NilInv(2047, battery, (battery as real + 1600.0) / 1000.0),
      NilInv(31, tx, tx as real * 2.0 - 40.0),
      NilInv(255, raw.movementCounter, raw.movementCounter),
      NilInv(65535, raw.measurementSeqNum, raw.measurementSeqNum),
      if raw.mac == AllOnesMac then None else Some(raw.mac))
  }

  /** parseRAWv2: exact length, then the fixed layout with per-field sentinels. */
  function ParseRAWv2(data: seq<byte>): (r: Result<RuuviData, ParseError>)
    ensures r.Success? <==> |data| == RAWv2Size
    ensures r.Failure? ==> r.error == WrongLength(RAWv2Size)
    ensures r.Success? ==> r.value.dataFormat == RAWv2
  {
    if |data| != RAWv2Size then Failure(WrongLength(RAWv2Size))
    else Success(ScaleV2(ReadRawV2(data)))
  }

  /** Each RAWv2 field of an encoded struct is absent exactly at its own
      sentinel and otherwise carries its scaled value; no field's absence
      depends on another field. */
  lemma RAWv2Sentinels(raw: RawV2)
    ensures ParseRAWv2(EncodeRawV2(raw)).Success?
    ensures var d := ParseRAWv2(EncodeRawV2(raw)).value;
      && (d.temperature.None? <==> raw.temperature == -32768)
      && (d.humidity.None? <==> raw.humidity == 65535)
      && (d.pressure.None? <==> raw.pressure == 65535)
      && (d.acceleration.x.None? <==> raw.accelX == -32768)
      && (d.acceleration.y.None? <==> raw.accelY == -32768)
      && (d.acceleration.z.None? <==> raw.accelZ == -32768)
      && (d.batteryVoltage.None? <==> raw.powerInfo >= 2047 * 32)
      && (d.txPower.None? <==> raw.powerInfo % 32 == 31)
      && (d.movementCounter.None? <==> raw.movementCounter == 255)
      && (d.measurementSeqNum.None? <==> raw.measurementSeqNum == 65535)
      && (d.mac.None? <==> forall i :: 0 <= i < 6 ==> raw.mac[i] == 0xFF)
  {
    RawV2LayoutRoundTrip(raw);
    if forall i :: 0 <= i < 6 ==> raw.mac[i] == 0xFF {
      assert raw.mac == AllOnesMac;
    }
  }

  /** The values RAWv2 yields for the fields that are present. */
  lemma RAWv2Values(raw: RawV2)
    ensures ParseRAWv2(EncodeRawV2(raw)).Success?
    ensures var d := ParseRAWv2(EncodeRawV2(raw)).value;
      && (d.temperature.Some? ==> d.temperature.value == raw.temperature as real * 5.0 / 1000.0)
      && (d.humidity.Some? ==> d.humidity.value == raw.humidity as real * 25.0 / 10000.0)
      && (d.pressure.Some? ==> d.pressure.value == (raw.pressure as real + 50000.0) / 100.0)
      && (d.acceleration.x.Some? ==> d.acceleration.x.value == raw.accelX as real / 1000.0)
      && (d.acceleration.y.Some? ==> d.acceleration.y.value == raw.accelY as real / 1000.0)
      && (d.acceleration.z.Some? ==> d.acceleration.z.value == raw.accelZ as real / 1000.0)
      && (d.movementCounter.Some? ==> d.movementCounter.value == raw.movementCounter)
      && (d.measurementSeqNum.Some? ==> d.measurementSeqNum.value == raw.measurementSeqNum)
      && (d.mac.Some? ==> d.mac.value == raw.mac)
  {
    RawV2LayoutRoundTrip(raw);
  }

  /** The power word: the battery and tx fields are the high 11 and low 5
      bits, and they scale to millivolts over 1600 and 2 dBm steps over -40. */
  lemma RAWv2PowerWord(raw: RawV2, battery: nat, tx: nat)
    requires tx < 32 && raw.powerInfo == battery * 32 + tx
    ensures var d := ParseRAWv2(EncodeRawV2(raw)).value;
      && (d.batteryVoltage.Some? <==> battery != 2047)
      && (d.batteryVoltage.Some? ==> d.batteryVoltage.value == (battery as real + 1600.0) / 1000.0)
      && (d.txPower.Some? <==> tx != 31)
      && (d.txPower.Some? ==> d.txPower.value == 2.0 * tx as real - 40.0)
  {
    RawV2LayoutRoundTrip(raw);
    assert BatteryBits(raw.powerInfo) == battery && TxPowerBits(raw.powerInfo) == tx;
  }

  // ---------------------------------------------------------------------
  // Dispatch on the format byte

  /** `Parse` as written: the RAWv1 branch computes a wrapped error and then
      returns a second, unwrapped `parseRAWv1(data)`. */
  function ParseAsWritten(data: seq<byte>): (r: Result<RuuviData, ParseError>)
    ensures |data| > 0 && data[0] == 3 ==> r == ParseRAWv1(data)
    ensures |data| > 0 && data[0] == 5 ==>
      r == (if |data| == RAWv2Size then ParseRAWv2(data) else Failure(InFormat(RAWv2, WrongLength(RAWv2Size))))
  {
    if |data| < 1 then Failure(EmptyInput)
    else if data[0] == 3 then ParseRAWv1(data)
    else if data[0] == 5 then
      match ParseRAWv2(data)
      case Success(rd) => Success(rd)
      case Failure(e) => Failure(InFormat(RAWv2, e))
    else Failure(UnsupportedFormat(data[0]))
  }

  /** The RAWv1 length error leaves `Parse` without the format context that
      the RAWv2 branch adds. */
  lemma ParseAsWrittenDropsRAWv1Context()
    ensures ParseAsWritten([3, 0, 0]) == Failure(WrongLength(RAWv1Size))
    ensures Parse([3, 0, 0]) == Failure(InFormat(RAWv1, WrongLength(RAWv1Size)))
  {
  }

  /** Parse: empty input and unknown format bytes are errors; formats 3 and 5
      need their exact struct size; errors name the format they came from. */
  function Parse(data: seq<byte>): (r: Result<RuuviData, ParseError>)
    ensures |data| == 0 ==> r == Failure(EmptyInput)
    ensures |data| > 0 && data[0] != 3 && data[0] != 5 ==> r == Failure(UnsupportedFormat(data[0]))
    ensures r.Success? <==>
      |data| > 0 && ((data[0] == 3 && |data| == RAWv1Size) || (data[0] == 5 && |data| == RAWv2Size))
    ensures r.Success? ==> r.value.dataFormat == (if data[0] == 3 then RAWv1 else RAWv2)
    ensures |data| > 0 && data[0] == 3 && |data| != RAWv1Size ==>
      r == Failure(InFormat(RAWv1, WrongLength(RAWv1Size)))
    ensures |data| > 0 && data[0] == 5 && |data| != RAWv2Size ==>
      r == Failure(InFormat(RAWv2, WrongLength(RAWv2Size)))
  {
    if |data| < 1 then Failure(EmptyInput)
    else if data[0] == 3 then
      match ParseRAWv1(data)
      case Success(rd) => Success(rd)
      case Failure(e) => Failure(InFormat(RAWv1, e))
    else if data[0] == 5 then
      match ParseRAWv2(data)
      case Success(rd) => Success(rd)
      case Failure(e) => Failure(InFormat(RAWv2, e))
    else Failure(UnsupportedFormat(data[0]))
  }

  /** The correction changes error values only: both versions succeed on the
      same inputs, with the same data. */
  lemma ParseAgreesWithAsWritten(data: seq<byte>)
    ensures Parse(data).Success? <==> ParseAsWritten(data).Success?
    ensures Parse(data).Success? ==> Parse(data) == ParseAsWritten(data)
  {
  }

  /** A well-formed RAWv2 payload is the encoding of the struct it decodes
      from, so the field lemmas above cover every payload `Parse` accepts. */
  lemma ParseRAWv2Covers(data: seq<byte>)
    requires |data| == RAWv2Size && data[0] == 5
    ensures Parse(data) == ParseRAWv2(EncodeRawV2(ReadRawV2(data)))
  {
    RawV2BytesRoundTrip(data);
  }

  lemma ParseRAWv1Covers(data: seq<byte>)
    requires |data| == RAWv1Size && data[0] == 3
    ensures Parse(data) == ParseRAWv1(EncodeRawV1(ReadRawV1(data)))
  {
    RawV1BytesRoundTrip(data);
  }

  // ---------------------------------------------------------------------
  // Vectors from the package tests

  lemma RejectsEmptyAndUnknownFormat()
    ensures Parse([]).Failure?
    ensures Parse([0x53, 0x7F, 0xFF]) == Failure(UnsupportedFormat(0x53))
  {
  }

  const ValidVectorRaw: RawV2 :=
    RawV2(5, 4860, 21396, 50044, 4, -4, 1036, 44086, 66, 205, [0xCB, 0xB8, 0x33, 0x4C, 0x88, 0x4F])

  lemma ValidVectorReads(data: seq<byte>)
    requires data == [0x05, 0x12, 0xFC, 0x53, 0x94, 0xC3, 0x7C, 0x00, 0x04, 0xFF, 0xFC, 0x04,
                      0x0C, 0xAC, 0x36, 0x42, 0x00, 0xCD, 0xCB, 0xB8, 0x33, 0x4C, 0x88, 0x4F]
    ensures |data| == RAWv2Size && ReadRawV2(data) == ValidVectorRaw
  {
    assert data[0] == 0x05 && data[1] == 0x12 && data[2] == 0xFC && data[3] == 0x53 && data[4] == 0x94;
    assert data[5] == 0xC3 && data[6] == 0x7C && data[7] == 0x00 && data[8] == 0x04 && data[9] == 0xFF;
    assert data[10] == 0xFC && data[11] == 0x04 && data[12] == 0x0C && data[13] == 0xAC && data[14] == 0x36;
    assert data[15] == 0x42 && data[16] == 0x00 && data[17] == 0xCD;
    assert data[18..24] == [0xCB, 0xB8, 0x33, 0x4C, 0x88, 0x4F];
  }

  const ValidVectorData: RuuviData :=
    RuuviData(RAWv2, Some(24.3), Some(53.49), Some(1000.44),
              Acceleration(Some(0.004), Some(-0.004), Some(1.036)),
              Some(2.977), Some(4.0), Some(66), Some(205),
              Some([0xCB, 0xB8, 0x33, 0x4C, 0x88, 0x4F]))

  lemma ValidVectorScales()
    ensures ScaleV2(ValidVectorRaw) == ValidVectorData
  {
    assert BatteryBits(44086) == 1377 && TxPowerBits(44086) == 22;
  }

  /** The "RAWv2 valid" vector: 24.3 C, 53.49 %, 1000.44 hPa, 4 dBm, 2.977 V,
      movement 66, sequence 205, MAC CB:B8:33:4C:88:4F. */
  lemma RAWv2ValidVector()
    ensures Parse([0x05, 0x12, 0xFC, 0x53, 0x94, 0xC3, 0x7C, 0x00, 0x04, 0xFF, 0xFC, 0x04,
                   0x0C, 0xAC, 0x36, 0x42, 0x00, 0xCD, 0xCB, 0xB8, 0x33, 0x4C, 0x88, 0x4F])
      == Success(ValidVectorData)
  {
    var data: seq<byte> := [0x05, 0x12, 0xFC, 0x53, 0x94, 0xC3, 0x7C, 0x00, 0x04, 0xFF, 0xFC, 0x04,
                            0x0C, 0xAC, 0x36, 0x42, 0x00, 0xCD, 0xCB, 0xB8, 0x33, 0x4C, 0x88, 0x4F];
    ValidVectorReads(data);
    ValidVectorScales();
    assert ParseRAWv2(data) == Success(ValidVectorData);
  }

  lemma RAWv2InvalidVector()
    ensures Parse([0x05, 0x80, 0x00, 0xFF, 0xFF, 0xFF, 0xFF, 0x80, 0x00, 0x80, 0x00, 0x80,
                   0x00, 0xFF, 0xFF, 0xFF, 0xFF, 0xFF, 0xFF, 0xFF, 0xFF, 0xFF, 0xFF, 0xFF])
      == Success(RuuviData(
           RAWv2, None, None, None, Acceleration(None, None, None),
           None, None, None, None, None))
  {
  }

  lemma RAWv1ValidVector()
    ensures Parse([0x03, 0x29, 0x1A, 0x1E, 0xCE, 0x1E, 0xFC, 0x18, 0xF9, 0x42, 0x02, 0xCA, 0x0B, 0x53])
      == Success(RuuviData(
           RAWv1, Some(26.3), Some(20.5), Some(1027.66),
           Acceleration(Some(-1.0), Some(-1.726), Some(0.714)),
           Some(2.899), None, None, None, None))
  {
  }

  lemma RAWv1MinimumVector()
    ensures Parse([0x03, 0x00, 0xFF, 0x63, 0x00, 0x00, 0x80, 0x01, 0x80, 0x01, 0x80, 0x01, 0x00, 0x00])
      == Success(RuuviData(
           RAWv1, Some(-127.99), Some(0.0), Some(500.0),
           Acceleration(Some(-32.767), Some(-32.767), Some(-32.767)),
           Some(0.0), None, None, None, None))
  {
    var data: seq<byte> := [0x03, 0x00, 0xFF, 0x63, 0x00, 0x00, 0x80, 0x01, 0x80, 0x01, 0x80, 0x01, 0x00, 0x00];
    assert Int16BE(0x80, 0x01) == -32767;
    assert ReadRawV1(data) == RawV1(3, 0, 0xFF, 0x63, 0, -32767, -32767, -32767, 0);
    assert TemperatureV1(0xFF, 0x63) == Some(-127.99);
  }

  /** The "RAWv2 maximum" vector: every field one below its sentinel. */
  lemma RAWv2MaximumVector()
    ensures Parse([0x05, 0x7F, 0xFF, 0xFF, 0xFE, 0xFF, 0xFE, 0x7F, 0xFF, 0x7F, 0xFF, 0x7F,
                   0xFF, 0xFF, 0xDE, 0xFE, 0xFF, 0xFE, 0xCB, 0xB8, 0x33, 0x4C, 0x88, 0x4F])
      == Success(RuuviData(
           RAWv2, Some(163.835), Some(163.835), Some(1155.34),
           Acceleration(Some(32.767), Some(32.767), Some(32.767)),
           Some(3.646), Some(20.0), Some(254), Some(65534),
           Some([0xCB, 0xB8, 0x33, 0x4C, 0x88, 0x4F])))
  {
    var data: seq<byte> := [0x05, 0x7F, 0xFF, 0xFF, 0xFE, 0xFF, 0xFE, 0x7F, 0xFF, 0x7F, 0xFF, 0x7F,
                            0xFF, 0xFF, 0xDE, 0xFE, 0xFF, 0xFE, 0xCB, 0xB8, 0x33, 0x4C, 0x88, 0x4F];
    assert data[0] == 0x05 && data[1] == 0x7F && data[2] == 0xFF && data[3] == 0xFF && data[4] == 0xFE;
    assert data[5] == 0xFF && data[6] == 0xFE && data[7] == 0x7F && data[8] == 0xFF && data[9] == 0x7F;
    assert data[10] == 0xFF && data[11] == 0x7F && data[12] == 0xFF && data[13] == 0xFF && data[14] == 0xDE;
    assert data[15] == 0xFE && data[16] == 0xFF && data[17] == 0xFE;
    assert Int16BE(0x7F, 0xFF) == 32767 && Uint16BE(0xFF, 0xFE) == 65534 && Uint16BE(0xFF, 0xDE) == 65502;
    assert data[18..24] == [0xCB, 0xB8, 0x33, 0x4C, 0x88, 0x4F];
    assert ReadRawV2(data) == RawV2(5, 32767, 65534, 65534, 32767, 32767, 32767, 65502, 254, 65534,
                                    [0xCB, 0xB8, 0x33, 0x4C, 0x88, 0x4F]);
    assert BatteryBits(65502) == 2046 && TxPowerBits(65502) == 30;
  }

  /** The "RAWv2 minimum" vector: every field at its lowest valid value. */
  lemma RAWv2MinimumVector()
    ensures Parse([0x05, 0x80, 0x01, 0x00, 0x00, 0x00, 0x00, 0x80, 0x01, 0x80, 0x01, 0x80,
                   0x01, 0x00, 0x00, 0x00, 0x00, 0x00, 0xCB, 0xB8, 0x33, 0x4C, 0x88, 0x4F])
      == Success(RuuviData(
           RAWv2, Some(-163.835), Some(0.0), Some(500.0),
           Acceleration(Some(-32.767), Some(-32.767), Some(-32.767)),
           Some(1.6), Some(-40.0), Some(0), Some(0),
           Some([0xCB, 0xB8, 0x33, 0x4C, 0x88, 0x4F])))
  {
    var data: seq<byte> := [0x05, 0x80, 0x01, 0x00, 0x00, 0x00, 0x00, 0x80, 0x01, 0x80, 0x01, 0x80,
                            0x01, 0x00, 0x00, 0x00, 0x00, 0x00, 0xCB, 0xB8, 0x33, 0x4C, 0x88, 0x4F];
    assert data[0] == 0x05 && data[1] == 0x80 && data[2] == 0x01 && data[3] == 0x00 && data[4] == 0x00;
    assert data[5] == 0x00 && data[6] == 0x00 && data[7] == 0x80 && data[8] == 0x01 && data[9] == 0x80;
    assert data[10] == 0x01 && data[11] == 0x80 && data[12] == 0x01 && data[13] == 0x00 && data[14] == 0x00;
    assert data[15] == 0x00 && data[16] == 0x00 && data[17] == 0x00;
    assert Int16BE(0x80, 0x01) == -32767;
    assert data[18..24] == [0xCB, 0xB8, 0x33, 0x4C, 0x88, 0x4F];
    assert ReadRawV2(data) == RawV2(5, -32767, 0, 0, -32767, -32767, -32767, 0, 0, 0,
                                    [0xCB, 0xB8, 0x33, 0x4C, 0x88, 0x4F]);
  }

  /** The "RAWv1 maximum" vector. */
  lemma RAWv1MaximumVector()
    ensures Parse([0x03, 0xFF, 0x7F, 0x63, 0xFF, 0xFF, 0x7F, 0xFF, 0x7F, 0xFF, 0x7F, 0xFF, 0xFF, 0xFF])
      == Success(RuuviData(
           RAWv1, Some(127.99), Some(127.5), Some(1155.35),
           Acceleration(Some(32.767), Some(32.767), Some(32.767)),
           Some(65.535), None, None, None, None))
  {
    var data: seq<byte> := [0x03, 0xFF, 0x7F, 0x63, 0xFF, 0xFF, 0x7F, 0xFF, 0x7F, 0xFF, 0x7F, 0xFF, 0xFF, 0xFF];
    assert Int16BE(0x7F, 0xFF) == 32767 && Uint16BE(0xFF, 0xFF) == 65535;
    assert ReadRawV1(data) == RawV1(3, 0xFF, 0x7F, 0x63, 65535, 32767, 32767, 32767, 65535);
    assert TemperatureV1(0x7F, 0x63) == Some(127.99);
  }
}
