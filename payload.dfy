/**
 * Decoding of the manufacturer-specific data that an OMRON WxBeacon2 puts in
 * its BLE advertisements (wxbeacon2.go, parseIM and parseEP).
 *
 * Layout of the buffer (16-bit words are little-endian):
 *   0..1  company identifier (never read by the decoders)
 *   2     sequence number
 *   3..4  temperature, signed, hundredths of a degree
 *   5..6  relative humidity, hundredths of a percent
 *   7..8  ambient light, lux
 *   9..10 UV index, hundredths
 *   11..12 pressure, tenths of a hectopascal
 *   13..14 sound noise, hundredths of a decibel
 *   15..16 IM: acceleration X   EP: discomfort index, hundredths
 *   17..18 IM: acceleration Y   EP: heat-stroke index, hundredths
 *   19..20 IM: acceleration Z   EP: unused
 *   21    battery, (b + 100) / 100 volts
 *
 * Physical values are exact reals: the model does not round to float64.
 */
module Payload {

  /** Go `byte`. */
  type Byte = x: int | 0 <= x < 0x100

  /** Go `uint16`. */
  type Word = x: int | 0 <= x < 0x1_0000

  /** Go `int16`. */
  type Int16 = x: int | -0x8000 <= x < 0x8000

  /** binary.LittleEndian.Uint16: the first byte is the low half of the word. */
  function LittleEndianUint16(b: seq<Byte>): (w: Word)
    requires |b| >= 2
    ensures w % 0x100 == b[0] && w / 0x100 == b[1]
  {
    b[0] as int + 0x100 * b[1] as int
  }

  /** Go's conversion int16(w): the same sixteen bits read as two's complement. */
  function ToInt16(w: Word): (i: Int16)
    ensures (w - i) % 0x1_0000 == 0
    ensures i < 0 <==> w >= 0x8000
  {
    if w < 0x8000 then w else w - 0x1_0000
  }

  /** Go's conversion uint16(i): the two's-complement bit pattern of a signed word. */
  function FromInt16(i: Int16): (w: Word)
    ensures ToInt16(w) == i
  {
    if i < 0 then i + 0x1_0000 else i
  }

  /** The fields common to both reading variants (commonData in the source). */
  datatype CommonData = CommonData(
    rssi: int,
    deviceId: string,
    sequence: Byte,
    temp: real,
    humid: real,
    ambientLight: Word,
    uvIndex: real,
    pressure: real,
    soundNoise: real,
    vBattery: real)

  /** A decoded reading: WxIMData or WxEPData. */
  datatype WxData =
    | WxIMData(common: CommonData, accelerationX: Word, accelerationY: Word, accelerationZ: Word)
    | WxEPData(common: CommonData, disconfortIndex: real, heatStroke: real)

  /** The range every decoded reading stays in, whatever the bytes. */
  predicate InRange(c: CommonData)
  {
    && -327.68 <= c.temp <= 327.67
    && 0.0 <= c.humid <= 655.35
    && 0.0 <= c.uvIndex <= 655.35
    && 0.0 <= c.pressure <= 6553.5
    && 0.0 <= c.soundNoise <= 655.35
    && 1.0 <= c.vBattery <= 3.55
  }

  /** parseIM: decodes the motion variant. parseIM does no bounds check
      (wxbeacon2.go:86-106); a buffer shorter than 22 bytes makes it panic. */
  function ParseIM(deviceId: string, rssi: int, data: seq<Byte>): (r: WxData)
    requires |data| >= 22
    ensures r.WxIMData?
    ensures r.common.rssi == rssi && r.common.deviceId == deviceId
    ensures r.common.sequence == data[2]
    ensures InRange(r.common)
  {
    WxIMData(
      CommonData(
        rssi := rssi,
        deviceId := deviceId,
        sequence := data[2],
        temp := ToInt16(LittleEndianUint16(data[3..5])) as real / 100.0,
        humid := LittleEndianUint16(data[5..7]) as real / 100.0,
        ambientLight := LittleEndianUint16(data[7..9]),
        uvIndex := LittleEndianUint16(data[9..11]) as real / 100.0,
        pressure := LittleEndianUint16(data[11..13]) as real / 10.0,
        soundNoise := LittleEndianUint16(data[13..15]) as real / 100.0,
        vBattery := (data[21] as int + 100) as real / 100.0),
      accelerationX := LittleEndianUint16(data[15..17]),
      accelerationY := LittleEndianUint16(data[17..19]),
      accelerationZ := LittleEndianUint16(data[19..21]))
  }

  /** parseEP: decodes the environmental variant; bytes 19 and 20 are not read. */
  function ParseEP(deviceId: string, rssi: int, data: seq<Byte>): (r: WxData)
    requires |data| >= 22
    ensures r.WxEPData?
    ensures r.common.rssi == rssi && r.common.deviceId == deviceId
    ensures r.common.sequence == data[2]
    ensures InRange(r.common)
    ensures 0.0 <= r.disconfortIndex <= 655.35 && 0.0 <= r.heatStroke <= 655.35
  {
    WxEPData(
      CommonData(
        rssi := rssi,
        deviceId := deviceId,
        sequence := data[2],
        temp := ToInt16(LittleEndianUint16(data[3..5])) as real / 100.0,
        humid := LittleEndianUint16(data[5..7]) as real / 100.0,
        ambientLight := LittleEndianUint16(data[7..9]),
        uvIndex := LittleEndianUint16(data[9..11]) as real / 100.0,
        pressure := LittleEndianUint16(data[11..13]) as real / 10.0,
        soundNoise := LittleEndianUint16(data[13..15]) as real / 100.0,
        vBattery := (data[21] as int + 100) as real / 100.0),
      disconfortIndex := LittleEndianUint16(data[15..17]) as real / 100.0,
      heatStroke := LittleEndianUint16(data[17..19]) as real / 100.0)
  }

  /* ---------- The wire frame, as a reference for the decoders ---------- */

  /** The raw fields of the 22-byte payload, in the units the beacon sends. */
  datatype Frame = Frame(
    companyId: Word,
    sequence: Byte,
    temperature: Int16,
    humidity: Word,
    ambientLight: Word,
    uvIndex: Word,
    pressure: Word,
    soundNoise: Word,
    word15: Word,
    word17: Word,
    word19: Word,
    battery: Byte)

  /** The beacon side: lays a frame out as the 22 payload bytes. */
  function Encode(f: Frame): (data: seq<Byte>)
    ensures |data| == 22
  {
    var t := FromInt16(f.temperature);
    [ f.companyId % 0x100, f.companyId / 0x100,
      f.sequence,
      t % 0x100, t / 0x100,
      f.humidity % 0x100, f.humidity / 0x100,
      f.ambientLight % 0x100, f.ambientLight / 0x100,
      f.uvIndex % 0x100, f.uvIndex / 0x100,
      f.pressure % 0x100, f.pressure / 0x100,
      f.soundNoise % 0x100, f.soundNoise / 0x100,
      f.word15 % 0x100, f.word15 / 0x100,
      f.word17 % 0x100, f.word17 / 0x100,
      f.word19 % 0x100, f.word19 / 0x100,
      f.battery ]
  }

  /** Reads the raw frame out of a payload; every payload's first 22 bytes
      are the encoding of the frame read from them. */
  function FrameOf(data: seq<Byte>): (f: Frame)
    requires |data| >= 22
    ensures Encode(f) == data[..22]
  {
    Frame(
      companyId := LittleEndianUint16(data[0..2]),
      sequence := data[2],
      temperature := ToInt16(LittleEndianUint16(data[3..5])),
      humidity := LittleEndianUint16(data[5..7]),
      ambientLight := LittleEndianUint16(data[7..9]),
      uvIndex := LittleEndianUint16(data[9..11]),
      pressure := LittleEndianUint16(data[11..13]),
      soundNoise := LittleEndianUint16(data[13..15]),
      word15 := LittleEndianUint16(data[15..17]),
      word17 := LittleEndianUint16(data[17..19]),
      word19 := LittleEndianUint16(data[19..21]),
      battery := data[21])
  }

  /** The physical reading a frame stands for, field by field. */
  function Scaled(deviceId: string, rssi: int, f: Frame): CommonData
  {
    CommonData(
      rssi, deviceId, f.sequence,
      f.temperature as real / 100.0,
      f.humidity as real / 100.0,
      f.ambientLight,
      f.uvIndex as real / 100.0,
      f.pressure as real / 10.0,
      f.soundNoise as real / 100.0,
      (f.battery as int + 100) as real / 100.0)
  }

  /** Reading the frame back out of its encoding gives the frame. */
  lemma FrameOfEncode(f: Frame)
    ensures FrameOf(Encode(f)) == f
  {
    var d := Encode(f);
    assert d[0..2] == [f.companyId % 0x100, f.companyId / 0x100];
    assert d[3..5] == [FromInt16(f.temperature) % 0x100, FromInt16(f.temperature) / 0x100];
    assert d[5..7] == [f.humidity % 0x100, f.humidity / 0x100];
    assert d[7..9] == [f.ambientLight % 0x100, f.ambientLight / 0x100];
    assert d[9..11] == [f.uvIndex % 0x100, f.uvIndex / 0x100];
    assert d[11..13] == [f.pressure % 0x100, f.pressure / 0x100];
    assert d[13..15] == [f.soundNoise % 0x100, f.soundNoise / 0x100];
    assert d[15..17] == [f.word15 % 0x100, f.word15 / 0x100];
    assert d[17..19] == [f.word17 % 0x100, f.word17 / 0x100];
    assert d[19..21] == [f.word19 % 0x100, f.word19 / 0x100];
  }

  /** Decoding an encoded IM frame gives the frame's values, scaled; bytes
      after the 22nd are ignored. */
  lemma ParseIMDecodesFrame(deviceId: string, rssi: int, f: Frame, tail: seq<Byte>)
    ensures ParseIM(deviceId, rssi, Encode(f) + tail)
         == WxIMData(Scaled(deviceId, rssi, f), f.word15, f.word17, f.word19)
  {
    var d := Encode(f) + tail;
    assert d[..22] == Encode(f);
    FrameOfEncode(f);
    assert FrameOf(d) == FrameOf(Encode(f)) by {
      ParseReadsFrameOnly(d, Encode(f));
    }
  }

  /** Decoding an encoded EP frame gives the frame's values, scaled. */
  lemma ParseEPDecodesFrame(deviceId: string, rssi: int, f: Frame, tail: seq<Byte>)
    ensures ParseEP(deviceId, rssi, Encode(f) + tail)
         == WxEPData(Scaled(deviceId, rssi, f), f.word15 as real / 100.0, f.word17 as real / 100.0)
  {
    var d := Encode(f) + tail;
    assert d[..22] == Encode(f);
    FrameOfEncode(f);
    assert FrameOf(d) == FrameOf(Encode(f)) by {
      ParseReadsFrameOnly(d, Encode(f));
    }
  }

  /** For every buffer, parseIM gives the scaled values of the frame read
      from its first 22 bytes. */
  lemma ParseIMValue(deviceId: string, rssi: int, data: seq<Byte>)
    requires |data| >= 22
    ensures var f := FrameOf(data);
      ParseIM(deviceId, rssi, data) == WxIMData(Scaled(deviceId, rssi, f), f.word15, f.word17, f.word19)
  {
  }

  /** For every buffer, parseEP gives the scaled values of the frame read
      from its first 22 bytes. */
  lemma ParseEPValue(deviceId: string, rssi: int, data: seq<Byte>)
    requires |data| >= 22
    ensures var f := FrameOf(data);
      ParseEP(deviceId, rssi, data)
        == WxEPData(Scaled(deviceId, rssi, f), f.word15 as real / 100.0, f.word17 as real / 100.0)
  {
  }

  /** Two payloads that agree on their first 22 bytes have the same frame. */
  lemma ParseReadsFrameOnly(a: seq<Byte>, b: seq<Byte>)
    requires |a| >= 22 && |b| >= 22 && a[..22] == b[..22]
    ensures FrameOf(a) == FrameOf(b)
  {
  }

  /** parseIM reads only bytes 2 to 21: the company identifier and anything
      after byte 21 make no difference. */
  lemma ParseIMReadsOnly(deviceId: string, rssi: int, a: seq<Byte>, b: seq<Byte>)
    requires |a| >= 22 && |b| >= 22
    requires forall k :: 2 <= k < 22 ==> a[k] == b[k]
    ensures ParseIM(deviceId, rssi, a) == ParseIM(deviceId, rssi, b)
  {
  }

  /** parseEP reads only bytes 2 to 18 and byte 21. */
  lemma ParseEPReadsOnly(deviceId: string, rssi: int, a: seq<Byte>, b: seq<Byte>)
    requires |a| >= 22 && |b| >= 22
    requires forall k :: 2 <= k < 19 ==> a[k] == b[k]
    requires a[21] == b[21]
    ensures ParseEP(deviceId, rssi, a) == ParseEP(deviceId, rssi, b)
  {
  }

  /** Both decoders compute the same common fields from the same buffer. */
  lemma ParsersAgreeOnCommon(deviceId: string, rssi: int, data: seq<Byte>)
    requires |data| >= 22
    ensures ParseIM(deviceId, rssi, data).common == ParseEP(deviceId, rssi, data).common
  {
  }

  /** The temperature is negative exactly when the high byte has its top bit set. */
  lemma TemperatureSign(deviceId: string, rssi: int, data: seq<Byte>)
    requires |data| >= 22
    ensures ParseIM(deviceId, rssi, data).common.temp < 0.0 <==> data[4] >= 0x80
  {
  }

  /** Bytes 0x88 0x13 (5000) at offset 3 decode to 50.00 degrees. */
  lemma TemperatureExample(deviceId: string, rssi: int, data: seq<Byte>)
    requires |data| >= 22 && data[3] == 0x88 && data[4] == 0x13
    ensures ParseIM(deviceId, rssi, data).common.temp == 50.0
    ensures ParseEP(deviceId, rssi, data).common.temp == 50.0
  {
  }

  /** The battery byte is zero-extended: 0x00 gives 1.00 V and 0x9C gives
      2.56 V (a signed reading would have given 0.00 V). */
  lemma BatteryExamples(deviceId: string, rssi: int, data: seq<Byte>)
    requires |data| >= 22
    ensures data[21] == 0x00 ==> ParseIM(deviceId, rssi, data).common.vBattery == 1.0
    ensures data[21] == 0x9C ==> ParseIM(deviceId, rssi, data).common.vBattery == 2.56
  {
  }

  /** A sample EP advertisement: sequence 42, 50.00 degrees, 200.00 % humidity,
      100 lux. */
  lemma EndToEndExample(deviceId: string, rssi: int, data: seq<Byte>)
    requires |data| >= 22
    requires data[2] == 0x2A && data[3] == 0x88 && data[4] == 0x13
    requires data[5] == 0x20 && data[6] == 0x4E && data[7] == 0x64 && data[8] == 0x00
    ensures var r := ParseEP(deviceId, rssi, data);
      && r.common.sequence == 42 && r.common.temp == 50.0
      && r.common.humid == 200.0 && r.common.ambientLight == 100
  {
  }
}
