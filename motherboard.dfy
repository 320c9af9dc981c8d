/** The Motherboard's line decoder: a line is either a 32-character hex
    streaming packet, a calibration record with three commas, or something
    that is only logged. Packets carry three 24-bit samples that are turned
    into masses through per-channel piecewise-linear calibration tables, which
    calibration records fill in. */
module Motherboard {
  import opened Types
  import opened Text

  const PacketLength: nat := 32
  const NumSamples: nat := 3

  /** The Motherboard's static descriptor. */
  const Descriptor: DeviceDesc := DeviceDesc("Motherboard", Some(0x2a29), [
    ServiceDesc("Device Information", "device", "0000180a-0000-1000-8000-00805f9b34fb", [
      CharacteristicDesc("Firmware Revision", "firmware", "00002a26-0000-1000-8000-00805f9b34fb"),
      CharacteristicDesc("Hardware Revision", "hardware", "00002a27-0000-1000-8000-00805f9b34fb"),
      CharacteristicDesc("Manufacturer Name", "manufacturer", "00002a29-0000-1000-8000-00805f9b34fb")]),
    ServiceDesc("Battery Service", "battery", "0000180f-0000-1000-8000-00805f9b34fb", [
      CharacteristicDesc("Battery Level", "level", "00002a19-0000-1000-8000-00805f9b34fb")]),
    ServiceDesc("Unknown Service", "unknown", "10ababcd-15e1-28ff-de13-725bea03b127", [
      CharacteristicDesc("Unknown 01", "01", "10ab1524-15e1-28ff-de13-725bea03b127"),
      CharacteristicDesc("Unknown 02", "02", "10ab1525-15e1-28ff-de13-725bea03b127")]),
    ServiceDesc("UART Nordic Service", "uart", "6e400001-b5a3-f393-e0a9-e50e24dcca9e", [
      CharacteristicDesc("TX", "tx", "6e400002-b5a3-f393-e0a9-e50e24dcca9e"),
      CharacteristicDesc("RX", "rx", "6e400003-b5a3-f393-e0a9-e50e24dcca9e")])])

  // ---------------------------------------------------------------------
  // Line classification and packet decoding
  // ---------------------------------------------------------------------

  predicate AllHex(s: string) { forall k :: 0 <= k < |s| ==> IsHexDigit(s[k]) }

  /** A streaming packet: a non-empty line of hex digits, exactly
      PacketLength characters long. */
  predicate IsPacket(line: string)
    ensures IsPacket(line) ==> AllHex(line) && |DecodeHex(line)| == 16
  {
    |line| > 0 && AllHex(line) && |line| == PacketLength
  }

  /** The hex text of some bytes is a packet iff there are sixteen of them. */
  lemma PacketOfBytes(bytes: seq<byte>)
    ensures IsPacket(EncodeHex(bytes)) <==> |bytes| == 16
  {
  }

  /** Any other line with exactly three commas is a calibration record. */
  predicate IsCalibrationRecord(line: string)
  {
    !IsPacket(line) && Count(line, ',') == 3
  }

  /** The byte a pair of hex digits stands for. */
  function HexByte(hi: char, lo: char): (b: byte)
    requires IsHexDigit(hi) && IsHexDigit(lo)
    ensures b / 16 == HexValue(hi) && b % 16 == HexValue(lo)
  {
    16 * HexValue(hi) + HexValue(lo)
  }

  /** Base-16 decoding of a hex line, one byte per pair of digits. */
  function DecodeHex(s: string): (bytes: seq<byte>)
    requires AllHex(s)
    ensures |bytes| == |s| / 2
  {
    seq(|s| / 2, k requires 0 <= k < |s| / 2 => HexByte(s[2 * k], s[2 * k + 1]))
  }

  const HexDigits: string := "0123456789abcdef"

  /** The lower-case hex text of some bytes: the inverse DecodeHex is
      checked against. */
  function EncodeHex(bytes: seq<byte>): (s: string)
    ensures |s| == 2 * |bytes|
    ensures AllHex(s)
    ensures forall k :: 0 <= k < |bytes| ==> s[2 * k] == HexDigits[bytes[k] / 16] && s[2 * k + 1] == HexDigits[bytes[k] % 16]
  {
    if bytes == [] then []
    else
      var rest := EncodeHex(bytes[1..]);
      assert forall k :: 1 <= k < |bytes| ==> bytes[k] == bytes[1..][k - 1];
      [HexDigits[bytes[0] / 16], HexDigits[bytes[0] % 16]] + rest
  }

  lemma HexDigitValue(v: nat)
    requires v < 16
    ensures IsHexDigit(HexDigits[v]) && HexValue(HexDigits[v]) == v
  {
  }

  /** Decoding undoes encoding, and 16 bytes of hex text form a packet. */
  lemma {:induction false} DecodeEncodeHex(bytes: seq<byte>)
    ensures DecodeHex(EncodeHex(bytes)) == bytes
    ensures IsPacket(EncodeHex(bytes)) <==> |bytes| == 16
  {
    var s := EncodeHex(bytes);
    var d := DecodeHex(s);
    assert |d| == |bytes|;
    forall k | 0 <= k < |bytes| ensures d[k] == bytes[k] {
      var b := bytes[k];
      HexDigitValue(b / 16);
      HexDigitValue(b % 16);
      assert d[k] == HexByte(s[2 * k], s[2 * k + 1]);
      assert s[2 * k] == HexDigits[b / 16] && s[2 * k + 1] == HexDigits[b % 16];
      assert d[k] == 16 * (b / 16) + b % 16;
    }
    if |bytes| == 16 {
      assert |s| == 32;
    }
  }

  /** A 16-bit little-endian value. */
  function Le16(bytes: seq<byte>, at: nat): (v: nat)
    requires at + 1 < |bytes|
    ensures v < 0x10000
  {
    bytes[at] as int + 256 * bytes[at + 1] as int
  }

  /** The 24-bit sample `i` of a packet's bytes, read little-endian from
      offset 4 + 3i and shifted down by 2^24 from 0x7fffff upwards. */
  function RawSample(bytes: seq<byte>, i: nat): (v: int)
    requires i < NumSamples && |bytes| == 16
    ensures -0x800001 <= v <= 0x7ffffe
  {
    var start := 4 + 3 * i;
    var u := bytes[start] as int + 256 * bytes[start + 1] as int + 65536 * bytes[start + 2] as int;
    if u >= 0x7fffff then u - 0x1000000 else u
  }

  /** The header and samples of a packet; the receive time is left out. */
  datatype Packet = Packet(sampleNum: nat, battRaw: nat, samples: seq<int>)

  function DecodePacket(line: string): (p: Packet)
    requires IsPacket(line)
    ensures |p.samples| == NumSamples
  {
    var bytes := DecodeHex(line);
    Packet(Le16(bytes, 0), Le16(bytes, 2),
           [RawSample(bytes, 0), RawSample(bytes, 1), RawSample(bytes, 2)])
  }

  /** The samples of a packet are the raw samples of its bytes. */
  lemma PacketSamples(line: string)
    requires IsPacket(line)
    ensures forall k :: 0 <= k < NumSamples ==> DecodePacket(line).samples[k] == RawSample(DecodeHex(line), k)
  {
  }

  /** What a packet carries: the hex text of 16 bytes is a packet whose
      sample number and battery value are read little-endian from bytes 0-1
      and 2-3, and whose samples are the 24-bit values at 4, 7 and 10. */
  lemma PacketLayout(bytes: seq<byte>)
    requires |bytes| == 16
    ensures IsPacket(EncodeHex(bytes))
    ensures DecodePacket(EncodeHex(bytes))
         == Packet(bytes[0] as int + 256 * bytes[1] as int,
                   bytes[2] as int + 256 * bytes[3] as int,
                   [RawSample(bytes, 0), RawSample(bytes, 1), RawSample(bytes, 2)])
  {
    assert DecodeHex(EncodeHex(bytes)) == bytes by {
      DecodeEncodeHex(bytes);
    }
  }

  /** A sample reads only its own three bytes. */
  lemma SampleReadsOwnBytes(b1: seq<byte>, b2: seq<byte>, i: nat)
    requires |b1| == |b2| == 16 && i < NumSamples
    requires forall k :: 0 <= k < 13 ==> b1[k] == b2[k]
    ensures RawSample(b1, i) == RawSample(b2, i)
  {
    var start := 4 + 3 * i;
    assert b1[start] == b2[start] && b1[start + 1] == b2[start + 1] && b1[start + 2] == b2[start + 2];
  }

  /** Packets that differ only in bytes 13-15 decode alike. */
  lemma TrailingBytesUnread(b1: seq<byte>, b2: seq<byte>)
    requires |b1| == |b2| == 16
    requires forall k :: 0 <= k < 13 ==> b1[k] == b2[k]
    ensures DecodePacket(EncodeHex(b1)) == DecodePacket(EncodeHex(b2))
  {
    PacketLayout(b1);
    PacketLayout(b2);
    assert b1[0] == b2[0] && b1[1] == b2[1] && b1[2] == b2[2] && b1[3] == b2[3];
    SampleReadsOwnBytes(b1, b2, 0);
    SampleReadsOwnBytes(b1, b2, 1);
    SampleReadsOwnBytes(b1, b2, 2);
  }

  /** The sign boundary sits at 0x7fffff, not 0x800000: 0x7fffff itself is
      read as -0x800001, while 0x7ffffe stays positive. */
  lemma SampleBoundary()
    ensures RawSample([0, 0, 0, 0, 0xff, 0xff, 0x7f, 0, 0, 0, 0, 0, 0, 0, 0, 0], 0) == -0x800001
    ensures RawSample([0, 0, 0, 0, 0xfe, 0xff, 0x7f, 0, 0, 0, 0, 0, 0, 0, 0, 0], 0) == 0x7ffffe
    ensures RawSample([0, 0, 0, 0, 0xff, 0xff, 0xff, 0, 0, 0, 0, 0, 0, 0, 0, 0], 0) == -1
  {
  }

  // ---------------------------------------------------------------------
  // Calibration
  // ---------------------------------------------------------------------

  /** One calibration entry: fields 2 to 4 of a record, of which the second
      is a reference force and the third the raw reading for it. */
  datatype CalPoint = CalPoint(tag: real, force: real, raw: real)

  /** Linear interpolation of the force between two points. */
  function Lerp(s: real, p: CalPoint, q: CalPoint): (f: real)
    requires p.raw < q.raw
    ensures s == p.raw ==> f == p.force
    ensures s == q.raw ==> f == q.force
  {
    LerpEnds(s - p.raw, q.raw - p.raw, q.force - p.force);
    p.force + ((s - p.raw) / (q.raw - p.raw)) * (q.force - p.force)
  }

  /** The interpolation factor is 0 at the lower point and 1 at the upper. */
  lemma LerpEnds(offset: real, width: real, rise: real)
    requires width > 0.0
    ensures offset == 0.0 ==> (offset / width) * rise == 0.0
    ensures offset == width ==> (offset / width) * rise == rise
  {
    if offset == width {
      assert offset / width == 1.0;
    }
  }

  /** The scan of applyCalibration from pair (i-1, i) on: the first pair
      whose end raw value exceeds `s` is interpolated; no such pair gives 0. */
  function Scan(s: real, t: seq<CalPoint>, i: nat): (f: real)
    requires 1 <= i <= |t|
    requires s >= t[i - 1].raw
    ensures (forall j :: i <= j < |t| ==> t[j].raw <= s) ==> f == 0.0
    decreases |t| - i
  {
    if i == |t| then 0.0
    else if s < t[i].raw then Lerp(s, t[i - 1], t[i])
    else Scan(s, t, i + 1)
  }

  /** applyCalibration: a sample below the table's zero point (entry 0's
      raw value) is mirrored about it and the result negated. */
  function Calibrated(sample: real, t: seq<CalPoint>): (f: real)
    requires |t| > 0
    ensures |t| == 1 ==> f == 0.0
    ensures |t| > 1 && t[0].raw < t[1].raw && sample == t[0].raw ==> f == t[0].force
  {
    var zero := t[0].raw;
    if sample < zero then -Scan(2.0 * zero - sample, t, 1) else Scan(sample, t, 1)
  }

  /** applyCalibration as the source runs it: a loop over consecutive pairs
      that breaks at the first bracketing one. */
  method ApplyCalibration(sample: real, calibration: seq<CalPoint>) returns (r: real)
    requires |calibration| > 0
    ensures r == Calibrated(sample, calibration)
  {
    var zeroCalib := calibration[0].raw;
    var sgn := 1.0;
    var final := 0.0;
    var s := sample;
    if s < zeroCalib {
      sgn := -1.0;
      s := 2.0 * zeroCalib - s;
    }
    var i := 1;
    while i < |calibration|
      invariant 1 <= i <= |calibration|
      invariant s >= calibration[i - 1].raw
      invariant final == 0.0
      invariant Scan(s, calibration, 1) == Scan(s, calibration, i)
    {
      var calibStart := calibration[i - 1].raw;
      var calibEnd := calibration[i].raw;
      if s < calibEnd {
        final := calibration[i - 1].force
          + ((s - calibStart) / (calibEnd - calibStart)) * (calibration[i].force - calibration[i - 1].force);
        break;
      }
      i := i + 1;
    }
    r := sgn * final;
  }

  /** Mirroring law: below the zero point the result is the negation of the
      result at the mirrored sample. */
  lemma MirrorLaw(s: real, t: seq<CalPoint>)
    requires |t| > 0 && s < t[0].raw
    ensures Calibrated(s, t) == -Calibrated(2.0 * t[0].raw - s, t)
  {
  }

  /** A sample (or its mirror image) that no pair brackets calibrates to 0,
      and a one-entry table calibrates every sample to 0. */
  lemma OutOfTable(s: real, t: seq<CalPoint>)
    requires |t| > 0
    requires var m := if s < t[0].raw then 2.0 * t[0].raw - s else s;
             forall k :: 0 <= k < |t| ==> m >= t[k].raw
    ensures Calibrated(s, t) == 0.0
  {
  }

  lemma SingleEntry(s: real, p: CalPoint)
    ensures Calibrated(s, [p]) == 0.0
  {
  }

  predicate Increasing(t: seq<CalPoint>)
  {
    forall j, k :: 0 <= j < k < |t| ==> t[j].raw < t[k].raw
  }

  /** With strictly increasing raw values the scan stops at the pair that
      brackets the sample. */
  lemma {:induction false} ScanFinds(s: real, t: seq<CalPoint>, i: nat, k: nat)
    requires Increasing(t)
    requires 1 <= i <= k < |t|
    requires s >= t[i - 1].raw
    requires t[k - 1].raw <= s < t[k].raw
    ensures Scan(s, t, i) == Lerp(s, t[k - 1], t[k])
    decreases k - i
  {
    if i < k {
      assert t[i].raw <= t[k - 1].raw;
      ScanFinds(s, t, i + 1, k);
    }
  }

  /** Interpolation between a bracketing pair lies between its forces. */
  lemma LerpBetween(s: real, p: CalPoint, q: CalPoint)
    requires p.raw <= s < q.raw
    ensures p.force <= q.force ==> p.force <= Lerp(s, p, q) <= q.force
    ensures q.force <= p.force ==> q.force <= Lerp(s, p, q) <= p.force
  {
    var d := q.raw - p.raw;
    var frac := (s - p.raw) / d;
    assert frac * d == s - p.raw;
    assert 0.0 <= frac <= 1.0;
    var span := q.force - p.force;
    if span >= 0.0 {
      assert 0.0 <= frac * span <= span;
    } else {
      assert span <= frac * span <= 0.0;
    }
  }

  /** A sample at or above the zero point, bracketed by entries k-1 and k of
      an increasing table, is their linear interpolation and lies between
      their forces. */
  lemma Bracketed(s: real, t: seq<CalPoint>, k: nat)
    requires Increasing(t)
    requires 1 <= k < |t|
    requires t[0].raw <= s
    requires t[k - 1].raw <= s < t[k].raw
    ensures Calibrated(s, t) == Lerp(s, t[k - 1], t[k])
    ensures t[k - 1].force <= t[k].force ==> t[k - 1].force <= Calibrated(s, t) <= t[k].force
    ensures t[k].force <= t[k - 1].force ==> t[k].force <= Calibrated(s, t) <= t[k - 1].force
  {
    ScanFinds(s, t, 1, k);
    LerpBetween(s, t[k - 1], t[k]);
  }

  // ---------------------------------------------------------------------
  // Calibration records
  // ---------------------------------------------------------------------

  /** The records this model reads: every field a decimal number (parseFloat
      on anything else yields NaN, which the model leaves out). */
  predicate FieldsAreDecimal(line: string)
  {
    var parts := Split(line, ',');
    forall k :: 0 <= k < |parts| ==> IsDecimal(parts[k])
  }

  /** What the decoder may be given: a calibration record must have decimal
      fields. */
  predicate Readable(line: string)
  {
    IsCalibrationRecord(line) ==> FieldsAreDecimal(line)
  }

  /** The number of per-channel tables (CALIBRATION holds four). */
  const NumTables: nat := 4

  /** The channel a calibration record names, if it is an index of the
      CALIBRATION array. */
  function RecordChannel(line: string): (c: Option<nat>)
    requires IsCalibrationRecord(line) && FieldsAreDecimal(line)
    ensures c.Some? ==> c.value < NumTables && ParseDecimal(Split(line, ',')[0]) == c.value as real
  {
    var v := ParseDecimal(Split(line, ',')[0]);
    if v == 0.0 then Some(0) else if v == 1.0 then Some(1)
    else if v == 2.0 then Some(2) else if v == 3.0 then Some(3)
    else None
  }

  function RecordPoint(line: string): CalPoint
    requires IsCalibrationRecord(line) && FieldsAreDecimal(line)
  {
    var parts := Split(line, ',');
    CalPoint(ParseDecimal(parts[1]), ParseDecimal(parts[2]), ParseDecimal(parts[3]))
  }

  // ---------------------------------------------------------------------
  // handleMotherboardData
  // ---------------------------------------------------------------------

  /** Why handling a line threw instead of returning. */
  datatype Fault =
    | EmptyChannelTable   // calibration[0][2] on an empty table of channel 1 or 2
    | NoCallback          // notifyCallback called while none is registered
    | NoSuchChannel       // push on CALIBRATION[x] for x outside 0..3

  /** What handling one line did. */
  datatype LineOutcome =
    | Measured(record: Notification)
    | Uncalibrated
    | CalibrationAdded(channel: nat)
    | Logged
    | Thrown(fault: Fault)

  /** The masses of a calibrated packet, each floored at -1000, and their
      floored sum as the total. */
  function MassOf(uuid: string, left: real, centre: real, right: real): Notification
  {
    MassRecord(uuid, Floor1000(left + right + centre), Floor1000(left), Floor1000(right), Floor1000(centre))
  }

  /** A packet line against the tables: dropped while channel 0 has no
      table, a throw when channel 1 or 2 has none or no callback is
      registered, otherwise the calibrated masses. */
  function PacketOutcome(cal: seq<seq<CalPoint>>, uuid: string, line: string, registered: bool): (r: LineOutcome)
    requires |cal| == NumTables && IsPacket(line)
    ensures r == Uncalibrated <==> |cal[0]| == 0
    ensures r == Thrown(EmptyChannelTable) <==> |cal[0]| > 0 && (|cal[1]| == 0 || |cal[2]| == 0)
    ensures r == Thrown(NoCallback) <==> |cal[0]| > 0 && |cal[1]| > 0 && |cal[2]| > 0 && !registered
    ensures r.Measured? <==> |cal[0]| > 0 && |cal[1]| > 0 && |cal[2]| > 0 && registered
    ensures r.Measured? ==> r.record.MassRecord? && r.record.uuid == uuid && r.record.massTotal >= -1000.0
  {
    var p := DecodePacket(line);
    if |cal[0]| == 0 then Uncalibrated
    else if |cal[1]| == 0 || |cal[2]| == 0 then Thrown(EmptyChannelTable)
    else if !registered then Thrown(NoCallback)
    else
      Measured(MassOf(uuid, Calibrated(p.samples[0] as real, cal[0]),
                            Calibrated(p.samples[1] as real, cal[1]),
                            Calibrated(p.samples[2] as real, cal[2])))
  }

  /** handleMotherboardData on the calibration tables: the new tables and what
      happened. */
  function HandleLine(cal: seq<seq<CalPoint>>, uuid: string, line: string, registered: bool)
    : (r: (seq<seq<CalPoint>>, LineOutcome))
    requires |cal| == NumTables && Readable(line)
    ensures |r.0| == NumTables
  {
    if IsPacket(line) then (cal, PacketOutcome(cal, uuid, line, registered))
    else if Count(line, ',') == 3 then
      match RecordChannel(line)
      case Some(c) => (cal[c := cal[c] + [RecordPoint(line)]], CalibrationAdded(c))
      case None => (cal, Thrown(NoSuchChannel))
    else (cal, Logged)
  }

  /** The module-level CALIBRATION tables and the handler that reads and
      extends them. */
  class Decoder {
    var calibration: seq<seq<CalPoint>>

    ghost predicate Valid()
      reads this
    {
      |calibration| == NumTables
    }

    constructor ()
      ensures Valid()
      ensures calibration == [[], [], [], []]
    {
      calibration := [[], [], [], []];
    }

    /** handleMotherboardData: classify the line, then measure a packet or
        append a calibration point. */
    method HandleData(uuid: string, line: string, registered: bool) returns (outcome: LineOutcome)
      requires Valid() && Readable(line)
      modifies this
      ensures Valid()
      ensures (calibration, outcome) == HandleLine(old(calibration), uuid, line, registered)
    {
      if IsPacket(line) {
        outcome := MeasurePacket(uuid, line, registered);
      } else if Count(line, ',') == 3 {
        var parts := Split(line, ',');
        var channel := ParseDecimal(parts[0]);
        if channel == 0.0 || channel == 1.0 || channel == 2.0 || channel == 3.0 {
          var c := channel.Floor;
          calibration := calibration[c := calibration[c] + [CalPoint(ParseDecimal(parts[1]), ParseDecimal(parts[2]), ParseDecimal(parts[3]))]];
          outcome := CalibrationAdded(c);
        } else {
          outcome := Thrown(NoSuchChannel);
        }
      } else {
        outcome := Logged;
      }
    }

    /** The packet branch of handleMotherboardData: decode the samples one by
        one and calibrate each with its channel's table; the tables are only
        read. */
    method MeasurePacket(uuid: string, line: string, registered: bool) returns (outcome: LineOutcome)
      requires Valid() && IsPacket(line)
      ensures outcome == PacketOutcome(calibration, uuid, line, registered)
    {
      var bytes := DecodeHex(line);
      PacketSamples(line);
      var cal := calibration;
      var samples: seq<int> := [];
      var masses: seq<real> := [];
      for i := 0 to NumSamples
        invariant |samples| == i && |masses| == i
        invariant i > 0 ==> |cal[0]| > 0 && masses[0] == Calibrated(RawSample(bytes, 0) as real, cal[0])
        invariant i > 1 ==> |cal[1]| > 0 && masses[1] == Calibrated(RawSample(bytes, 1) as real, cal[1])
        invariant i > 2 ==> |cal[2]| > 0 && masses[2] == Calibrated(RawSample(bytes, 2) as real, cal[2])
      {
        var sample := ReadSample(bytes, i);
        samples := samples + [sample];
        if |cal[0]| == 0 {
          return Uncalibrated;
        }
        if |cal[i]| == 0 {
          return Thrown(EmptyChannelTable);
        }
        var mass := ApplyCalibration(sample as real, cal[i]);
        masses := masses + [mass];
      }
      if !registered {
        return Thrown(NoCallback);
      }
      outcome := Measured(MassOf(uuid, masses[0], masses[1], masses[2]));
    }
  }

  /** Sample i of a packet's bytes as the decoder reads it: the three bytes
      from offset 4 + 3i joined by `JoinBytes`, then shifted down by 2^24
      from 0x7fffff upwards. */
  method ReadSample(bytes: seq<byte>, i: nat) returns (sample: int)
    requires i < NumSamples && |bytes| == 16
    ensures sample == RawSample(bytes, i)
  {
    var sampleStart := 4 + 3 * i;
    sample := JoinBytes(bytes[sampleStart], bytes[sampleStart + 1], bytes[sampleStart + 2]);
    if sample >= 0x7fffff {
      sample := sample - 0x1000000;
    }
  }

  /** `lo | (mid << 8) | (hi << 16)` on 32 bits: the bytes land in disjoint
      bit ranges, so the result is their little-endian value. It stays below
      2^24, so the signed 32-bit result of `|` is never negative. */
  function JoinBytes(lo: byte, mid: byte, hi: byte): (v: int)
    ensures v == lo as int + 256 * mid as int + 65536 * hi as int
  {
    var b0, b1, b2 := ByteBits(lo), ByteBits(mid), ByteBits(hi);
    DisjointOr(b0, b1, b2);
    ((b0 as bv32) | ((b1 as bv32) << 8) | ((b2 as bv32) << 16)) as int
  }

  /** A byte as eight bits: the bit pattern reached by counting up from
      zero to it. */
  function ByteBits(x: byte): (b: bv8)
    ensures b as int == x
  {
    if x == 0 then 0 else ByteBits(x - 1) + 1
  }

  /** Three bytes shifted into disjoint bit ranges and joined with `|` give
      their little-endian sum. */
  lemma DisjointOr(b0: bv8, b1: bv8, b2: bv8)
    ensures ((b0 as bv32) | ((b1 as bv32) << 8) | ((b2 as bv32) << 16)) as int
            == b0 as int + 256 * b1 as int + 65536 * b2 as int
  {
  }

  // ---------------------------------------------------------------------
  // Properties of handleMotherboardData
  // ---------------------------------------------------------------------

  /** With channel 0 uncalibrated a packet is dropped: no notification and
      no change to any table. */
  lemma UncalibratedPacketDropped(cal: seq<seq<CalPoint>>, uuid: string, line: string, registered: bool)
    requires |cal| == NumTables && IsPacket(line) && cal[0] == []
    ensures HandleLine(cal, uuid, line, registered) == (cal, Uncalibrated)
  {
  }

  /** A packet never changes a calibration table; when every channel is
      calibrated and a callback is registered, it is reported with every mass
      at least -1000 and the total the floored sum of the three channels. */
  lemma PacketReport(cal: seq<seq<CalPoint>>, uuid: string, line: string, registered: bool)
    requires |cal| == NumTables && IsPacket(line)
    ensures HandleLine(cal, uuid, line, registered).0 == cal
    ensures |cal[0]| > 0 && |cal[1]| > 0 && |cal[2]| > 0 && registered ==>
      var p := DecodePacket(line);
      var left := Calibrated(p.samples[0] as real, cal[0]);
      var centre := Calibrated(p.samples[1] as real, cal[1]);
      var right := Calibrated(p.samples[2] as real, cal[2]);
      match HandleLine(cal, uuid, line, registered).1
      case Measured(MassRecord(u, total, l, r, c)) =>
        && u == uuid
        && total == Max(-1000.0, left + right + centre) && total >= -1000.0
        && l == Max(-1000.0, left) && r == Max(-1000.0, right) && c == Max(-1000.0, centre)
        && l >= -1000.0 && r >= -1000.0 && c >= -1000.0
      case _ => false
  {
  }

  lemma ChannelOfRecord(line: string, c: nat)
    requires IsCalibrationRecord(line) && FieldsAreDecimal(line)
    requires ParseDecimal(Split(line, ',')[0]) == c as real && c < NumTables
    ensures RecordChannel(line) == Some(c)
  {
    var v := ParseDecimal(Split(line, ',')[0]);
    if c == 0 {
      assert v == 0.0;
    } else if c == 1 {
      assert v == 1.0;
    } else if c == 2 {
      assert v == 2.0;
    } else {
      assert v == 3.0;
    }
  }

  /** A calibration record appends its fields 2-4 to the table its first
      field names and leaves every other table as it was. */
  lemma RecordAppends(cal: seq<seq<CalPoint>>, uuid: string, line: string, registered: bool, c: nat)
    requires |cal| == NumTables && IsCalibrationRecord(line) && FieldsAreDecimal(line)
    requires ParseDecimal(Split(line, ',')[0]) == c as real && c < NumTables
    ensures var parts := Split(line, ',');
            var (cal', outcome) := HandleLine(cal, uuid, line, registered);
            && outcome == CalibrationAdded(c)
            && |cal'| == NumTables
            && cal'[c] == cal[c] + [CalPoint(ParseDecimal(parts[1]), ParseDecimal(parts[2]), ParseDecimal(parts[3]))]
            && forall j :: 0 <= j < NumTables && j != c ==> cal'[j] == cal[j]
  {
    ChannelOfRecord(line, c);
    assert HandleLine(cal, uuid, line, registered) == (cal[c := cal[c] + [RecordPoint(line)]], CalibrationAdded(c));
  }

  /** Handling a line changes at most one table: the one a calibration
      record names, which grows by one point. Only a packet is measured or
      dropped as uncalibrated, and a line is only logged when it is neither a
      packet nor has three commas. */
  lemma HandleLineTouchesOneTable(cal: seq<seq<CalPoint>>, uuid: string, line: string, registered: bool)
    requires |cal| == NumTables && Readable(line)
    ensures var r := HandleLine(cal, uuid, line, registered);
            && (forall c :: 0 <= c < NumTables && r.1 != CalibrationAdded(c) ==> r.0[c] == cal[c])
            && (r.1.CalibrationAdded? ==>
                  IsCalibrationRecord(line) && r.1.channel < NumTables && |r.0[r.1.channel]| == |cal[r.1.channel]| + 1)
            && (r.1.Measured? || r.1.Uncalibrated? ==> IsPacket(line))
            && (r.1.Logged? <==> !IsPacket(line) && Count(line, ',') != 3)
  {
  }
}
