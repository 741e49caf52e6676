/** The older, simpler `gpu_metrics` decoder of the `amdgpu` sysfs module
    (`amdgpu/reader.rs` and `amdgpu/types.rs`). It shares the header and the
    throttle table with the full decoder, but reads the header separately from
    the body, accepts other revisions, decodes no optional fields and uses its
    own v2.0 offsets. */
module AmdLegacy {
  import opened Wrappers
  import opened Text
  import opened LittleEndian
  import opened CoreLib
  import opened AmdMetrics

  /** `GpuMetricsV2_0`: the v2.0 layout as this decoder reads it. */
  datatype GpuMetricsV2_0 = GpuMetricsV2_0(
    header: Header,
    systemClockCounter: u64,
    temperatureGfx: u16,
    temperatureSoc: u16,
    temperatureCore: seq<u16>,
    temperatureL3: seq<u16>,
    averageGfxActivity: u16,
    averageMmActivity: u16,
    averageSocketPower: u16,
    averageCpuPower: u16,
    averageSocPower: u16,
    averageGfxPower: u16,
    averageCorePower: seq<u16>,
    averageGfxclkFrequency: u16,
    averageSocclkFrequency: u16,
    averageUclkFrequency: u16,
    averageFclkFrequency: u16,
    averageVclkFrequency: u16,
    averageDclkFrequency: u16,
    currentGfxclk: u16,
    currentSocclk: u16,
    currentUclk: u16,
    currentFclk: u16,
    currentVclk: u16,
    currentDclk: u16,
    currentCoreclk: seq<u16>,
    currentL3clk: seq<u16>,
    throttleStatus: u64,
    fanPwm: u16,
    padding: seq<u16>)

  /** A decoded blob. `GpuMetricsV1_0` has exactly the base fields of the full v1
      layout, so it is that record with every optional field absent. */
  datatype LegacyMetrics = LegacyV1(v1: GpuMetricsV1) | LegacyV2(v2: GpuMetricsV2_0)

  /** The length both layout guards demand of the body. */
  const LEGACY_MIN_BODY: nat := 96
  /** One past the last body byte the v2.0 layout reads (`fan_pwm` at 112). */
  const LEGACY_V2_READ_END: nat := 114

  /** The outcome of running code that may index out of bounds or underflow. */
  datatype LegacyOutcome = Completes(result: Result<LegacyMetrics, SensorError>) | Panics

  // ---------------------------------------------------------------------
  // v1.x

  /** `parse_v1_metrics`: content revisions 0 to 3, at least 96 body bytes, the
      base fields at the same offsets as the full decoder. */
  function LegacyParseV1(h: Header, data: seq<byte>): Result<LegacyMetrics, SensorError> {
    if h.contentRevision > 3 then Err(Parse("Unsupported v1 content revision: " + NatToString(h.contentRevision)))
    else if |data| < LEGACY_MIN_BODY then Err(Parse("Insufficient data for v1.x"))
    else Ok(LegacyV1(BaseV1(h, data)))
  }

  /** The v1 decoder accepts exactly revisions 0-3 with 96 body bytes, and its
      record is the full decoder's v1 record stripped of the optional fields. */
  lemma LegacyV1Layout(h: Header, data: seq<byte>)
    ensures LegacyParseV1(h, data).Ok? <==> h.contentRevision <= 3 && |data| >= LEGACY_MIN_BODY
    ensures LegacyParseV1(h, data).Ok? ==>
      var m := LegacyParseV1(h, data).value.v1;
      m.gfxVoltage.None? && m.socVoltage.None? && m.memVoltage.None? &&
      m.indepThrottleStatus.None? && m.currentSocketPower.None? && m.vcnActivity.None? &&
      m == ParseV1Spec(h, data).value.(gfxVoltage := None, socVoltage := None, memVoltage := None,
                                        indepThrottleStatus := None, currentSocketPower := None,
                                        vcnActivity := None)
    ensures LegacyParseV1(h, data).Ok? ==>
      var m := LegacyParseV1(h, data).value.v1;
      m.systemClockCounter == ReadU64Le(data, 0) && m.temperatureEdge == ReadU16Le(data, 8) &&
      m.averageSocketPower == ReadU16Le(data, 26) && m.averageGfxclkFrequency == ReadU16Le(data, 36) &&
      m.throttleStatus == ReadU64Le(data, 64) && m.currentFanSpeed == ReadU16Le(data, 72)
  {
  }

  // ---------------------------------------------------------------------
  // v2.0

  /** The v2.0 record, given the five arrays; 114 body bytes cover every read. */
  function LegacyV2Record(h: Header, data: seq<byte>, temperatureCore: seq<u16>, temperatureL3: seq<u16>,
                          averageCorePower: seq<u16>, currentCoreclk: seq<u16>, currentL3clk: seq<u16>): GpuMetricsV2_0
    requires |data| >= LEGACY_V2_READ_END
  {
    GpuMetricsV2_0(
      h,
      ReadU64Le(data, 0),
      ReadU16Le(data, 8), ReadU16Le(data, 10),
      temperatureCore, temperatureL3,
      ReadU16Le(data, 36), ReadU16Le(data, 38),
      ReadU16Le(data, 40), ReadU16Le(data, 42), ReadU16Le(data, 44), ReadU16Le(data, 46),
      averageCorePower,
      ReadU16Le(data, 66), ReadU16Le(data, 68), ReadU16Le(data, 70),
      ReadU16Le(data, 72), ReadU16Le(data, 74), ReadU16Le(data, 76),
      ReadU16Le(data, 78), ReadU16Le(data, 80), ReadU16Le(data, 82),
      ReadU16Le(data, 84), ReadU16Le(data, 86), ReadU16Le(data, 88),
      currentCoreclk, currentL3clk,
      ReadU64Le(data, 104),
      ReadU16Le(data, 112),
      [0, 0, 0])
  }

  /** `parse_v2_metrics` with its length guard raised to the 114 bytes it reads:
      content revision 0 only. */
  function LegacyParseV2Spec(h: Header, data: seq<byte>): Result<LegacyMetrics, SensorError> {
    if h.contentRevision != 0 then Err(Parse("Unsupported v2 content revision: " + NatToString(h.contentRevision)))
    else if |data| < LEGACY_V2_READ_END then Err(Parse("Insufficient data for v2.0"))
    else Ok(LegacyV2(LegacyV2Record(h, data, U16Run(data, 16, 8), U16Run(data, 32, 2), U16Run(data, 50, 8),
                                    U16Run(data, 84, 8), U16Run(data, 100, 2))))
  }

  /** `parse_v2_metrics` as written: the guard admits 96 bytes, but the throttle
      word (104..111) and the fan value (112..113) are read unchecked, so a body
      of 96 to 113 bytes indexes past its end. */
  function LegacyParseV2AsWritten(h: Header, data: seq<byte>): LegacyOutcome {
    if h.contentRevision != 0 then Completes(Err(Parse("Unsupported v2 content revision: " + NatToString(h.contentRevision))))
    else if |data| < LEGACY_MIN_BODY then Completes(Err(Parse("Insufficient data for v2.0")))
    else if |data| < LEGACY_V2_READ_END then Panics
    else Completes(LegacyParseV2Spec(h, data))
  }

  /** `parse_v2_metrics` (with the corrected guard): the five arrays are filled in
      loops, then the record is built. */
  method LegacyParseV2(h: Header, data: seq<byte>) returns (r: Result<LegacyMetrics, SensorError>)
    ensures r == LegacyParseV2Spec(h, data)
  {
    if h.contentRevision != 0 {
      return Err(Parse("Unsupported v2 content revision: " + NatToString(h.contentRevision)));
    }
    if |data| < LEGACY_V2_READ_END {
      return Err(Parse("Insufficient data for v2.0"));
    }
    var temperatureCore := ReadU16Array(data, 16, 8);
    var temperatureL3 := ReadU16Array(data, 32, 2);
    var averageCorePower := ReadU16Array(data, 50, 8);
    var currentCoreclk := ReadU16Array(data, 84, 8);
    var currentL3clk := ReadU16Array(data, 100, 2);
    r := Ok(LegacyV2(LegacyV2Record(h, data, temperatureCore[..], temperatureL3[..], averageCorePower[..],
                                    currentCoreclk[..], currentL3clk[..])));
  }

  /** The v2.0 arrays sit at 16+2i, 32+2i, 50+2i, 84+2i and 100+2i, the average
      GFX clock at 66, and the padding is always zero. */
  lemma LegacyV2Layout(h: Header, data: seq<byte>)
    requires LegacyParseV2Spec(h, data).Ok?
    ensures h.contentRevision == 0 && |data| >= LEGACY_V2_READ_END
    ensures var m := LegacyParseV2Spec(h, data).value.v2;
      |m.temperatureCore| == 8 && |m.temperatureL3| == 2 && |m.averageCorePower| == 8 &&
      |m.currentCoreclk| == 8 && |m.currentL3clk| == 2 &&
      (forall i :: 0 <= i < 8 ==> m.temperatureCore[i] == ReadU16Le(data, 16 + 2 * i)) &&
      (forall i :: 0 <= i < 2 ==> m.temperatureL3[i] == ReadU16Le(data, 32 + 2 * i)) &&
      (forall i :: 0 <= i < 8 ==> m.averageCorePower[i] == ReadU16Le(data, 50 + 2 * i)) &&
      (forall i :: 0 <= i < 8 ==> m.currentCoreclk[i] == ReadU16Le(data, 84 + 2 * i)) &&
      (forall i :: 0 <= i < 2 ==> m.currentL3clk[i] == ReadU16Le(data, 100 + 2 * i)) &&
      m.averageGfxclkFrequency == ReadU16Le(data, 66) &&
      m.throttleStatus == ReadU64Le(data, 104) && m.fanPwm == ReadU16Le(data, 112) &&
      m.padding == [0, 0, 0]
  {
  }

  // ---------------------------------------------------------------------
  // Dispatch and the file read

  /** `parse_metrics`: by format revision only; the header is not checked against
      the supported-version list. */
  function LegacyParseSpec(h: Header, data: seq<byte>): Result<LegacyMetrics, SensorError> {
    if h.formatRevision == 1 then LegacyParseV1(h, data)
    else if h.formatRevision == 2 then LegacyParseV2Spec(h, data)
    else Err(Parse("Unsupported format version: " + Version(h)))
  }

  function LegacyParseAsWritten(h: Header, data: seq<byte>): LegacyOutcome {
    if h.formatRevision == 1 then Completes(LegacyParseV1(h, data))
    else if h.formatRevision == 2 then LegacyParseV2AsWritten(h, data)
    else Completes(Err(Parse("Unsupported format version: " + Version(h))))
  }

  /** `parse_metrics` (with the corrected v2.0 guard). */
  method LegacyParseMetrics(h: Header, data: seq<byte>) returns (r: Result<LegacyMetrics, SensorError>)
    ensures r == LegacyParseSpec(h, data)
  {
    match h.formatRevision
    case 1 => r := LegacyParseV1(h, data);
    case 2 => r := LegacyParseV2(h, data);
    case _ => r := Err(Parse("Unsupported format version: " + Version(h)));
  }

  /** Only format revisions 1 and 2 are decoded; anything else is reported with
      its "vX.Y" version, and the content revision is then never looked at. */
  lemma LegacyDispatch(h: Header, data: seq<byte>)
    ensures h.formatRevision != 1 && h.formatRevision != 2 ==>
      LegacyParseSpec(h, data) == Err(Parse("Unsupported format version: v" + NatToString(h.formatRevision)
                                            + "." + NatToString(h.contentRevision)))
    ensures LegacyParseSpec(h, data).Ok? ==>
      (h.formatRevision == 1 && LegacyParseSpec(h, data).value.LegacyV1? && h.contentRevision <= 3) ||
      (h.formatRevision == 2 && LegacyParseSpec(h, data).value.LegacyV2? && h.contentRevision == 0)
  {
    var f := NatToString(h.formatRevision);
    var c := NatToString(h.contentRevision);
    assert "Unsupported format version: v" == "Unsupported format version: " + "v";
    assert "Unsupported format version: " + ("v" + f + "." + c) == "Unsupported format version: v" + f + "." + c;
  }

  /** `read_file` with both guards corrected: the 4 header bytes, a structure size
      between 4 and 1024, exactly `structure_size - 4` body bytes, then decoding. */
  function LegacyReadSpec(file: FileRead): Result<LegacyMetrics, SensorError> {
    match file
    case Err(kind) => Err(Io(kind))
    case Ok(bytes) =>
      if |bytes| < HEADER_SIZE then Err(Io(UnexpectedEof))
      else
        var h := HeaderOf(bytes);
        if h.structureSize < HEADER_SIZE || h.structureSize > MAX_STRUCTURE_SIZE then Err(InvalidSize(h.structureSize))
        else if |bytes| < h.structureSize then Err(Io(UnexpectedEof))
        else LegacyParseSpec(h, bytes[HEADER_SIZE..h.structureSize])
  }

  /** `read_file` as written: sizes 1 to 3 underflow `structure_size - 4`, and the
      v2.0 decoder indexes out of bounds on short bodies. */
  function LegacyReadAsWritten(file: FileRead): LegacyOutcome {
    match file
    case Err(kind) => Completes(Err(Io(kind)))
    case Ok(bytes) =>
      if |bytes| < HEADER_SIZE then Completes(Err(Io(UnexpectedEof)))
      else
        var h := HeaderOf(bytes);
        if h.structureSize == 0 || h.structureSize > MAX_STRUCTURE_SIZE then Completes(Err(InvalidSize(h.structureSize)))
        else if h.structureSize < HEADER_SIZE then Panics
        else if |bytes| < h.structureSize then Completes(Err(Io(UnexpectedEof)))
        else LegacyParseAsWritten(h, bytes[HEADER_SIZE..h.structureSize])
  }

  /** `read_file` (corrected). */
  method LegacyReadFile(file: FileRead) returns (r: Result<LegacyMetrics, SensorError>)
    ensures r == LegacyReadSpec(file)
  {
    if file.Err? {
      return Err(Io(file.error));
    }
    var bytes := file.value;
    if |bytes| < HEADER_SIZE {
      return Err(Io(UnexpectedEof));
    }
    var headerBuf := bytes[..HEADER_SIZE];
    var h := HeaderOf(headerBuf);
    assert headerBuf[..4] == bytes[..4];
    if h.structureSize < HEADER_SIZE || h.structureSize > MAX_STRUCTURE_SIZE {
      return Err(InvalidSize(h.structureSize));
    }
    if |bytes| < h.structureSize {
      return Err(Io(UnexpectedEof));
    }
    var dataBuf := bytes[HEADER_SIZE..h.structureSize];
    r := LegacyParseMetrics(h, dataBuf);
  }

  /** The written code and the corrected one agree everywhere except on a header
      claiming 1 to 3 bytes and on a v2.0 body of 96 to 113 bytes, where the
      written code panics. */
  lemma LegacyPanicsExactlyOnShortInputs(file: FileRead)
    ensures LegacyReadAsWritten(file).Panics? <==>
      file.Ok? && |file.value| >= HEADER_SIZE &&
      var h := HeaderOf(file.value);
      (1 <= h.structureSize < HEADER_SIZE ||
       (HEADER_SIZE + LEGACY_MIN_BODY <= h.structureSize < HEADER_SIZE + LEGACY_V2_READ_END &&
        |file.value| >= h.structureSize && h.formatRevision == 2 && h.contentRevision == 0))
    ensures LegacyReadAsWritten(file).Completes? ==> LegacyReadAsWritten(file).result == LegacyReadSpec(file)
  {
  }

  /** Exactly `structure_size` bytes are read: the rest of the file is ignored. */
  lemma LegacyReadsExactlyStructureSize(bytes: seq<byte>, extra: seq<byte>)
    requires |bytes| >= HEADER_SIZE && HeaderOf(bytes).structureSize == |bytes|
    ensures LegacyReadSpec(Ok(bytes + extra)) == LegacyReadSpec(Ok(bytes))
  {
    var d := bytes + extra;
    assert d[..4] == bytes[..4];
    assert HeaderOf(d) == HeaderOf(bytes);
    assert d[HEADER_SIZE..|bytes|] == bytes[HEADER_SIZE..|bytes|];
  }

  /** 96 zero bytes after a v2.0 header announcing 100 bytes: the written guard lets
      them through to an out-of-bounds read, the corrected one reports them short. */
  lemma ShortV2BodyPanics()
    ensures var file: FileRead := Ok([100, 0, 2, 0] + seq(96, _ => 0));
      LegacyReadAsWritten(file).Panics? &&
      LegacyReadSpec(file) == Err(Parse("Insufficient data for v2.0"))
  {
    var bytes: seq<byte> := [100, 0, 2, 0] + seq(96, _ => 0);
    assert bytes[..4] == [100, 0, 2, 0];
    assert HeaderOf(bytes) == Header(100, 2, 0);
    assert |bytes[HEADER_SIZE..100]| == 96;
  }

  /** A header announcing a 3-byte structure underflows the body length. */
  lemma LegacyTinyStructureSizeUnderflows()
    ensures LegacyReadAsWritten(Ok([3, 0, 1, 0])).Panics?
    ensures LegacyReadSpec(Ok([3, 0, 1, 0])) == Err(Parse("Invalid structure size: 3"))
  {
    assert HeaderOf([3, 0, 1, 0]).structureSize == 3;
    assert NatToString(3) == "3";
    assert "Invalid structure size: " + "3" == "Invalid structure size: 3";
  }

  // ---------------------------------------------------------------------
  // Accessors (the `GpuMetrics` trait of `types.rs`)

  function LegacyHeader(m: LegacyMetrics): Header {
    match m
    case LegacyV1(a) => a.header
    case LegacyV2(b) => b.header
  }

  /** `get_temperature`: edge on v1, GFX on v2. */
  function LegacyTemperature(m: LegacyMetrics): (r: (u16, string))
    ensures m.LegacyV1? ==> r == (m.v1.temperatureEdge, "Edge")
    ensures m.LegacyV2? ==> r == (m.v2.temperatureGfx, "GFX")
  {
    match m
    case LegacyV1(a) => (a.temperatureEdge, "Edge")
    case LegacyV2(b) => (b.temperatureGfx, "GFX")
  }

  /** `get_power`: the average socket power on both layouts. */
  function LegacyPower(m: LegacyMetrics): (r: u16)
    ensures m.LegacyV1? ==> r == m.v1.averageSocketPower
    ensures m.LegacyV2? ==> r == m.v2.averageSocketPower
  {
    match m
    case LegacyV1(a) => a.averageSocketPower
    case LegacyV2(b) => b.averageSocketPower
  }

  /** `get_activity`. */
  function LegacyActivity(m: LegacyMetrics): (r: u16)
    ensures m.LegacyV1? ==> r == m.v1.averageGfxActivity
    ensures m.LegacyV2? ==> r == m.v2.averageGfxActivity
  {
    match m
    case LegacyV1(a) => a.averageGfxActivity
    case LegacyV2(b) => b.averageGfxActivity
  }

  /** `get_frequency`: the average GFX clock, not the current one. */
  function LegacyFrequency(m: LegacyMetrics): (r: u16)
    ensures m.LegacyV1? ==> r == m.v1.averageGfxclkFrequency
    ensures m.LegacyV2? ==> r == m.v2.averageGfxclkFrequency
  {
    match m
    case LegacyV1(a) => a.averageGfxclkFrequency
    case LegacyV2(b) => b.averageGfxclkFrequency
  }

  /** `get_throttle_status`, wrapped in the shared flag decoder. */
  function LegacyThrottle(m: LegacyMetrics): ThrottleStatus {
    match m
    case LegacyV1(a) => ThrottleStatus(a.throttleStatus as bv64)
    case LegacyV2(b) => ThrottleStatus(b.throttleStatus as bv64)
  }

  /** `get_fan_speed`: raw below 101 and scaled PWM above on v1, always scaled on v2. */
  function LegacyFanSpeed(m: LegacyMetrics): (r: (u16, bool))
    ensures m.LegacyV1? ==> (r.1 <==> m.v1.currentFanSpeed > 0)
    ensures m.LegacyV1? && m.v1.currentFanSpeed <= 100 ==> r.0 == m.v1.currentFanSpeed
    ensures m.LegacyV1? && m.v1.currentFanSpeed > 100 ==> r.0 == PwmPercent(m.v1.currentFanSpeed)
    ensures m.LegacyV2? ==> r == (PwmPercent(m.v2.fanPwm), m.v2.fanPwm > 0)
  {
    match m
    case LegacyV1(a) =>
      (if a.currentFanSpeed > 100 then PwmPercent(a.currentFanSpeed) else a.currentFanSpeed, a.currentFanSpeed > 0)
    case LegacyV2(b) => (PwmPercent(b.fanPwm), b.fanPwm > 0)
  }

  /** Against the full decoder on the same v1 record (one without the v1.3 current
      power): temperature, power, activity and fan speed agree, while the frequency
      is the average clock here and the current clock there. */
  lemma LegacyV1AgainstFullDecoder(a: GpuMetricsV1)
    requires a.currentSocketPower.None?
    ensures LegacyTemperature(LegacyV1(a)) == Temperature(V1(a))
    ensures LegacyPower(LegacyV1(a)) == Power(V1(a))
    ensures LegacyActivity(LegacyV1(a)) == Activity(V1(a))
    ensures LegacyFanSpeed(LegacyV1(a)) == FanSpeed(V1(a))
    ensures LegacyFrequency(LegacyV1(a)) == a.averageGfxclkFrequency && Frequency(V1(a)) == a.currentGfxclk
  {
  }

  /** The shared 13-entry table: a table name is listed exactly when its bit is set. */
  lemma LegacyThrottleFlags(m: LegacyMetrics, k: nat)
    requires k < FLAG_COUNT
    ensures FlagName(k) in ActiveFlagsOf(LegacyThrottle(m)) <==> BitSet(LegacyThrottle(m).word, k)
  {
    FlagsUpToMembership(LegacyThrottle(m).word, FLAG_COUNT, k);
  }
}
