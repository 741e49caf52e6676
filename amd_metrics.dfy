/** The AMD `gpu_metrics` decoder: the versioned header, the throttle-status
    bit decoder, the v1.x and v2.x layouts, the version-agnostic accessors and
    the single-slot caching reader. */
module AmdMetrics {
  import opened Wrappers
  import opened Text
  import opened LittleEndian
  import opened CoreLib
  import opened AmdGpuError

  // ---------------------------------------------------------------------
  // Header

  /** The 4-byte header that starts every blob. */
  datatype Header = Header(structureSize: u16, formatRevision: u8, contentRevision: u8)

  /** The header at the start of a blob: a little-endian size, then the two revisions. */
  function HeaderOf(data: seq<byte>): (h: Header)
    requires |data| >= 4
    ensures h.structureSize == ReadU16Le(data, 0)
    ensures h.formatRevision == data[2] && h.contentRevision == data[3]
  {
    Header(ReadU16Le(data, 0), data[2], data[3])
  }

  /** `Header::version`: "v{format}.{content}". */
  function Version(h: Header): (r: string)
    ensures |r| >= 4 && r[0] == 'v'
  {
    "v" + NatToString(h.formatRevision) + "." + NatToString(h.contentRevision)
  }

  /** The version string determines both revisions. */
  lemma VersionInjective(h1: Header, h2: Header)
    requires Version(h1) == Version(h2)
    ensures h1.formatRevision == h2.formatRevision
    ensures h1.contentRevision == h2.contentRevision
  {
    var a, b := NatToString(h1.formatRevision), NatToString(h1.contentRevision);
    var c, d := NatToString(h2.formatRevision), NatToString(h2.contentRevision);
    assert Version(h1)[1..] == a + ['.'] + b;
    assert Version(h2)[1..] == c + ['.'] + d;
    DigitsThenCharUnique(a, b, c, d, '.');
    NatToStringInjective(h1.formatRevision, h2.formatRevision);
    NatToStringInjective(h1.contentRevision, h2.contentRevision);
  }

  lemma VersionExample()
    ensures Version(Header(100, 1, 2)) == "v1.2"
    ensures Version(Header(0, 3, 0)) == "v3.0"
  {
  }

  /** `Header::is_supported`: v1.0-v1.3, v2.0-v2.1 and v3.0. */
  predicate IsSupported(h: Header) {
    (h.formatRevision == 1 && h.contentRevision <= 3)
    || (h.formatRevision == 2 && h.contentRevision <= 1)
    || (h.formatRevision == 3 && h.contentRevision == 0)
  }

  /** `Header::expected_size`, which grows by 4 bytes per content revision. */
  function ExpectedSize(h: Header): (r: Option<nat>)
    ensures r.Some? && h.formatRevision == 1 ==> r.value == 96 + 4 * h.contentRevision
    ensures r.Some? && h.formatRevision == 2 ==> r.value == 120 + 4 * h.contentRevision
  {
    match (h.formatRevision, h.contentRevision)
    case (1, 0) => Some(96)
    case (1, 1) => Some(100)
    case (1, 2) => Some(104)
    case (1, 3) => Some(108)
    case (2, 0) => Some(120)
    case (2, 1) => Some(124)
    case _ => None
  }

  /** The supported versions are those with a known size, plus v3.0, which has none. */
  lemma SupportedIffSized(h: Header)
    ensures IsSupported(h) <==> ExpectedSize(h).Some? || (h.formatRevision == 3 && h.contentRevision == 0)
    ensures ExpectedSize(h).Some? ==> h.formatRevision in {1, 2}
  {
  }

  // ---------------------------------------------------------------------
  // Throttle status

  /** The throttle-status word. */
  datatype ThrottleStatus = ThrottleStatus(word: bv64)

  /** The number of named throttle reasons. */
  const FLAG_COUNT: nat := 13

  /** The name of the `k`-th entry of the throttle-reason table. */
  function FlagName(k: nat): string
    requires k < FLAG_COUNT
  {
    match k
    case 0 => "PROCHOT_CPU"
    case 1 => "PROCHOT_GFX"
    case 2 => "PPT0"
    case 3 => "PPT1"
    case 4 => "PPT2"
    case 5 => "PPT3"
    case 6 => "SPL"
    case 7 => "FPPT"
    case 8 => "SPPT"
    case 9 => "SPPT_APU"
    case 10 => "THM_CORE"
    case 11 => "THM_GFX"
    case _ => "THM_SOC"
  }

  /** The bit of the `k`-th entry: bits 0-1, 16-23 and 32-34. */
  function FlagBit(k: nat): bv64
    requires k < FLAG_COUNT
  {
    match k
    case 0 => 1 << 0
    case 1 => 1 << 1
    case 2 => 1 << 16
    case 3 => 1 << 17
    case 4 => 1 << 18
    case 5 => 1 << 19
    case 6 => 1 << 20
    case 7 => 1 << 21
    case 8 => 1 << 22
    case 9 => 1 << 23
    case 10 => 1 << 32
    case 11 => 1 << 33
    case _ => 1 << 34
  }

  /** `word & flag != 0` for the `k`-th entry. */
  predicate BitSet(w: bv64, k: nat)
    requires k < FLAG_COUNT
  {
    w & FlagBit(k) != 0
  }

  const THERMAL_MASK: bv64 := 0x7_0000_0000
  const POWER_MASK: bv64 := 0xFF_0000

  predicate IsThrottling(t: ThrottleStatus) { t.word != 0 }
  predicate IsThermalThrottling(t: ThrottleStatus) { t.word & THERMAL_MASK != 0 }
  predicate IsPowerThrottling(t: ThrottleStatus) { t.word & POWER_MASK != 0 }

  /** The names of the first `n` table entries whose bit is set in `w`, in table order. */
  function FlagsUpTo(w: bv64, n: nat): (r: seq<string>)
    requires n <= FLAG_COUNT
    ensures |r| <= n
  {
    if n == 0 then []
    else FlagsUpTo(w, n - 1) + (if BitSet(w, n - 1) then [FlagName(n - 1)] else [])
  }

  /** The specification of `active_flags`. */
  function ActiveFlagsOf(t: ThrottleStatus): seq<string> {
    FlagsUpTo(t.word, FLAG_COUNT)
  }

  /** `ThrottleStatus::active_flags`: one pass over the table, keeping set bits. */
  method ActiveFlags(t: ThrottleStatus) returns (flags: seq<string>)
    ensures flags == ActiveFlagsOf(t)
  {
    flags := [];
    for k := 0 to FLAG_COUNT
      invariant flags == FlagsUpTo(t.word, k)
    {
      if BitSet(t.word, k) {
        flags := flags + [FlagName(k)];
      }
    }
  }

  lemma FlagNamesDistinct(j: nat, k: nat)
    requires j < FLAG_COUNT && k < FLAG_COUNT && j != k
    ensures FlagName(j) != FlagName(k)
  {
  }

  /** A reason is listed exactly when its table bit is set. */
  lemma {:induction false} FlagsUpToMembership(w: bv64, n: nat, k: nat)
    requires k < FLAG_COUNT && n <= FLAG_COUNT
    ensures FlagName(k) in FlagsUpTo(w, n) <==> k < n && BitSet(w, k)
  {
    if n > 0 {
      FlagsUpToMembership(w, n - 1, k);
      if k != n - 1 {
        FlagNamesDistinct(k, n - 1);
      }
    }
  }

  /** Only table names are ever listed. */
  lemma {:induction false} FlagsUpToNames(w: bv64, n: nat, name: string)
    requires n <= FLAG_COUNT
    requires name in FlagsUpTo(w, n)
    ensures exists k :: 0 <= k < n && FlagName(k) == name
  {
    if n > 0 && name !in FlagsUpTo(w, n - 1) {
      assert FlagName(n - 1) == name;
    } else if n > 0 {
      FlagsUpToNames(w, n - 1, name);
    }
  }

  /** `ThrottleStatus::severity`: the share of the 13 named reasons that are active. */
  function Severity(t: ThrottleStatus): (r: real)
    ensures 0.0 <= r <= 1.0
    ensures r == 0.0 <==> ActiveFlagsOf(t) == []
  {
    |ActiveFlagsOf(t)| as real / FLAG_COUNT as real
  }

  /** Thermal throttling is exactly one of the three THM reasons being listed. */
  lemma ThermalMeansThmFlag(t: ThrottleStatus)
    ensures IsThermalThrottling(t) <==> exists k :: 10 <= k < FLAG_COUNT && FlagName(k) in ActiveFlagsOf(t)
  {
    forall k | 0 <= k < FLAG_COUNT
      ensures FlagName(k) in ActiveFlagsOf(t) <==> BitSet(t.word, k)
    {
      FlagsUpToMembership(t.word, FLAG_COUNT, k);
    }
    var w := t.word;
    assert IsThermalThrottling(t) <==> BitSet(w, 10) || BitSet(w, 11) || BitSet(w, 12);
  }

  /** Power throttling is exactly one of the eight PPT/SPL/FPPT/SPPT reasons being listed. */
  lemma PowerMeansPowerFlag(t: ThrottleStatus)
    ensures IsPowerThrottling(t) <==> exists k :: 2 <= k < 10 && FlagName(k) in ActiveFlagsOf(t)
  {
    forall k | 0 <= k < FLAG_COUNT
      ensures FlagName(k) in ActiveFlagsOf(t) <==> BitSet(t.word, k)
    {
      FlagsUpToMembership(t.word, FLAG_COUNT, k);
    }
    var w := t.word;
    assert IsPowerThrottling(t) <==>
      (BitSet(w, 2) || BitSet(w, 3) || BitSet(w, 4) || BitSet(w, 5) ||
       BitSet(w, 6) || BitSet(w, 7) || BitSet(w, 8) || BitSet(w, 9));
  }

  /** PROCHOT_CPU together with PPT0: a power reason, not a thermal one. */
  lemma ThrottleExample()
    ensures ActiveFlagsOf(ThrottleStatus(0x10001)) == ["PROCHOT_CPU", "PPT0"]
    ensures IsThrottling(ThrottleStatus(0x10001))
    ensures IsPowerThrottling(ThrottleStatus(0x10001)) && !IsThermalThrottling(ThrottleStatus(0x10001))
  {
  }

  /** A bit outside the table makes the GPU throttle with severity 0. */
  lemma UnnamedBitHasNoSeverity()
    ensures IsThrottling(ThrottleStatus(0x100_0000_0000))
    ensures ActiveFlagsOf(ThrottleStatus(0x100_0000_0000)) == []
    ensures Severity(ThrottleStatus(0x100_0000_0000)) == 0.0
  {
  }

  // ---------------------------------------------------------------------
  // Layouts

  /** A v1.x blob (discrete GPUs). The optional groups appear with later content revisions. */
  datatype GpuMetricsV1 = GpuMetricsV1(
    header: Header,
    systemClockCounter: u64,
    temperatureEdge: u16,
    temperatureHotspot: u16,
    temperatureMem: u16,
    temperatureVrgfx: u16,
    temperatureVrsoc: u16,
    temperatureVrmem: u16,
    averageGfxActivity: u16,
    averageUmcActivity: u16,
    averageMmActivity: u16,
    averageSocketPower: u16,
    energyAccumulator: u64,
    averageGfxclkFrequency: u16,
    averageSocclkFrequency: u16,
    averageUclkFrequency: u16,
    averageVclk0Frequency: u16,
    averageDclk0Frequency: u16,
    averageVclk1Frequency: u16,
    averageDclk1Frequency: u16,
    currentGfxclk: u16,
    currentSocclk: u16,
    currentUclk: u16,
    currentVclk0: u16,
    currentDclk0: u16,
    currentVclk1: u16,
    currentDclk1: u16,
    throttleStatus: u64,
    currentFanSpeed: u16,
    pcieLinkWidth: u16,
    pcieLinkSpeed: u16,
    gfxVoltage: Option<u16>,
    socVoltage: Option<u16>,
    memVoltage: Option<u16>,
    indepThrottleStatus: Option<u64>,
    currentSocketPower: Option<u16>,
    vcnActivity: Option<seq<u16>>)

  /** A v2.x blob (APUs), with per-core and per-L3 arrays. */
  datatype GpuMetricsV2 = GpuMetricsV2(
    header: Header,
    systemClockCounter: u64,
    temperatureGfx: u16,
    temperatureSoc: u16,
    temperatureCore: seq<u16>,
    temperatureL3: seq<u16>,
    averageGfxActivity: u16,
    averageMmActivity: u16,
    averageSocketPower: u16,
    averageCpuPower: u16,
    averageSocPower: u16,
    averageGfxPower: u16,
    averageCorePower: seq<u16>,
    averageGfxclkFrequency: u16,
    averageSocclkFrequency: u16,
    averageUclkFrequency: u16,
    averageFclkFrequency: u16,
    averageVclkFrequency: u16,
    averageDclkFrequency: u16,
    currentGfxclk: u16,
    currentSocclk: u16,
    currentUclk: u16,
    currentFclk: u16,
    currentVclk: u16,
    currentDclk: u16,
    currentCoreclk: seq<u16>,
    currentL3clk: seq<u16>,
    throttleStatus: u64,
    fanPwm: u16,
    voltageSoc: Option<u16>,
    voltageGfx: Option<u16>,
    voltageMem: Option<u16>)

  /** The fixed array lengths of the Rust layouts (`[u16; 4]`, `[u16; 8]`, `[u16; 2]`). */
  predicate WellFormedV1(m: GpuMetricsV1) {
    m.vcnActivity.Some? ==> |m.vcnActivity.value| == 4
  }

  predicate WellFormedV2(m: GpuMetricsV2) {
    |m.temperatureCore| == 8 && |m.temperatureL3| == 2 && |m.averageCorePower| == 8
    && |m.currentCoreclk| == 8 && |m.currentL3clk| == 2
  }

  /** `n` consecutive little-endian `u16` values starting at `base`. */
  function U16Run(data: seq<byte>, base: nat, n: nat): (r: seq<u16>)
    requires base + 2 * n <= |data|
    ensures |r| == n
    ensures forall i :: 0 <= i < n ==> r[i] == ReadU16Le(data, base + 2 * i)
  {
    seq(n, i requires 0 <= i < n => ReadU16Le(data, base + 2 * i))
  }

  const V1_MIN_BODY: nat := 92
  const V2_MIN_BODY: nat := 116

  /** The v1.x base record (every field before the optional groups), read at the
      body offsets the decoder uses. */
  function BaseV1(h: Header, data: seq<byte>): (m: GpuMetricsV1)
    requires |data| >= V1_MIN_BODY
    ensures m.gfxVoltage.None? && m.socVoltage.None? && m.memVoltage.None?
    ensures m.indepThrottleStatus.None? && m.currentSocketPower.None? && m.vcnActivity.None?
  {
    GpuMetricsV1(
      h,
      ReadU64Le(data, 0),
      ReadU16Le(data, 8), ReadU16Le(data, 10), ReadU16Le(data, 12),
      ReadU16Le(data, 14), ReadU16Le(data, 16), ReadU16Le(data, 18),
      ReadU16Le(data, 20), ReadU16Le(data, 22), ReadU16Le(data, 24),
      ReadU16Le(data, 26),
      ReadU64Le(data, 28),
      ReadU16Le(data, 36), ReadU16Le(data, 38), ReadU16Le(data, 40), ReadU16Le(data, 42),
      ReadU16Le(data, 44), ReadU16Le(data, 46), ReadU16Le(data, 48),
      ReadU16Le(data, 50), ReadU16Le(data, 52), ReadU16Le(data, 54), ReadU16Le(data, 56),
      ReadU16Le(data, 58), ReadU16Le(data, 60), ReadU16Le(data, 62),
      ReadU64Le(data, 64),
      ReadU16Le(data, 72), ReadU16Le(data, 74), ReadU16Le(data, 76),
      None, None, None, None, None, None)
  }

  /** What `parse_v1_metrics` builds from the body that follows the header. */
  function ParseV1Spec(h: Header, data: seq<byte>): Result<GpuMetricsV1, SensorError> {
    if |data| < V1_MIN_BODY then Err(Parse("Insufficient data for v1.x metrics"))
    else
      var rev := h.contentRevision;
      var g1 := rev >= 1 && |data| >= 82;
      var g2 := rev >= 2 && |data| >= 90;
      var g3 := rev >= 3 && |data| >= 102;
      Ok(BaseV1(h, data).(
        gfxVoltage := if g1 then Some(ReadU16Le(data, 78)) else None,
        socVoltage := if g1 then Some(ReadU16Le(data, 80)) else None,
        memVoltage := if g2 then Some(ReadU16Le(data, 82)) else None,
        indepThrottleStatus := if g2 then Some(ReadU64Le(data, 84)) else None,
        currentSocketPower := if g3 then Some(ReadU16Le(data, 92)) else None,
        vcnActivity := if g3 then Some(U16Run(data, 94, 4)) else None))
  }

  /** `parse_v1_metrics`: the base record, then the optional groups, with the
      VCN activity array filled in a loop. */
  method ParseV1Metrics(h: Header, data: seq<byte>) returns (r: Result<GpuMetricsV1, SensorError>)
    ensures r == ParseV1Spec(h, data)
  {
    if |data| < V1_MIN_BODY {
      return Err(Parse("Insufficient data for v1.x metrics"));
    }
    var metrics := BaseV1(h, data);
    if h.contentRevision >= 1 && |data| >= 82 {
      metrics := metrics.(gfxVoltage := Some(ReadU16Le(data, 78)), socVoltage := Some(ReadU16Le(data, 80)));
    }
    if h.contentRevision >= 2 && |data| >= 90 {
      metrics := metrics.(memVoltage := Some(ReadU16Le(data, 82)), indepThrottleStatus := Some(ReadU64Le(data, 84)));
    }
    if h.contentRevision >= 3 && |data| >= 102 {
      metrics := metrics.(currentSocketPower := Some(ReadU16Le(data, 92)));
      var vcn := ReadU16Array(data, 94, 4);
      metrics := metrics.(vcnActivity := Some(vcn[..]));
    }
    return Ok(metrics);
  }

  /** The v2.x record without the optional voltages, given the five arrays. */
  function BaseV2(h: Header, data: seq<byte>, temperatureCore: seq<u16>, temperatureL3: seq<u16>,
                  averageCorePower: seq<u16>, currentCoreclk: seq<u16>, currentL3clk: seq<u16>): (m: GpuMetricsV2)
    requires |data| >= V2_MIN_BODY
    ensures m.voltageSoc.None? && m.voltageGfx.None? && m.voltageMem.None?
  {
    GpuMetricsV2(
      h,
      ReadU64Le(data, 0),
      ReadU16Le(data, 8), ReadU16Le(data, 10),
      temperatureCore, temperatureL3,
      ReadU16Le(data, 36), ReadU16Le(data, 38),
      ReadU16Le(data, 40), ReadU16Le(data, 42), ReadU16Le(data, 44), ReadU16Le(data, 46),
      averageCorePower,
      ReadU16Le(data, 70), ReadU16Le(data, 72), ReadU16Le(data, 74),
      ReadU16Le(data, 76), ReadU16Le(data, 78), ReadU16Le(data, 80),
      ReadU16Le(data, 82), ReadU16Le(data, 84), ReadU16Le(data, 86),
      ReadU16Le(data, 88), ReadU16Le(data, 90), ReadU16Le(data, 92),
      currentCoreclk, currentL3clk,
      ReadU64Le(data, 104),
      ReadU16Le(data, 112),
      None, None, None)
  }

  /** What `parse_v2_metrics` builds from the body that follows the header. */
  function ParseV2Spec(h: Header, data: seq<byte>): Result<GpuMetricsV2, SensorError> {
    if |data| < V2_MIN_BODY then Err(Parse("Insufficient data for v2.x metrics"))
    else
      var g1 := h.contentRevision >= 1 && |data| >= 122;
      Ok(BaseV2(h, data, U16Run(data, 16, 8), U16Run(data, 32, 2), U16Run(data, 54, 8),
                U16Run(data, 84, 8), U16Run(data, 100, 2)).(
        voltageSoc := if g1 then Some(ReadU16Le(data, 114)) else None,
        voltageGfx := if g1 then Some(ReadU16Le(data, 116)) else None,
        voltageMem := if g1 then Some(ReadU16Le(data, 118)) else None))
  }

  /** A fresh `[u16; n]` filled in a loop with the `n` little-endian values at `base`. */
  method ReadU16Array(data: seq<byte>, base: nat, n: nat) returns (a: array<u16>)
    requires base + 2 * n <= |data|
    ensures fresh(a) && a[..] == U16Run(data, base, n)
  {
    a := new u16[n];
    for i := 0 to n
      invariant forall k :: 0 <= k < i ==> a[k] == ReadU16Le(data, base + k * 2)
    {
      a[i] := ReadU16Le(data, base + i * 2);
    }
  }

  /** `parse_v2_metrics`: the five fixed arrays are filled in loops first, then
      the record and the optional v2.1 voltages. */
  method ParseV2Metrics(h: Header, data: seq<byte>) returns (r: Result<GpuMetricsV2, SensorError>)
    ensures r == ParseV2Spec(h, data)
  {
    if |data| < V2_MIN_BODY {
      return Err(Parse("Insufficient data for v2.x metrics"));
    }
    var temperatureCore := ReadU16Array(data, 16, 8);
    var temperatureL3 := ReadU16Array(data, 32, 2);
    var averageCorePower := ReadU16Array(data, 54, 8);
    var currentCoreclk := ReadU16Array(data, 84, 8);
    var currentL3clk := ReadU16Array(data, 100, 2);
    var metrics := BaseV2(h, data, temperatureCore[..], temperatureL3[..], averageCorePower[..],
                          currentCoreclk[..], currentL3clk[..]);
    if h.contentRevision >= 1 && |data| >= 122 {
      metrics := metrics.(voltageSoc := Some(ReadU16Le(data, 114)),
                          voltageGfx := Some(ReadU16Le(data, 116)),
                          voltageMem := Some(ReadU16Le(data, 118)));
    }
    return Ok(metrics);
  }

  // ---------------------------------------------------------------------
  // Dispatch

  /** A decoded blob of either layout (the `Box<dyn GpuMetrics>` the reader returns). */
  datatype Metrics = V1(v1: GpuMetricsV1) | V2(v2: GpuMetricsV2)

  /** What `parse_metrics_from_bytes` returns for a whole blob. */
  function ParseMetricsSpec(data: seq<byte>): Result<Metrics, SensorError> {
    if |data| < 4 then Err(Parse("Insufficient data for header"))
    else
      var h := HeaderOf(data);
      if !IsSupported(h) then Err(Parse("Unsupported GPU metrics version: " + Version(h)))
      else if h.formatRevision == 1 then
        match ParseV1Spec(h, data[4..])
        case Ok(m) => Ok(V1(m))
        case Err(e) => Err(e)
      else if h.formatRevision == 2 then
        match ParseV2Spec(h, data[4..])
        case Ok(m) => Ok(V2(m))
        case Err(e) => Err(e)
      else Err(Parse("Unsupported format version: v" + NatToString(h.formatRevision) + "."
                     + NatToString(h.contentRevision)))
  }

  /** `parse_metrics_from_bytes`: header, version check, then the layout parser
      chosen by the format revision. */
  method ParseMetricsFromBytes(data: seq<byte>) returns (r: Result<Metrics, SensorError>)
    ensures r == ParseMetricsSpec(data)
  {
    if |data| < 4 {
      return Err(Parse("Insufficient data for header"));
    }
    var header := Header(ReadU16Le(data, 0), data[2], data[3]);
    if !IsSupported(header) {
      return Err(Parse("Unsupported GPU metrics version: " + Version(header)));
    }
    var dataSlice := data[4..];
    if header.formatRevision == 1 {
      var p := ParseV1Metrics(header, dataSlice);
      r := if p.Ok? then Ok(V1(p.value)) else Err(p.error);
    } else if header.formatRevision == 2 {
      var p := ParseV2Metrics(header, dataSlice);
      r := if p.Ok? then Ok(V2(p.value)) else Err(p.error);
    } else {
      r := Err(Parse("Unsupported format version: v" + NatToString(header.formatRevision) + "."
                     + NatToString(header.contentRevision)));
    }
  }

  /** Short input and unsupported versions are rejected before any layout is read. */
  lemma ParseRejections(data: seq<byte>)
    ensures |data| < 4 ==> ParseMetricsSpec(data) == Err(Parse("Insufficient data for header"))
    ensures |data| >= 4 && !IsSupported(HeaderOf(data)) ==>
      ParseMetricsSpec(data) == Err(Parse("Unsupported GPU metrics version: " + Version(HeaderOf(data))))
    ensures ParseMetricsSpec(data).Ok? ==> |data| >= 4 && IsSupported(HeaderOf(data))
  {
  }

  /** v3.0 passes the version check, but no parser accepts it. */
  lemma V3IsSupportedButRejected(data: seq<byte>)
    requires |data| >= 4 && data[2] == 3 && data[3] == 0
    ensures IsSupported(HeaderOf(data))
    ensures ParseMetricsSpec(data) == Err(Parse("Unsupported format version: v3.0"))
  {
    assert NatToString(3) == "3" && NatToString(0) == "0";
    assert "Unsupported format version: v" + "3" + "." + "0" == "Unsupported format version: v3.0";
  }

  /** A decoded blob carries the header it was read from, in the layout its format names. */
  lemma ParseKeepsHeader(data: seq<byte>)
    requires ParseMetricsSpec(data).Ok?
    ensures var m := ParseMetricsSpec(data).value;
      (m.V1? <==> data[2] == 1) && (m.V2? <==> data[2] == 2) &&
      (m.V1? ==> m.v1.header == HeaderOf(data) && WellFormedV1(m.v1)) &&
      (m.V2? ==> m.v2.header == HeaderOf(data) && WellFormedV2(m.v2))
  {
  }

  /** The body length each layout needs; the header is not counted. */
  lemma LayoutGuards(h: Header, body: seq<byte>)
    ensures ParseV1Spec(h, body).Err? <==> |body| < 92
    ensures ParseV2Spec(h, body).Err? <==> |body| < 116
  {
  }

  /** Every v1 base field is the little-endian integer at its offset in the whole
      blob, that is 4 bytes past its offset in the body. */
  lemma V1FieldOffsets(data: seq<byte>)
    requires ParseMetricsSpec(data).Ok? && ParseMetricsSpec(data).value.V1?
    ensures |data| >= 96
    ensures var m := ParseMetricsSpec(data).value.v1;
      m.systemClockCounter == ReadU64Le(data, 4) &&
      m.temperatureEdge == ReadU16Le(data, 12) && m.temperatureHotspot == ReadU16Le(data, 14) &&
      m.temperatureMem == ReadU16Le(data, 16) && m.temperatureVrgfx == ReadU16Le(data, 18) &&
      m.temperatureVrsoc == ReadU16Le(data, 20) && m.temperatureVrmem == ReadU16Le(data, 22) &&
      m.averageGfxActivity == ReadU16Le(data, 24) && m.averageUmcActivity == ReadU16Le(data, 26) &&
      m.averageMmActivity == ReadU16Le(data, 28) && m.averageSocketPower == ReadU16Le(data, 30) &&
      m.energyAccumulator == ReadU64Le(data, 32) &&
      m.averageGfxclkFrequency == ReadU16Le(data, 40) && m.averageSocclkFrequency == ReadU16Le(data, 42) &&
      m.averageUclkFrequency == ReadU16Le(data, 44) && m.averageVclk0Frequency == ReadU16Le(data, 46) &&
      m.averageDclk0Frequency == ReadU16Le(data, 48) && m.averageVclk1Frequency == ReadU16Le(data, 50) &&
      m.averageDclk1Frequency == ReadU16Le(data, 52) &&
      m.currentGfxclk == ReadU16Le(data, 54) && m.currentSocclk == ReadU16Le(data, 56) &&
      m.currentUclk == ReadU16Le(data, 58) && m.currentVclk0 == ReadU16Le(data, 60) &&
      m.currentDclk0 == ReadU16Le(data, 62) && m.currentVclk1 == ReadU16Le(data, 64) &&
      m.currentDclk1 == ReadU16Le(data, 66) &&
      m.throttleStatus == ReadU64Le(data, 68) &&
      m.currentFanSpeed == ReadU16Le(data, 76) && m.pcieLinkWidth == ReadU16Le(data, 78) &&
      m.pcieLinkSpeed == ReadU16Le(data, 80)
  {
    var h := HeaderOf(data);
    var body := data[4..];
    assert ParseMetricsSpec(data).value.v1 == ParseV1Spec(h, body).value;
    HeaderShift(data);
  }

  /** Reading the body at `k` is reading the whole blob at `k + 4`. */
  lemma HeaderShift(data: seq<byte>)
    requires |data| >= 4
    ensures forall k: nat :: k + 2 <= |data| - 4 ==> ReadU16Le(data[4..], k) == ReadU16Le(data, k + 4)
    ensures forall k: nat :: k + 8 <= |data| - 4 ==> ReadU64Le(data[4..], k) == ReadU64Le(data, k + 4)
  {
  }

  /** Which optional v1 groups a body yields, and where they are read. */
  lemma V1OptionalFields(h: Header, body: seq<byte>)
    requires ParseV1Spec(h, body).Ok?
    ensures var m := ParseV1Spec(h, body).value;
      (m.gfxVoltage.Some? <==> h.contentRevision >= 1 && |body| >= 82) &&
      (m.socVoltage.Some? <==> m.gfxVoltage.Some?) &&
      (m.memVoltage.Some? <==> h.contentRevision >= 2 && |body| >= 90) &&
      (m.indepThrottleStatus.Some? <==> m.memVoltage.Some?) &&
      (m.currentSocketPower.Some? <==> h.contentRevision >= 3 && |body| >= 102) &&
      (m.vcnActivity.Some? <==> m.currentSocketPower.Some?) &&
      (m.gfxVoltage.Some? ==> m.gfxVoltage.value == ReadU16Le(body, 78) && m.socVoltage.value == ReadU16Le(body, 80)) &&
      (m.memVoltage.Some? ==> m.memVoltage.value == ReadU16Le(body, 82) && m.indepThrottleStatus.value == ReadU64Le(body, 84)) &&
      (m.currentSocketPower.Some? ==>
         m.currentSocketPower.value == ReadU16Le(body, 92) &&
         forall i :: 0 <= i < 4 ==> m.vcnActivity.value[i] == ReadU16Le(body, 94 + 2 * i))
  {
  }

  /** Because the base guard already asks for 92 bytes, the voltage groups of an
      accepted v1 body depend on the content revision alone. */
  lemma V1VoltagesFollowRevision(h: Header, body: seq<byte>)
    requires ParseV1Spec(h, body).Ok?
    ensures ParseV1Spec(h, body).value.gfxVoltage.Some? <==> h.contentRevision >= 1
    ensures ParseV1Spec(h, body).value.memVoltage.Some? <==> h.contentRevision >= 2
  {
  }

  /** A v1.3 body of the full 104 bytes carries every optional group. */
  lemma V1FullRevisionThree(h: Header, body: seq<byte>)
    requires h.contentRevision == 3 && |body| == 104
    ensures ParseV1Spec(h, body).Ok?
    ensures var m := ParseV1Spec(h, body).value;
      m.gfxVoltage.Some? && m.memVoltage.Some? && m.currentSocketPower.Some? && m.vcnActivity.Some?
  {
  }

  /** The v2 arrays and optional voltages, at their body offsets. */
  lemma V2Layout(h: Header, body: seq<byte>)
    requires ParseV2Spec(h, body).Ok?
    ensures var m := ParseV2Spec(h, body).value;
      WellFormedV2(m) &&
      (forall i :: 0 <= i < 8 ==> m.temperatureCore[i] == ReadU16Le(body, 16 + 2 * i)) &&
      (forall i :: 0 <= i < 2 ==> m.temperatureL3[i] == ReadU16Le(body, 32 + 2 * i)) &&
      (forall i :: 0 <= i < 8 ==> m.averageCorePower[i] == ReadU16Le(body, 54 + 2 * i)) &&
      (forall i :: 0 <= i < 8 ==> m.currentCoreclk[i] == ReadU16Le(body, 84 + 2 * i)) &&
      (forall i :: 0 <= i < 2 ==> m.currentL3clk[i] == ReadU16Le(body, 100 + 2 * i)) &&
      m.throttleStatus == ReadU64Le(body, 104) && m.fanPwm == ReadU16Le(body, 112) &&
      (m.voltageSoc.Some? <==> h.contentRevision >= 1 && |body| >= 122) &&
      (m.voltageGfx.Some? <==> m.voltageSoc.Some?) && (m.voltageMem.Some? <==> m.voltageSoc.Some?) &&
      (m.voltageSoc.Some? ==>
         m.voltageSoc.value == ReadU16Le(body, 114) &&
         m.voltageGfx.value == ReadU16Le(body, 116) && m.voltageMem.value == ReadU16Le(body, 118))
  {
  }

  /** The v2 layout reads the SOC clock and the first core clock from the same offset. */
  lemma V2SocclkAliasesFirstCoreClock(h: Header, body: seq<byte>)
    requires ParseV2Spec(h, body).Ok?
    ensures ParseV2Spec(h, body).value.currentSocclk == ParseV2Spec(h, body).value.currentCoreclk[0]
  {
  }

  // ---------------------------------------------------------------------
  // Accessors (the `GpuMetrics` trait)

  /** `format!("{prefix}{i}{suffix}")`. */
  function Label(prefix: string, i: nat, suffix: string): string {
    prefix + NatToString(i) + suffix
  }

  /** Inserting `Label(prefix, i, suffix) -> vs[i]` into a map for each index in turn. */
  function IndexedMap(prefix: string, suffix: string, vs: seq<u16>): map<string, u16> {
    if vs == [] then map[]
    else IndexedMap(prefix, suffix, vs[..|vs| - 1])[Label(prefix, |vs| - 1, suffix) := vs[|vs| - 1]]
  }

  /** `(Label(prefix, i, suffix), vs[i])` for each index, in order. */
  function Labeled(prefix: string, suffix: string, vs: seq<u16>): (r: seq<(string, u16)>)
    ensures |r| == |vs|
    ensures forall i :: 0 <= i < |vs| ==> r[i] == (Label(prefix, i, suffix), vs[i])
  {
    seq(|vs|, i requires 0 <= i < |vs| => (Label(prefix, i, suffix), vs[i]))
  }

  /** Every index gets its own entry: labels of different indices never collide. */
  lemma {:induction false} IndexedMapLookup(prefix: string, suffix: string, vs: seq<u16>, i: nat)
    requires i < |vs|
    ensures Label(prefix, i, suffix) in IndexedMap(prefix, suffix, vs)
    ensures IndexedMap(prefix, suffix, vs)[Label(prefix, i, suffix)] == vs[i]
  {
    var n := |vs| - 1;
    if i < n {
      IndexedMapLookup(prefix, suffix, vs[..n], i);
      assert vs[..n][i] == vs[i];
      if Label(prefix, n, suffix) == Label(prefix, i, suffix) {
        LabelInjective(prefix, n, i, suffix);
      }
    }
  }

  /** ... and there are no other entries. */
  lemma {:induction false} IndexedMapKeys(prefix: string, suffix: string, vs: seq<u16>, k: string)
    requires k in IndexedMap(prefix, suffix, vs)
    ensures StartsWith(k, prefix)
    ensures exists i :: 0 <= i < |vs| && k == Label(prefix, i, suffix)
  {
    var n := |vs| - 1;
    if k != Label(prefix, n, suffix) {
      IndexedMapKeys(prefix, suffix, vs[..n], k);
    } else {
      assert k[..|prefix|] == prefix;
    }
  }

  /** A key that differs from the prefix at some position is not an entry. */
  lemma NotIndexedKey(prefix: string, suffix: string, vs: seq<u16>, k: string, j: nat)
    requires j < |prefix| && j < |k| && k[j] != prefix[j]
    ensures k !in IndexedMap(prefix, suffix, vs)
  {
    if k in IndexedMap(prefix, suffix, vs) {
      IndexedMapKeys(prefix, suffix, vs, k);
    }
  }

  /** `get_header`. */
  function MetricsHeader(m: Metrics): Header {
    match m
    case V1(a) => a.header
    case V2(b) => b.header
  }

  /** `get_temperature`: the edge sensor on v1, the GFX sensor on v2. */
  function Temperature(m: Metrics): (r: (u16, string))
    ensures m.V1? ==> r == (m.v1.temperatureEdge, "Edge")
    ensures m.V2? ==> r == (m.v2.temperatureGfx, "GFX")
  {
    match m
    case V1(a) => (a.temperatureEdge, "Edge")
    case V2(b) => (b.temperatureGfx, "GFX")
  }

  /** `get_all_temperatures`. */
  function AllTemperatures(m: Metrics): seq<(string, u16)> {
    match m
    case V1(a) => [("Edge", a.temperatureEdge), ("Hotspot", a.temperatureHotspot),
                   ("Memory", a.temperatureMem), ("VR GFX", a.temperatureVrgfx),
                   ("VR SOC", a.temperatureVrsoc), ("VR Mem", a.temperatureVrmem)]
    case V2(b) => [("GFX", b.temperatureGfx), ("SOC", b.temperatureSoc)]
                  + Labeled("Core", "", b.temperatureCore) + Labeled("L3_", "", b.temperatureL3)
  }

  /** The primary temperature opens the full list, which has 6 entries on v1 and
      2 + 8 cores + 2 L3 slices on v2. */
  lemma TemperatureListShape(m: Metrics)
    requires m.V2? ==> WellFormedV2(m.v2)
    ensures var all := AllTemperatures(m);
      |all| == (if m.V1? then 6 else 12) &&
      all[0] == (Temperature(m).1, Temperature(m).0)
    ensures m.V2? ==> forall i :: 0 <= i < 8 ==>
      AllTemperatures(m)[2 + i] == (Label("Core", i, ""), m.v2.temperatureCore[i])
  {
  }

  /** `get_power`: v1 prefers the current socket power (v1.3) over the average. */
  function Power(m: Metrics): (r: u16)
    ensures m.V1? && m.v1.currentSocketPower.Some? ==> r == m.v1.currentSocketPower.value
    ensures m.V1? && m.v1.currentSocketPower.None? ==> r == m.v1.averageSocketPower
    ensures m.V2? ==> r == m.v2.averageSocketPower
  {
    match m
    case V1(a) => a.currentSocketPower.UnwrapOr(a.averageSocketPower)
    case V2(b) => b.averageSocketPower
  }

  /** `get_power_breakdown`. */
  function PowerBreakdown(m: Metrics): map<string, u16> {
    match m
    case V1(a) =>
      map["Socket" := a.averageSocketPower]
      + (if a.currentSocketPower.Some? then map["Current Socket" := a.currentSocketPower.value] else map[])
    case V2(b) =>
      map["Socket" := b.averageSocketPower, "CPU" := b.averageCpuPower,
          "SOC" := b.averageSocPower, "GFX" := b.averageGfxPower]
      + IndexedMap("Core", "", b.averageCorePower)
  }

  /** The reported power is the breakdown's current-socket entry when there is one,
      and its socket entry otherwise; v2 also lists each core. */
  lemma PowerIsInBreakdown(m: Metrics)
    ensures "Socket" in PowerBreakdown(m)
    ensures ("Current Socket" in PowerBreakdown(m)) <==> m.V1? && m.v1.currentSocketPower.Some?
    ensures "Current Socket" in PowerBreakdown(m) ==> Power(m) == PowerBreakdown(m)["Current Socket"]
    ensures "Current Socket" !in PowerBreakdown(m) ==> Power(m) == PowerBreakdown(m)["Socket"]
    ensures m.V2? ==> forall i :: 0 <= i < |m.v2.averageCorePower| ==>
      Label("Core", i, "") in PowerBreakdown(m) && PowerBreakdown(m)[Label("Core", i, "")] == m.v2.averageCorePower[i]
  {
    if m.V2? {
      var cores := IndexedMap("Core", "", m.v2.averageCorePower);
      NotIndexedKey("Core", "", m.v2.averageCorePower, "Socket", 0);
      NotIndexedKey("Core", "", m.v2.averageCorePower, "Current Socket", 1);
      forall i | 0 <= i < |m.v2.averageCorePower|
        ensures Label("Core", i, "") in cores && cores[Label("Core", i, "")] == m.v2.averageCorePower[i]
      {
        IndexedMapLookup("Core", "", m.v2.averageCorePower, i);
      }
    }
  }

  /** `get_activity`: the average GFX activity. */
  function Activity(m: Metrics): (r: u16)
    ensures m.V1? ==> r == m.v1.averageGfxActivity
    ensures m.V2? ==> r == m.v2.averageGfxActivity
  {
    match m
    case V1(a) => a.averageGfxActivity
    case V2(b) => b.averageGfxActivity
  }

  /** `get_activity_breakdown`. */
  function ActivityBreakdown(m: Metrics): map<string, u16> {
    match m
    case V1(a) =>
      map["GFX" := a.averageGfxActivity, "UMC" := a.averageUmcActivity, "MM" := a.averageMmActivity]
      + (if a.vcnActivity.Some? then IndexedMap("VCN", "", a.vcnActivity.value) else map[])
    case V2(b) => map["GFX" := b.averageGfxActivity, "MM" := b.averageMmActivity]
  }

  /** The breakdown's GFX entry is the reported activity, and v1.3 adds one VCN entry per engine. */
  lemma ActivityIsInBreakdown(m: Metrics)
    ensures "GFX" in ActivityBreakdown(m) && ActivityBreakdown(m)["GFX"] == Activity(m)
    ensures m.V1? && m.v1.vcnActivity.Some? ==> forall i :: 0 <= i < |m.v1.vcnActivity.value| ==>
      Label("VCN", i, "") in ActivityBreakdown(m) &&
      ActivityBreakdown(m)[Label("VCN", i, "")] == m.v1.vcnActivity.value[i]
  {
    if m.V1? && m.v1.vcnActivity.Some? {
      var vcn := m.v1.vcnActivity.value;
      NotIndexedKey("VCN", "", vcn, "GFX", 0);
      forall i | 0 <= i < |vcn|
        ensures Label("VCN", i, "") in IndexedMap("VCN", "", vcn) &&
                IndexedMap("VCN", "", vcn)[Label("VCN", i, "")] == vcn[i]
      {
        IndexedMapLookup("VCN", "", vcn, i);
      }
    }
  }

  /** `get_frequency`: the current GFX clock. */
  function Frequency(m: Metrics): (r: u16)
    ensures m.V1? ==> r == m.v1.currentGfxclk
    ensures m.V2? ==> r == m.v2.currentGfxclk
  {
    match m
    case V1(a) => a.currentGfxclk
    case V2(b) => b.currentGfxclk
  }

  /** `get_all_frequencies`. */
  function AllFrequencies(m: Metrics): map<string, u16> {
    match m
    case V1(a) => V1Frequencies(a)
    case V2(b) =>
      V2Frequencies(b) + IndexedMap("Core", "_CLK", b.currentCoreclk) + IndexedMap("L3_", "_CLK", b.currentL3clk)
  }

  /** The named clocks of a version 1 table. */
  function V1Frequencies(a: GpuMetricsV1): map<string, u16> {
    map["GFX Current" := a.currentGfxclk, "GFX Average" := a.averageGfxclkFrequency,
        "SOC Current" := a.currentSocclk, "SOC Average" := a.averageSocclkFrequency,
        "UCLK Current" := a.currentUclk, "UCLK Average" := a.averageUclkFrequency,
        "VCLK0 Current" := a.currentVclk0, "VCLK0 Average" := a.averageVclk0Frequency,
        "DCLK0 Current" := a.currentDclk0, "DCLK0 Average" := a.averageDclk0Frequency,
        "VCLK1 Current" := a.currentVclk1, "VCLK1 Average" := a.averageVclk1Frequency,
        "DCLK1 Current" := a.currentDclk1, "DCLK1 Average" := a.averageDclk1Frequency]
  }

  /** The named clocks of a version 2 table, before the per-core and L3 entries. */
  function V2Frequencies(b: GpuMetricsV2): map<string, u16> {
    map["GFX Current" := b.currentGfxclk, "GFX Average" := b.averageGfxclkFrequency,
        "SOC Current" := b.currentSocclk, "SOC Average" := b.averageSocclkFrequency,
        "UCLK Current" := b.currentUclk, "UCLK Average" := b.averageUclkFrequency,
        "FCLK Current" := b.currentFclk, "FCLK Average" := b.averageFclkFrequency,
        "VCLK Current" := b.currentVclk, "VCLK Average" := b.averageVclkFrequency,
        "DCLK Current" := b.currentDclk, "DCLK Average" := b.averageDclkFrequency]
  }

  /** The table's "GFX Current" entry is the reported frequency. */
  lemma FrequencyIsInTable(m: Metrics)
    ensures "GFX Current" in AllFrequencies(m) && AllFrequencies(m)["GFX Current"] == Frequency(m)
  {
    if m.V2? {
      NotIndexedKey("Core", "_CLK", m.v2.currentCoreclk, "GFX Current", 0);
      NotIndexedKey("L3_", "_CLK", m.v2.currentL3clk, "GFX Current", 0);
    }
  }

  /** `get_throttle_status`. */
  function Throttle(m: Metrics): ThrottleStatus {
    match m
    case V1(a) => ThrottleStatus(a.throttleStatus as bv64)
    case V2(b) => ThrottleStatus(b.throttleStatus as bv64)
  }

  /** `(pwm / 255.0 * 100.0) as u16`, computed exactly. */
  function PwmPercent(raw: u16): (r: u16)
    ensures r * 255 <= raw * 100 < (r + 1) * 255
  {
    raw * 100 / 255
  }

  /** `get_fan_speed`: (speed, has_fan). v1 scales a raw value above 100 as PWM and
      keeps smaller values as a percentage; v2 always scales. */
  function FanSpeed(m: Metrics): (r: (u16, bool))
    ensures m.V1? ==> (r.1 <==> m.v1.currentFanSpeed > 0)
    ensures m.V1? && m.v1.currentFanSpeed <= 100 ==> r.0 == m.v1.currentFanSpeed
    ensures m.V1? && m.v1.currentFanSpeed > 100 ==> r.0 == PwmPercent(m.v1.currentFanSpeed)
    ensures m.V2? ==> r == (PwmPercent(m.v2.fanPwm), m.v2.fanPwm > 0)
  {
    match m
    case V1(a) =>
      var speed := if a.currentFanSpeed > 100 then PwmPercent(a.currentFanSpeed) else a.currentFanSpeed;
      (speed, a.currentFanSpeed > 0)
    case V2(b) => (PwmPercent(b.fanPwm), b.fanPwm > 0)
  }

  /** A fan value within the PWM range 0-255 always reads as at most 100 %. */
  lemma FanSpeedIsPercentForPwmRange(m: Metrics)
    requires m.V1? ==> m.v1.currentFanSpeed <= 255
    requires m.V2? ==> m.v2.fanPwm <= 255
    ensures FanSpeed(m).0 <= 100
  {
  }

  /** `MemoryInfo`. */
  datatype MemoryInfo = MemoryInfo(totalVram: Option<u64>, usedVram: Option<u64>,
                                   memoryFrequency: Option<u16>, memoryUtilization: Option<u16>)

  /** `VoltageInfo`. */
  datatype VoltageInfo = VoltageInfo(coreVoltage: Option<u16>, socVoltage: Option<u16>, memoryVoltage: Option<u16>)

  /** `get_memory_info`: the memory clock on both layouts, the UMC activity on v1 only. */
  function MemoryInfoOf(m: Metrics): (r: Option<MemoryInfo>)
    ensures r.Some? && r.value.totalVram.None? && r.value.usedVram.None?
    ensures r.value.memoryFrequency == Some(AllFrequencies(m)["UCLK Current"])
    ensures r.value.memoryUtilization.Some? <==> m.V1?
  {
    match m
    case V1(a) => Some(MemoryInfo(None, None, Some(a.currentUclk), Some(a.averageUmcActivity)))
    case V2(b) =>
      NotIndexedKey("Core", "_CLK", b.currentCoreclk, "UCLK Current", 0);
      NotIndexedKey("L3_", "_CLK", b.currentL3clk, "UCLK Current", 0);
      Some(MemoryInfo(None, None, Some(b.currentUclk), None))
  }

  /** `get_voltage_info`: the optional voltages of either layout; a v1.0 blob has none. */
  function VoltageInfoOf(m: Metrics): (r: Option<VoltageInfo>)
    ensures r.Some?
    ensures m.V1? ==> r.value == VoltageInfo(m.v1.gfxVoltage, m.v1.socVoltage, m.v1.memVoltage)
    ensures m.V2? ==> r.value == VoltageInfo(m.v2.voltageGfx, m.v2.voltageSoc, m.v2.voltageMem)
  {
    match m
    case V1(a) => Some(VoltageInfo(a.gfxVoltage, a.socVoltage, a.memVoltage))
    case V2(b) => Some(VoltageInfo(b.voltageGfx, b.voltageSoc, b.voltageMem))
  }

  /** `get_system_clock_counter`. */
  function SystemClockCounter(m: Metrics): u64 {
    match m
    case V1(a) => a.systemClockCounter
    case V2(b) => b.systemClockCounter
  }

  /** `get_power_efficiency`: activity per watt, 0 without power. */
  function PowerEfficiency(m: Metrics): (r: real)
    ensures r >= 0.0
    ensures Power(m) == 0 ==> r == 0.0
    ensures Power(m) > 0 ==> r * Power(m) as real == Activity(m) as real
  {
    if Power(m) > 0 then Activity(m) as real / Power(m) as real else 0.0
  }

  /** `get_thermal_efficiency`: activity per degree of the primary temperature, 0 at 0. */
  function ThermalEfficiency(m: Metrics): (r: real)
    ensures r >= 0.0
    ensures Temperature(m).0 == 0 ==> r == 0.0
    ensures Temperature(m).0 > 0 ==> r * Temperature(m).0 as real == Activity(m) as real
  {
    var t := Temperature(m).0;
    if t > 0 then Activity(m) as real / t as real else 0.0
  }

  /** 80 % activity at 200 W average socket power and 60 degrees at the edge. */
  lemma EfficiencyExample(m: Metrics)
    requires m.V1? && m.v1.averageGfxActivity == 80 && m.v1.averageSocketPower == 200
    requires m.v1.currentSocketPower.None? && m.v1.temperatureEdge == 60
    ensures PowerEfficiency(m) == 80.0 / 200.0
    ensures ThermalEfficiency(m) == 80.0 / 60.0
  {
  }

  // ---------------------------------------------------------------------
  // Cache strategies and the single-slot reader

  /** `CacheStrategy`; durations are milliseconds. */
  datatype CacheStrategy =
    | NoCache
    | Basic(maxAge: nat)
    | Aggressive(maxAge: nat, changeThreshold: real)
    | MemoryMapped

  /** `CacheStrategy::default()`: a basic slot valid for 500 ms. */
  const DEFAULT_CACHE_STRATEGY: CacheStrategy := Basic(500)

  /** One cached decode, stamped with the read time (milliseconds). */
  datatype CachedMetrics = CachedMetrics(metrics: Metrics, timestamp: nat, readCount: nat, lastValidation: nat)

  /** `Instant::elapsed` on a monotonic clock: never negative. */
  function Elapsed(now: nat, since: nat): (r: nat)
    ensures since <= now ==> r == now - since
    ensures now < since ==> r == 0
  {
    if since <= now then now - since else 0
  }

  /** `check_cache`: the slot's metrics when the strategy keeps a time-limited slot
      and the entry is younger than `max_age`; never for the other strategies. */
  function CacheLookup(strategy: CacheStrategy, cache: Option<CachedMetrics>, now: nat): (r: Option<Metrics>)
    ensures r.Some? <==> (strategy.Basic? || strategy.Aggressive?) && cache.Some?
                         && Elapsed(now, cache.value.timestamp) < strategy.maxAge
    ensures r.Some? ==> r.value == cache.value.metrics
  {
    match strategy
    case NoCache => None
    case MemoryMapped => None
    case _ =>
      if cache.Some? && Elapsed(now, cache.value.timestamp) < strategy.maxAge then Some(cache.value.metrics)
      else None
  }

  /** `update_cache`: every strategy but `None` replaces the slot with a fresh entry
      whose read count continues the previous one. */
  function NextCache(strategy: CacheStrategy, cache: Option<CachedMetrics>, m: Metrics, now: nat): Option<CachedMetrics> {
    if strategy.NoCache? then cache
    else Some(CachedMetrics(m, now, if cache.Some? then cache.value.readCount + 1 else 1, now))
  }

  /** A freshly stored entry is served for exactly `max_age` milliseconds on the
      strategies that serve at all, and it counts one more read than its predecessor. */
  lemma FreshEntryLifetime(strategy: CacheStrategy, cache: Option<CachedMetrics>, m: Metrics, now: nat, later: nat)
    requires now <= later
    ensures !strategy.NoCache? ==>
      NextCache(strategy, cache, m, now).Some? &&
      NextCache(strategy, cache, m, now).value.readCount == (if cache.Some? then cache.value.readCount + 1 else 1)
    ensures strategy.Basic? || strategy.Aggressive? ==>
      (CacheLookup(strategy, NextCache(strategy, cache, m, now), later) == Some(m) <==> later < now + strategy.maxAge)
    ensures strategy.NoCache? || strategy.MemoryMapped? ==>
      CacheLookup(strategy, NextCache(strategy, cache, m, now), later).None?
  {
  }

  /** The aggressive strategy's change threshold plays no part: it behaves as the
      basic strategy with the same age. */
  lemma ChangeThresholdIgnored(maxAge: nat, t1: real, t2: real, cache: Option<CachedMetrics>, m: Metrics, now: nat)
    ensures CacheLookup(Aggressive(maxAge, t1), cache, now) == CacheLookup(Basic(maxAge), cache, now)
    ensures CacheLookup(Aggressive(maxAge, t1), cache, now) == CacheLookup(Aggressive(maxAge, t2), cache, now)
    ensures NextCache(Aggressive(maxAge, t1), cache, m, now) == NextCache(Basic(maxAge), cache, m, now)
  {
  }

  /** What opening the metrics file yields: its bytes, or the I/O error. */
  type FileRead = Result<seq<byte>, IoErrorKind>

  /** The smallest structure size `read_direct` can handle: the header itself. */
  const HEADER_SIZE: nat := 4
  /** The largest structure size `read_direct` accepts. */
  const MAX_STRUCTURE_SIZE: nat := 1024

  function InvalidSize(size: nat): SensorError {
    Parse("Invalid structure size: " + NatToString(size))
  }

  /** What `read_direct` does, with the structure size checked against the header
      size (the corrected guard): open, read exactly the 4 header bytes, validate
      the size, read exactly the remaining `structure_size - 4` bytes, decode the
      `structure_size` bytes obtained; surplus file bytes are never read. */
  function ReadDirectSpec(file: FileRead): Result<Metrics, SensorError> {
    match file
    case Err(kind) => Err(Io(kind))
    case Ok(bytes) =>
      if |bytes| < HEADER_SIZE then Err(Io(UnexpectedEof))
      else
        var size := HeaderOf(bytes).structureSize;
        if size < HEADER_SIZE || size > MAX_STRUCTURE_SIZE then Err(InvalidSize(size))
        else if |bytes| < size then Err(Io(UnexpectedEof))
        else ParseMetricsSpec(bytes[..size])
  }

  /** The outcome of running code that may panic. */
  datatype ReadOutcome = Completed(result: Result<Metrics, SensorError>) | Panicked

  /** `read_direct` as written: the guard rejects only 0 and sizes above 1024, so a
      size of 1 to 3 reaches `structure_size as usize - 4`, which underflows (a panic
      in a debug build; in a release build the wrapped length makes `vec!` fail). */
  function ReadDirectAsWritten(file: FileRead): ReadOutcome {
    match file
    case Err(kind) => Completed(Err(Io(kind)))
    case Ok(bytes) =>
      if |bytes| < HEADER_SIZE then Completed(Err(Io(UnexpectedEof)))
      else
        var size := HeaderOf(bytes).structureSize;
        if size == 0 || size > MAX_STRUCTURE_SIZE then Completed(Err(InvalidSize(size)))
        else if size < HEADER_SIZE then Panicked
        else if |bytes| < size then Completed(Err(Io(UnexpectedEof)))
        else Completed(ParseMetricsSpec(bytes[..size]))
  }

  /** The two agree on every file except those whose header claims 1 to 3 bytes. */
  lemma ReadDirectAgreesAboveHeaderSize(file: FileRead)
    ensures ReadDirectAsWritten(file).Panicked? <==>
      file.Ok? && |file.value| >= HEADER_SIZE && 1 <= HeaderOf(file.value).structureSize < HEADER_SIZE
    ensures ReadDirectAsWritten(file).Completed? ==> ReadDirectAsWritten(file).result == ReadDirectSpec(file)
  {
  }

  /** A header announcing a 3-byte structure makes the written code panic, where the
      corrected guard reports the invalid size. */
  lemma TinyStructureSizeUnderflows()
    ensures ReadDirectAsWritten(Ok([3, 0, 1, 0])).Panicked?
    ensures ReadDirectSpec(Ok([3, 0, 1, 0])) == Err(Parse("Invalid structure size: 3"))
  {
    assert HeaderOf([3, 0, 1, 0]).structureSize == 3;
    assert NatToString(3) == "3";
    assert "Invalid structure size: " + "3" == "Invalid structure size: 3";
  }

  /** The direct read decodes exactly the `structure_size` bytes the header announces:
      bytes after them do not matter, and the size bound is checked before decoding. */
  lemma ReadDirectIgnoresSurplus(bytes: seq<byte>, extra: seq<byte>)
    requires |bytes| >= HEADER_SIZE && HeaderOf(bytes).structureSize == |bytes|
    ensures ReadDirectSpec(Ok(bytes + extra)) == ReadDirectSpec(Ok(bytes))
    ensures |bytes| > MAX_STRUCTURE_SIZE ==> ReadDirectSpec(Ok(bytes)) == Err(InvalidSize(|bytes|))
  {
    var d := bytes + extra;
    assert d[..4] == bytes[..4];
    assert HeaderOf(d) == HeaderOf(bytes);
    assert d[..|bytes|] == bytes;
    assert bytes[..|bytes|] == bytes;
  }

  /** `read_with_mmap`: map the file on first use, then decode the whole mapping.
      Returns the result and the new mapping. */
  function MmapSpec(mapping: Option<seq<byte>>, file: FileRead): (Result<Metrics, SensorError>, Option<seq<byte>>) {
    match mapping
    case Some(bytes) => (ParseMetricsSpec(bytes), mapping)
    case None =>
      match file
      case Err(kind) => (Err(Io(kind)), None)
      case Ok(bytes) => (ParseMetricsSpec(bytes), Some(bytes))
  }

  /** Once mapped, the file is not opened again; the mapping is decoded in full,
      without the direct path's structure-size bound. */
  lemma MappingIsReused(bytes: seq<byte>, file: FileRead)
    ensures MmapSpec(Some(bytes), file) == (ParseMetricsSpec(bytes), Some(bytes))
    ensures MmapSpec(None, Ok(bytes)) == MmapSpec(Some(bytes), file)
    ensures file.Err? ==> MmapSpec(None, file) == (Err(Io(file.error)), None)
  {
  }

  /** The fresh read `read_file` falls back to: the mapping under `MemoryMapped`,
      the direct read otherwise. */
  function FreshRead(strategy: CacheStrategy, mapping: Option<seq<byte>>, file: FileRead): (Result<Metrics, SensorError>, Option<seq<byte>>) {
    if strategy.MemoryMapped? then MmapSpec(mapping, file) else (ReadDirectSpec(file), mapping)
  }

  /** What `read_file` returns: the slot while it is fresh, the fresh read otherwise. */
  function ReadFileResult(strategy: CacheStrategy, cache: Option<CachedMetrics>, mapping: Option<seq<byte>>,
                          now: nat, file: FileRead): (r: Result<Metrics, SensorError>)
    ensures CacheLookup(strategy, cache, now).Some? ==> r == Ok(cache.value.metrics)
    ensures CacheLookup(strategy, cache, now).None? && !strategy.MemoryMapped? ==> r == ReadDirectSpec(file)
    ensures CacheLookup(strategy, cache, now).None? && strategy.MemoryMapped? ==> r == MmapSpec(mapping, file).0
  {
    var hit := CacheLookup(strategy, cache, now);
    if hit.Some? then Ok(hit.value) else FreshRead(strategy, mapping, file).0
  }

  /** The reader's slot, map and time of the last successful read after `read_file`:
      a hit keeps all three, a fresh read leaves the map it used, and only a
      successful fresh read stores its result and the time. */
  function ReadFileState(strategy: CacheStrategy, cache: Option<CachedMetrics>, mapping: Option<seq<byte>>,
                         last: Option<nat>, now: nat, file: FileRead): (r: (Option<CachedMetrics>, Option<seq<byte>>, Option<nat>))
    ensures CacheLookup(strategy, cache, now).Some? ==> r == (cache, mapping, last)
    ensures CacheLookup(strategy, cache, now).None? ==> r.1 == FreshRead(strategy, mapping, file).1
    ensures CacheLookup(strategy, cache, now).None? && ReadFileResult(strategy, cache, mapping, now, file).Ok? ==>
      r.0 == NextCache(strategy, cache, ReadFileResult(strategy, cache, mapping, now, file).value, now) && r.2 == Some(now)
    ensures ReadFileResult(strategy, cache, mapping, now, file).Err? ==> r.0 == cache && r.2 == last
  {
    if CacheLookup(strategy, cache, now).Some? then (cache, mapping, last)
    else
      var read := FreshRead(strategy, mapping, file);
      if read.0.Ok? then (NextCache(strategy, cache, read.0.value, now), read.1, Some(now))
      else (cache, read.1, last)
  }

  /** On the strategies that serve, a successful fresh read is what every read
      within `max_age` afterwards returns, whatever the file then holds. */
  lemma FreshReadServedNext(strategy: CacheStrategy, cache: Option<CachedMetrics>, mapping: Option<seq<byte>>,
                            last: Option<nat>, now: nat, file: FileRead, later: nat, laterFile: FileRead)
    requires strategy.Basic? || strategy.Aggressive?
    requires CacheLookup(strategy, cache, now).None? && ReadFileResult(strategy, cache, mapping, now, file).Ok?
    requires now <= later < now + strategy.maxAge
    ensures var next := ReadFileState(strategy, cache, mapping, last, now, file);
      ReadFileResult(strategy, next.0, next.1, later, laterFile) == ReadFileResult(strategy, cache, mapping, now, file)
  {
    var m := ReadFileResult(strategy, cache, mapping, now, file).value;
    FreshEntryLifetime(strategy, cache, m, now, later);
  }

  /** `MetricsReader`: a strategy, one cache slot, the memory map (the bytes it
      shows), an error count and the time of the last successful read. */
  class MetricsReader {
    var strategy: CacheStrategy
    var cache: Option<CachedMetrics>
    var mapping: Option<seq<byte>>
    var errorCount: nat
    var lastSuccessfulRead: Option<nat>

    /** Only `None` keeps the slot empty, only `MemoryMapped` maps, a cached entry
        counts at least one read and was stored by the last successful read, and
        nothing ever raises the error count. */
    predicate Valid()
      reads this
    {
      (strategy.NoCache? ==> cache.None?) &&
      (mapping.Some? ==> strategy.MemoryMapped?) &&
      (cache.Some? ==> cache.value.readCount >= 1 && lastSuccessfulRead == Some(cache.value.timestamp)) &&
      errorCount == 0
    }

    /** `with_cache_strategy` (and `new` with the default strategy): empty slot, no map. */
    constructor (s: CacheStrategy)
      ensures Valid()
      ensures strategy == s && cache.None? && mapping.None? && errorCount == 0 && lastSuccessfulRead.None?
    {
      strategy := s;
      cache := None;
      mapping := None;
      errorCount := 0;
      lastSuccessfulRead := None;
    }

    /** `check_cache`. */
    function CheckCache(now: nat): (r: Option<Metrics>)
      reads this
      ensures r == CacheLookup(strategy, cache, now)
    {
      CacheLookup(strategy, cache, now)
    }

    /** `update_cache`. */
    method UpdateCache(m: Metrics, now: nat)
      modifies this
      ensures cache == NextCache(old(strategy), old(cache), m, now)
      ensures strategy == old(strategy) && mapping == old(mapping)
      ensures errorCount == old(errorCount) && lastSuccessfulRead == old(lastSuccessfulRead)
    {
      if !strategy.NoCache? {
        var count := if cache.Some? then cache.value.readCount + 1 else 1;
        cache := Some(CachedMetrics(m, now, count, now));
      }
    }

    /** `parse_metrics_from_bytes`. */
    method ParseMetrics(data: seq<byte>) returns (r: Result<Metrics, SensorError>)
      ensures r == ParseMetricsSpec(data)
    {
      r := ParseMetricsFromBytes(data);
    }

    /** `read_direct`. */
    method ReadDirect(file: FileRead) returns (r: Result<Metrics, SensorError>)
      ensures r == ReadDirectSpec(file)
    {
      if file.Err? {
        return Err(Io(file.error));
      }
      var bytes := file.value;
      if |bytes| < HEADER_SIZE {
        return Err(Io(UnexpectedEof));
      }
      var header := HeaderOf(bytes[..HEADER_SIZE]);
      assert bytes[..HEADER_SIZE][..4] == bytes[..4];
      var size := header.structureSize;
      if size < HEADER_SIZE || size > MAX_STRUCTURE_SIZE {
        return Err(InvalidSize(size));
      }
      if |bytes| < size {
        return Err(Io(UnexpectedEof));
      }
      var fullData := bytes[..HEADER_SIZE] + bytes[HEADER_SIZE..size];
      assert fullData == bytes[..size];
      r := ParseMetrics(fullData);
    }

    /** `read_with_mmap`. */
    method ReadWithMmap(file: FileRead) returns (r: Result<Metrics, SensorError>)
      modifies this
      ensures (r, mapping) == MmapSpec(old(mapping), file)
      ensures strategy == old(strategy) && cache == old(cache)
      ensures errorCount == old(errorCount) && lastSuccessfulRead == old(lastSuccessfulRead)
    {
      if mapping.None? {
        if file.Err? {
          return Err(Io(file.error));
        }
        mapping := Some(file.value);
      }
      r := ParseMetrics(mapping.value);
    }

    /** `read_file`: serve the slot when it is fresh; otherwise read afresh, and on
        success store the result, reset the error count and record the time. A
        failed fresh read leaves the slot, the count and the time as they were. */
    method ReadFile(now: nat, file: FileRead) returns (r: Result<Metrics, SensorError>)
      requires Valid()
      modifies this
      ensures Valid()
      ensures strategy == old(strategy)
      ensures r == ReadFileResult(old(strategy), old(cache), old(mapping), now, file)
      ensures CacheLookup(old(strategy), old(cache), now).Some? ==>
        r == Ok(CacheLookup(old(strategy), old(cache), now).value) &&
        cache == old(cache) && mapping == old(mapping) &&
        errorCount == old(errorCount) && lastSuccessfulRead == old(lastSuccessfulRead)
      ensures CacheLookup(old(strategy), old(cache), now).None? ==>
        (r, mapping) == FreshRead(old(strategy), old(mapping), file) &&
        (r.Ok? ==> cache == NextCache(old(strategy), old(cache), r.value, now) &&
                   errorCount == 0 && lastSuccessfulRead == Some(now)) &&
        (r.Err? ==> cache == old(cache) && errorCount == old(errorCount) &&
                    lastSuccessfulRead == old(lastSuccessfulRead))
      ensures (cache, mapping, lastSuccessfulRead) ==
        ReadFileState(old(strategy), old(cache), old(mapping), old(lastSuccessfulRead), now, file)
    {
      var hit := CheckCache(now);
      if hit.Some? {
        return Ok(hit.value);
      }
      if strategy.MemoryMapped? {
        r := ReadWithMmap(file);
      } else {
        r := ReadDirect(file);
      }
      if r.Err? {
        return;
      }
      UpdateCache(r.value, now);
      errorCount := 0;
      lastSuccessfulRead := Some(now);
    }

    /** `invalidate_cache`: clears the slot and drops the map. */
    method InvalidateCache()
      requires Valid()
      modifies this
      ensures Valid()
      ensures cache.None? && mapping.None?
      ensures strategy == old(strategy) && errorCount == old(errorCount) && lastSuccessfulRead == old(lastSuccessfulRead)
    {
      cache := None;
      mapping := None;
    }

    /** `cache_stats`: the read count and the age of the cached entry, if any. */
    function CacheStats(now: nat): (r: Option<(nat, nat)>)
      reads this
      ensures r.Some? <==> cache.Some?
      ensures r.Some? ==> r.value == (cache.value.readCount, Elapsed(now, cache.value.timestamp))
    {
      if cache.Some? then Some((cache.value.readCount, Elapsed(now, cache.value.timestamp))) else None
    }
  }

  /** After an invalidation the next read is always fresh, and with a time-limited
      strategy a successful fresh read is served from the slot until it expires. */
  method InvalidateThenRead(reader: MetricsReader, now: nat, file: FileRead) returns (r: Result<Metrics, SensorError>)
    requires reader.Valid()
    modifies reader
    ensures reader.Valid()
    ensures (r, reader.mapping) == FreshRead(reader.strategy, None, file)
    ensures r.Ok? && (reader.strategy.Basic? || reader.strategy.Aggressive?) && reader.strategy.maxAge > 0 ==>
      reader.CheckCache(now) == Some(r.value) && reader.CacheStats(now) == Some((1, 0))
  {
    reader.InvalidateCache();
    r := reader.ReadFile(now, file);
  }
}
