/** The sysfs-text AMD GPU sensor (`amdgpu/mod.rs`): the format mapping, the
    kernel-text readings and their unit conversions, the `pp_dpm_sclk` line
    scan, the display text and the five output formats. Directory scans are
    inputs: each hwmon reading is the first `amdgpu` hwmon entry that has the
    file, if any. */
module AmdSysfs {
  import opened Wrappers
  import opened Text
  import opened CoreLib

  /** This sensor's `OutputFormat`. */
  datatype OutputFormat = Compact | Detailed | Minimal | Power | Activity

  function FormatName(f: OutputFormat): string {
    match f
    case Compact => "compact"
    case Detailed => "detailed"
    case Minimal => "minimal"
    case Power => "power"
    case Activity => "activity"
  }

  /** The format string of `new`: the five names, and `Compact` for anything else. */
  function FormatFromName(s: string): (r: OutputFormat)
    ensures s != "detailed" && s != "minimal" && s != "power" && s != "activity" ==> r == Compact
  {
    if s == "detailed" then Detailed
    else if s == "minimal" then Minimal
    else if s == "power" then Power
    else if s == "activity" then Activity
    else Compact
  }

  /** Every format's name maps back to it, and only its name does (apart from the
      fallback to `Compact`). */
  lemma FormatNamesRoundTrip(f: OutputFormat, s: string)
    ensures FormatFromName(FormatName(f)) == f
    ensures f != Compact ==> (FormatFromName(s) == f <==> s == FormatName(f))
  {
  }

  // ---------------------------------------------------------------------
  // Readings

  /** A file found under the GPU's hwmon directory. */
  datatype HwmonFile = HwmonFile(path: string, content: TextRead)

  /** `read_file_u16`/`read_file_u32`: the trimmed text parsed as an unsigned
      integer no larger than `max`. */
  function ReadFileUnsigned(path: string, content: TextRead, max: nat): (r: Result<nat, SensorError>)
    ensures content.Err? ==> r == Err(Io(content.error))
    ensures r.Ok? ==> content.Ok? && ParseUnsigned(Trim(content.value), max) == Some(r.value) && r.value <= max
    ensures content.Ok? && ParseUnsigned(Trim(content.value), max).None? ==>
      r.Err? && r.error.Parse? && StartsWith(r.error.message, "Failed to parse " + path)
  {
    match content
    case Err(k) => Err(Io(k))
    case Ok(text) =>
      var t := Trim(text);
      match ParseUnsigned(t, max)
      case Some(v) => Ok(v)
      case None =>
        var message := "Failed to parse " + path + ": " + ParseErrorText(t, max);
        assert message[..|"Failed to parse " + path|] == "Failed to parse " + path;
        Err(Parse(message))
  }

  /** A rejected reading names the exact `ParseIntError`: an empty file, a stray
      character, or a number too large for the type. */
  lemma ReadFileErrorNamesCause(path: string, text: string, max: nat)
    requires ParseUnsigned(Trim(text), max).None?
    ensures IntError(Trim(text), max).Some?
    ensures ReadFileUnsigned(path, Ok(text), max) ==
      Err(Parse("Failed to parse " + path + ": " + IntErrorText(IntError(Trim(text), max).value)))
  {
    IntErrorIffRejected(Trim(text), max);
  }

  /** `read_temperature`: millidegrees divided by 1000 and cast to `u16` (which
      wraps above 65 535 degrees); 50 when no hwmon entry has `temp1_input`. */
  function ReadTemperature(file: Option<HwmonFile>): (r: Result<nat, SensorError>)
    ensures file.None? ==> r == Ok(50)
    ensures r.Ok? ==> r.value <= U16_MAX
    ensures file.Some? ==> (r.Ok? <==> ReadFileUnsigned(file.value.path, file.value.content, U32_MAX).Ok?)
    ensures file.Some? && r.Ok? ==> var milli := ReadFileUnsigned(file.value.path, file.value.content, U32_MAX).value;
      r.value * 1000 <= milli < (r.value + 1) * 1000 || milli >= 65536 * 1000
  {
    match file
    case None => Ok(50)
    case Some(f) =>
      var milli :- ReadFileUnsigned(f.path, f.content, U32_MAX);
      Ok((milli / 1000) % 65536)
  }

  /** `read_hwmon_power`: microwatts, 0 when no hwmon entry has `power1_average`. */
  function ReadHwmonPower(file: Option<HwmonFile>): (r: Result<nat, SensorError>)
    ensures file.None? ==> r == Ok(0)
    ensures file.Some? ==> r == ReadFileUnsigned(file.value.path, file.value.content, U32_MAX)
  {
    match file
    case None => Ok(0)
    case Some(f) => ReadFileUnsigned(f.path, f.content, U32_MAX)
  }

  /** `read_fan_speed`: the PWM duty (0..=255 by convention, any `u16` accepted)
      scaled to percent in integer arithmetic; 0 without `pwm1`. */
  function ReadFanSpeed(file: Option<HwmonFile>): (r: Result<nat, SensorError>)
    ensures file.None? ==> r == Ok(0)
    ensures file.Some? ==> (r.Ok? <==> ReadFileUnsigned(file.value.path, file.value.content, U16_MAX).Ok?)
    ensures file.Some? && r.Ok? ==> var pwm := ReadFileUnsigned(file.value.path, file.value.content, U16_MAX).value;
      r.value * 255 <= pwm * 100 < (r.value + 1) * 255
    ensures r.Ok? ==> r.value <= U16_MAX
  {
    match file
    case None => Ok(0)
    case Some(f) =>
      var pwm :- ReadFileUnsigned(f.path, f.content, U16_MAX);
      Ok(pwm * 100 / 255)
  }

  /** A file holding the PWM duty `pwm` (with the newline sysfs appends) reads as
      `pwm * 100 / 255` percent: 255 is 100 %, 128 is 50 %. */
  lemma FanScaleOfFile(path: string, pwm: nat)
    requires pwm <= U16_MAX
    ensures ReadFanSpeed(Some(HwmonFile(path, Ok(NatToString(pwm) + "\n")))) == Ok(pwm * 100 / 255)
    ensures pwm == 255 ==> pwm * 100 / 255 == 100
    ensures pwm == 128 ==> pwm * 100 / 255 == 50
  {
    NumberFileReads(path, pwm, U16_MAX);
  }

  /** A file holding a number in range, with the trailing newline, reads as it. */
  lemma NumberFileReads(path: string, n: nat, max: nat)
    requires n <= max
    ensures ReadFileUnsigned(path, Ok(NatToString(n) + "\n"), max) == Ok(n)
  {
    NatToStringIsWord(n);
    TrimOfWord(NatToString(n));
    ParseUnsignedOfNatToString(n, max);
  }

  // ---------------------------------------------------------------------
  // pp_dpm_sclk

  const DEFAULT_FREQUENCY: nat := 800

  /** The frequency a `pp_dpm_sclk` line states, when it is the starred (current)
      line and its second word, with "Mhz" removed, is a `u16`. */
  function LineFrequency(line: string): (r: Option<nat>)
    ensures r.Some? ==> ContainsChar(line, '*') && r.value <= U16_MAX
  {
    if !ContainsChar(line, '*') then None
    else
      var words := SplitWhitespace(line);
      if |words| < 2 then None else ParseU16(Replace(words[1], "Mhz", ""))
  }

  /** The first line with a frequency, else the default. */
  function FrequencyFromLines(lines: seq<string>): (r: nat)
    ensures r <= U16_MAX
  {
    if lines == [] then DEFAULT_FREQUENCY
    else match LineFrequency(lines[0])
      case Some(f) => f
      case None => FrequencyFromLines(lines[1..])
  }

  /** `read_current_frequency`; `None` when the file is missing or unreadable. */
  function FrequencySpec(content: Option<string>): nat {
    match content
    case None => DEFAULT_FREQUENCY
    case Some(text) => FrequencyFromLines(Lines(text))
  }

  /** Lines before the first usable starred line play no part, and the lines after
      it none either. */
  lemma {:induction false} FirstStarredLineWins(before: seq<string>, line: string, after: seq<string>)
    requires forall i :: 0 <= i < |before| ==> LineFrequency(before[i]).None?
    requires LineFrequency(line).Some?
    ensures FrequencyFromLines(before + [line] + after) == LineFrequency(line).value
    decreases |before|
  {
    var all := before + [line] + after;
    if before == [] {
      assert all[0] == line;
    } else {
      assert all[0] == before[0] && all[1..] == before[1..] + [line] + after;
      SkipLine(all);
      FirstStarredLineWins(before[1..], line, after);
    }
  }

  lemma SkipLine(lines: seq<string>)
    requires lines != [] && LineFrequency(lines[0]).None?
    ensures FrequencyFromLines(lines) == FrequencyFromLines(lines[1..])
  {
  }

  /** With no usable starred line at all the default is kept. */
  lemma {:induction false} NoStarredLineGivesDefault(lines: seq<string>)
    requires forall i :: 0 <= i < |lines| ==> LineFrequency(lines[i]).None?
    ensures FrequencyFromLines(lines) == DEFAULT_FREQUENCY
  {
    if lines != [] {
      NoStarredLineGivesDefault(lines[1..]);
    }
  }

  /** `read_current_frequency`'s loop over the lines. */
  method ReadCurrentFrequency(content: Option<string>) returns (r: nat)
    ensures r == FrequencySpec(content)
  {
    if content.None? {
      return DEFAULT_FREQUENCY;
    }
    var lines := Lines(content.value);
    var i := 0;
    while i < |lines|
      invariant 0 <= i <= |lines|
      invariant FrequencyFromLines(lines[i..]) == FrequencyFromLines(lines)
    {
      assert lines[i..][1..] == lines[i + 1..];
      var f := LineFrequency(lines[i]);
      if f.Some? {
        return f.value;
      }
      i := i + 1;
    }
    r := DEFAULT_FREQUENCY;
  }

  // ---------------------------------------------------------------------
  // Metrics

  /** `SimplifiedGpuMetrics`. */
  datatype SysfsMetrics = SysfsMetrics(temperatureEdge: nat, gpuActivity: nat, socketPower: nat, frequency: nat, fanSpeed: nat)

  /** What `read_sysfs_metrics` looks at. */
  datatype SysfsFiles = SysfsFiles(drmPath: string, temperature: Option<HwmonFile>, busyPercent: TextRead,
                                   power: Option<HwmonFile>, sclk: Option<string>, fan: Option<HwmonFile>)

  /** `read_sysfs_metrics`: temperature, activity, power in whole watts, frequency
      and fan, the first failure in that order propagating. */
  function ReadSysfsMetrics(files: SysfsFiles): (r: Result<SysfsMetrics, SensorError>)
    ensures r.Ok? ==> ReadTemperature(files.temperature).Ok? && ReadHwmonPower(files.power).Ok?
    ensures r.Ok? ==> r.value.temperatureEdge == ReadTemperature(files.temperature).value
    ensures r.Ok? ==>
      var uw := ReadHwmonPower(files.power).value;
      r.value.socketPower * 1000000 <= uw < (r.value.socketPower + 1) * 1000000
    ensures r.Ok? ==> r.value.frequency == FrequencySpec(files.sclk) && r.value.gpuActivity <= U16_MAX
    ensures var busy := ReadFileUnsigned(files.drmPath + "/gpu_busy_percent", files.busyPercent, U16_MAX);
      r.Ok? ==> busy.Ok? && r.value.gpuActivity == busy.value &&
                ReadFanSpeed(files.fan).Ok? && r.value.fanSpeed == ReadFanSpeed(files.fan).value
    ensures var temp := ReadTemperature(files.temperature);
      var busy := ReadFileUnsigned(files.drmPath + "/gpu_busy_percent", files.busyPercent, U16_MAX);
      var power := ReadHwmonPower(files.power);
      var fan := ReadFanSpeed(files.fan);
      (r.Ok? <==> temp.Ok? && busy.Ok? && power.Ok? && fan.Ok?) &&
      (r.Err? ==> r.error == if temp.Err? then temp.error else if busy.Err? then busy.error
                             else if power.Err? then power.error else fan.error)
  {
    var temp :- ReadTemperature(files.temperature);
    var activity :- ReadFileUnsigned(files.drmPath + "/gpu_busy_percent", files.busyPercent, U16_MAX);
    var microwatts :- ReadHwmonPower(files.power);
    var fan :- ReadFanSpeed(files.fan);
    Ok(SysfsMetrics(temp, activity, microwatts / 1000000, FrequencySpec(files.sclk), fan))
  }

  // ---------------------------------------------------------------------
  // Display text

  function Degrees(t: nat): string { NatToString(t) + "°C" }
  function Watts(w: nat): string { NatToString(w) + "W" }
  function PercentText(p: nat): string { NatToString(p) + "%" }
  function Megahertz(f: nat): string { NatToString(f) + "MHz" }

  /** The part a `display_order` entry adds: only the three names this sensor knows. */
  function OrderPart(item: JsonValue, m: SysfsMetrics): seq<string> {
    if !item.JString? then []
    else if item.s == "temperature" then [Degrees(m.temperatureEdge)]
    else if item.s == "power" then [Watts(m.socketPower)]
    else if item.s == "utilization" then [PercentText(m.gpuActivity)]
    else []
  }

  /** The parts of a whole `display_order`, entry by entry. */
  function OrderParts(items: seq<JsonValue>, m: SysfsMetrics): seq<string> {
    ConcatMap((item: JsonValue) => OrderPart(item, m), items)
  }

  /** A `show_*` key, defaulting to shown. */
  function ShowFlag(custom: map<string, JsonValue>, key: string): (r: bool)
    ensures !(key in custom && custom[key].JBool?) ==> r
  {
    if key in custom && custom[key].JBool? then custom[key].b else true
  }

  /** The parts of `build_display_text`, before the fallback. */
  function DisplayParts(custom: map<string, JsonValue>, m: SysfsMetrics): seq<string> {
    if "display_order" in custom && custom["display_order"].JArray? then OrderParts(custom["display_order"].items, m)
    else
      (if ShowFlag(custom, "show_temperature") then [Degrees(m.temperatureEdge)] else [])
      + (if ShowFlag(custom, "show_power") then [Watts(m.socketPower)] else [])
      + (if ShowFlag(custom, "show_utilization") then [PercentText(m.gpuActivity)] else [])
  }

  /** `build_display_text`: the parts joined by single spaces, or the activity alone. */
  function DisplayTextSpec(custom: map<string, JsonValue>, m: SysfsMetrics): string {
    var parts := DisplayParts(custom, m);
    Join(if parts == [] then [PercentText(m.gpuActivity)] else parts, " ")
  }

  /** Items contribute independently, in list order. */
  lemma OrderPartsAppend(a: seq<JsonValue>, b: seq<JsonValue>, m: SysfsMetrics)
    ensures OrderParts(a + b, m) == OrderParts(a, m) + OrderParts(b, m)
  {
    ConcatMapAppend((item: JsonValue) => OrderPart(item, m), a, b);
  }

  /** What a display order shows: each entry adds its part where it stands. */
  lemma DisplayOrderParts(a: seq<JsonValue>, b: seq<JsonValue>, item: JsonValue, m: SysfsMetrics)
    ensures OrderParts(a + [item] + b, m) == OrderParts(a, m) + OrderPart(item, m) + OrderParts(b, m)
  {
    OrderPartsAppend(a + [item], b, m);
    OrderPartsAppend(a, [item], m);
    assert [item][..0] == [];
    assert OrderParts([item], m) == OrderPart(item, m);
  }

  /** Entries this sensor does not render ("memory" and "frequency", which other
      sensors know, and anything not a string) add nothing. */
  lemma UnrenderedOrderEntries(m: SysfsMetrics)
    ensures OrderPart(JString("memory"), m) == [] && OrderPart(JString("frequency"), m) == []
    ensures OrderPart(JNumber(PosInt(1)), m) == []
  {
    assert |"memory"| == 6 && |"frequency"| == 9;
  }

  /** With no settings all three parts are shown; an empty display order falls
      back to the activity. */
  lemma DisplayTextDefaults(m: SysfsMetrics)
    ensures DisplayTextSpec(map[], m) ==
      Degrees(m.temperatureEdge) + " " + Watts(m.socketPower) + " " + PercentText(m.gpuActivity)
    ensures DisplayTextSpec(map["display_order" := JArray([])], m) == PercentText(m.gpuActivity)
  {
    var parts := [Degrees(m.temperatureEdge), Watts(m.socketPower), PercentText(m.gpuActivity)];
    assert DisplayParts(map[], m) == parts;
    assert parts[1..] == [Watts(m.socketPower), PercentText(m.gpuActivity)];
    assert parts[1..][1..] == [PercentText(m.gpuActivity)];
    assert Join(parts[1..], " ") == Watts(m.socketPower) + " " + PercentText(m.gpuActivity);
  }

  /** `build_display_text`, pushing into `parts` as it goes. */
  method BuildDisplayText(custom: map<string, JsonValue>, m: SysfsMetrics) returns (r: string)
    ensures r == DisplayTextSpec(custom, m)
  {
    var parts: seq<string> := [];
    if "display_order" in custom && custom["display_order"].JArray? {
      parts := OrderedParts(custom["display_order"].items, m);
    } else {
      if ShowFlag(custom, "show_temperature") {
        parts := parts + [Degrees(m.temperatureEdge)];
      }
      if ShowFlag(custom, "show_power") {
        parts := parts + [Watts(m.socketPower)];
      }
      if ShowFlag(custom, "show_utilization") {
        parts := parts + [PercentText(m.gpuActivity)];
      }
      assert parts == DisplayParts(custom, m);
    }
    if parts == [] {
      parts := [PercentText(m.gpuActivity)];
    }
    r := Join(parts, " ");
  }

  /** The `display_order` loop of `build_display_text`. */
  method OrderedParts(items: seq<JsonValue>, m: SysfsMetrics) returns (parts: seq<string>)
    ensures parts == OrderParts(items, m)
  {
    parts := [];
    for i := 0 to |items|
      invariant parts == OrderParts(items[..i], m)
    {
      assert items[..i + 1][..i] == items[..i];
      var item := items[i];
      if item.JString? {
        var field := item.s;
        if field == "temperature" {
          parts := parts + [Degrees(m.temperatureEdge)];
        } else if field == "power" {
          parts := parts + [Watts(m.socketPower)];
        } else if field == "utilization" {
          parts := parts + [PercentText(m.gpuActivity)];
        }
      }
    }
    assert items[..|items|] == items;
  }

  // ---------------------------------------------------------------------
  // Output

  /** `((t / 100.0) * 100.0).min(100.0) as u8`, in exact arithmetic. */
  function TemperaturePercent(t: nat): (r: nat)
    ensures r <= 100 && (t <= 100 ==> r == t) && (t >= 100 ==> r == 100)
  {
    if t < 100 then t else 100
  }

  /** `((p / 300.0) * 100.0).min(100.0) as u8`: a third of the power, capped at 100. */
  function PowerPercent(p: nat): (r: nat)
    ensures r <= 100
    ensures p < 300 ==> r * 3 <= p < (r + 1) * 3
    ensures p >= 300 ==> r == 100
  {
    if p >= 300 then 100 else p / 3
  }

  /** One reading rendered in the configured format with the configuration's GPU
      icon; the tooltip, built from floating-point gauges, is passed in. */
  function FormatSpec(format: OutputFormat, config: SensorConfig, tooltip: string,
                      tempWarning: nat, tempCritical: nat, m: SysfsMetrics): WaybarOutput {
    var t := m.temperatureEdge;
    var icon := config.icons.gpu;
    match format
    case Compact =>
      ThemedOutput(WithIconAndColors(DisplayTextSpec(config.custom, m), icon, config), Some(tooltip),
                   Some(TemperaturePercent(t)), t as real, tempWarning as real, tempCritical as real, config.theme)
    case Detailed =>
      var parts := [Degrees(t), Watts(m.socketPower), PercentText(m.gpuActivity), Megahertz(m.frequency)]
                   + (if m.fanSpeed > 0 then [PercentText(m.fanSpeed)] else []);
      ThemedOutput(WithIconAndColors(Join(parts, " "), icon, config), Some(tooltip),
                   Some(TemperaturePercent(t)), t as real, tempWarning as real, tempCritical as real, config.theme)
    case Minimal =>
      ThemedOutput(WithIconAndColors(Degrees(t), icon, config), Some(tooltip),
                   Some(TemperaturePercent(t)), t as real, tempWarning as real, tempCritical as real, config.theme)
    case Power =>
      ThemedOutput(WithIconAndColors(Watts(m.socketPower), icon, config), Some(tooltip),
                   Some(PowerPercent(m.socketPower)), m.socketPower as real, 200.0, 250.0, config.theme)
    case Activity =>
      ThemedOutput(WithIconAndColors(PercentText(m.gpuActivity), icon, config), Some(tooltip),
                   Some(m.gpuActivity % 256), m.gpuActivity as real, 70.0, 90.0, config.theme)
  }

  /** Every format sets a percentage of at most 255, and at most 100 except for
      `Activity` (whose `u8` cast wraps); `Power` and `Activity` use fixed
      thresholds and the others the sensor's temperature pair. */
  lemma FormatThresholds(format: OutputFormat, config: SensorConfig, tooltip: string,
                         tw: nat, tc: nat, m: SysfsMetrics)
    ensures var o := FormatSpec(format, config, tooltip, tw, tc, m);
      o.percentage.Some? && o.percentage.value <= 255 && (format != Activity ==> o.percentage.value <= 100) &&
      o.tooltip == Some(tooltip) &&
      o.cssClass == Some(ClassOf(config.theme,
        match format
        case Power => ThresholdLevel(m.socketPower as real, 200.0, 250.0)
        case Activity => ThresholdLevel(m.gpuActivity as real, 70.0, 90.0)
        case _ => ThresholdLevel(m.temperatureEdge as real, tw as real, tc as real)))
  {
  }

  /** 250 W reads as 83 % and critical; 600 W is capped at 100 %. */
  lemma PowerFormatExamples(config: SensorConfig, tooltip: string, m: SysfsMetrics)
    requires m.socketPower == 250
    ensures FormatSpec(Power, config, tooltip, 0, 0, m).percentage == Some(83)
    ensures FormatSpec(Power, config, tooltip, 0, 0, m).cssClass == Some(config.theme.critical)
    ensures PowerPercent(600) == 100
  {
    FormatThresholds(Power, config, tooltip, 0, 0, m);
    assert PowerPercent(250) == 83;
    assert ThresholdLevel(250.0, 200.0, 250.0) == Critical;
  }

  /** The sysfs sensor: fixed at construction except for its configuration. */
  class AmdgpuSysfsSensor {
    const name: string
    const drmPath: string
    const tempWarning: nat
    const tempCritical: nat
    const format: OutputFormat
    var config: SensorConfig

    /** `new` after the DRM path has been found; the file argument is ignored. */
    constructor (path: string, tw: nat, tc: nat, formatName: string)
      requires tw <= U16_MAX && tc <= U16_MAX
      ensures name == "amd-gpu" && drmPath == path && tempWarning == tw && tempCritical == tc
      ensures format == FormatFromName(formatName) && config == DefaultConfig()
    {
      name := "amd-gpu";
      drmPath := path;
      tempWarning := tw;
      tempCritical := tc;
      format := FormatFromName(formatName);
      config := DefaultConfig();
    }

    /** `read`: the readings, then the configured format. */
    method Read(files: SysfsFiles, tooltip: string) returns (r: Result<WaybarOutput, SensorError>)
      requires files.drmPath == drmPath
      ensures ReadSysfsMetrics(files).Err? ==> r == Err(ReadSysfsMetrics(files).error)
      ensures ReadSysfsMetrics(files).Ok? ==>
        r == Ok(FormatSpec(format, config, tooltip, tempWarning, tempCritical, ReadSysfsMetrics(files).value))
    {
      var metrics := ReadSysfsMetrics(files);
      if metrics.Err? {
        return Err(metrics.error);
      }
      var m := metrics.value;
      if format == Compact {
        var text := BuildDisplayText(config.custom, m);
        r := Ok(ThemedOutput(WithIconAndColors(text, config.icons.gpu, config), Some(tooltip), Some(TemperaturePercent(m.temperatureEdge)),
                             m.temperatureEdge as real, tempWarning as real, tempCritical as real, config.theme));
      } else {
        r := Ok(FormatSpec(format, config, tooltip, tempWarning, tempCritical, m));
      }
    }

    /** `configure`: the new configuration replaces the old and nothing is checked. */
    method Configure(c: SensorConfig)
      modifies this
      ensures config == c
    {
      config := c;
    }
  }

  /** `new`: discovery's error propagates, otherwise a sensor named "amd-gpu". */
  method NewSensor(discovered: Result<string, SensorError>, tw: nat, tc: nat, formatName: string)
    returns (r: Result<AmdgpuSysfsSensor, SensorError>)
    requires tw <= U16_MAX && tc <= U16_MAX
    ensures discovered.Err? ==> r == Err(discovered.error)
    ensures discovered.Ok? ==> r.Ok? && fresh(r.value) && r.value.drmPath == discovered.value
    ensures discovered.Ok? ==> r.Ok? && r.value.tempWarning == tw && r.value.tempCritical == tc
    ensures discovered.Ok? ==> r.Ok? && r.value.name == "amd-gpu" && r.value.format == FormatFromName(formatName) && r.value.config == DefaultConfig()
  {
    if discovered.Err? {
      return Err(discovered.error);
    }
    var sensor := new AmdgpuSysfsSensor(discovered.value, tw, tc, formatName);
    r := Ok(sensor);
  }
}
