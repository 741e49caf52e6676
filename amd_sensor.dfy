/** The AMD GPU sensor (`gpu.rs`): the builder's validation, the stale-metrics
    recovery state machine, the display flags, the output formats and the
    threshold selection of `read`. */
module AmdSensor {
  import opened Wrappers
  import opened Text
  import opened LittleEndian
  import opened CoreLib
  import opened AmdGpuError
  import AM = AmdMetrics

  /** `OutputFormat`. */
  datatype OutputFormat =
    | Compact
    | Detailed
    | Minimal
    | Power
    | Activity
    | Thermal
    | Performance
    | Custom(fields: seq<string>)

  // ---------------------------------------------------------------------
  // Builder

  /** `AmdgpuSensorBuilder`; temperatures in degrees and powers in watts. */
  datatype SensorBuilder = SensorBuilder(
    metricsPath: Option<string>,
    autoDetect: bool,
    outputFormat: OutputFormat,
    tempWarning: real,
    tempCritical: real,
    powerWarning: real,
    powerCritical: real,
    cacheStrategy: AM.CacheStrategy,
    enableThermalMonitoring: bool,
    enablePerformanceAnalytics: bool,
    thermalZones: seq<string>,
    customFields: seq<string>,
    errorRecoveryEnabled: bool,
    maxConsecutiveErrors: nat)

  /** The settings both builder constructors start from. */
  predicate HasBuilderDefaults(b: SensorBuilder) {
    b.outputFormat == Compact && b.tempWarning == 75.0 && b.tempCritical == 90.0 &&
    b.powerWarning == 200.0 && b.powerCritical == 250.0 && b.cacheStrategy == AM.Basic(500) &&
    !b.enableThermalMonitoring && !b.enablePerformanceAnalytics &&
    b.thermalZones == [] && b.customFields == [] && b.errorRecoveryEnabled && b.maxConsecutiveErrors == 5
  }

  /** `AmdgpuSensorBuilder::new`: a fixed metrics path. */
  function NewBuilder(path: string): (b: SensorBuilder)
    ensures b.metricsPath == Some(path) && !b.autoDetect && HasBuilderDefaults(b)
  {
    SensorBuilder(Some(path), false, Compact, 75.0, 90.0, 200.0, 250.0, AM.DEFAULT_CACHE_STRATEGY,
                  false, false, [], [], true, 5)
  }

  /** `AmdgpuSensorBuilder::auto_detect`: no path, discovery at build time. */
  function AutoDetectBuilder(): (b: SensorBuilder)
    ensures b.metricsPath.None? && b.autoDetect && HasBuilderDefaults(b)
  {
    SensorBuilder(None, true, Compact, 75.0, 90.0, 200.0, 250.0, AM.DEFAULT_CACHE_STRATEGY,
                  false, false, [], [], true, 5)
  }

  /** `error_recovery`: records both settings, which nothing reads afterwards. */
  function ErrorRecovery(b: SensorBuilder, enabled: bool, maxErrors: nat): SensorBuilder {
    b.(errorRecoveryEnabled := enabled, maxConsecutiveErrors := maxErrors)
  }

  const TEMP_ORDER_MESSAGE: string := "Temperature warning threshold must be less than critical threshold"
  const POWER_ORDER_MESSAGE: string := "Power warning threshold must be less than critical threshold"

  /** The metrics path `build` works with: the discovered one when auto-detecting
      (discovery's own error propagates), else the configured one. */
  function ResolvePath(b: SensorBuilder, discovered: Result<Option<string>, SensorError>): (r: Result<string, SensorError>)
    ensures b.autoDetect && discovered.Ok? && discovered.value.None? ==> r == Err(UnavailableError("No compatible AMD GPU found"))
    ensures !b.autoDetect && b.metricsPath.None? ==> r == Err(Config("No GPU metrics path specified", None))
    ensures r.Ok? ==> (b.autoDetect && discovered == Ok(Some(r.value))) || (!b.autoDetect && b.metricsPath == Some(r.value))
  {
    if b.autoDetect then
      match discovered
      case Err(e) => Err(e)
      case Ok(None) => Err(UnavailableError("No compatible AMD GPU found"))
      case Ok(Some(p)) => Ok(p)
    else
      match b.metricsPath
      case None => Err(Config("No GPU metrics path specified", None))
      case Some(p) => Ok(p)
  }

  /** `"amd-gpu-" + card name with spaces replaced by '-' and lower-cased`:
      after the prefix, one character per character of the card name. */
  function SensorName(cardName: string): (r: string)
    ensures StartsWith(r, "amd-gpu-") && |r| == 8 + |cardName|
    ensures forall i :: 0 <= i < |cardName| ==> r[8 + i] == LowerChar(SwapChar(cardName[i], ' ', '-'))
  {
    var r := "amd-gpu-" + ToLower(SwapAll(cardName, ' ', '-'));
    assert r[..8] == "amd-gpu-";
    r
  }

  /** A card name already in lower case and without spaces is the name's
      whole suffix. */
  lemma SensorNameOfPlainCard(card: string)
    requires NoUpper(card) && forall i :: 0 <= i < |card| ==> card[i] != ' '
    ensures SensorName(card) == "amd-gpu-" + card
  {
    var r := SensorName(card);
    assert r[..8] == "amd-gpu-";
    assert r[8..] == card;
    assert r == r[..8] + r[8..];
  }

  /** How `{}` shows an `f64`; the model leaves the text of a float abstract. */
  type FloatDisplay = real -> string

  /** `format!("warning: {}, critical: {}", warning, critical)`: the offending
      pair attached to a threshold-order error, warning first. */
  function ThresholdValues(show: FloatDisplay, warning: real, critical: real): (r: string)
    ensures StartsWith(r, "warning: " + show(warning))
    ensures EndsWith(r, ", critical: " + show(critical))
  {
    var head := "warning: " + show(warning);
    var tail := ", critical: " + show(critical);
    assert (head + tail)[..|head|] == head;
    assert (head + tail)[|head|..] == tail;
    head + tail
  }

  /** `build`: path resolution, then the file must exist, then both threshold pairs
      must be strictly ordered, then the device information is read. Returns the
      path and the sensor name. Whether the path exists, the device information
      and the float text of the threshold errors are inputs. */
  function BuildSpec(b: SensorBuilder, discovered: Result<Option<string>, SensorError>, pathExists: bool,
                     cardName: Result<string, SensorError>, show: FloatDisplay): Result<(string, string), SensorError> {
    var path :- ResolvePath(b, discovered);
    if !pathExists then Err(ToSensorError(MetricsFileError(path, "File does not exist")))
    else if b.tempWarning >= b.tempCritical then
      Err(Config(TEMP_ORDER_MESSAGE, Some(ThresholdValues(show, b.tempWarning, b.tempCritical))))
    else if b.powerWarning >= b.powerCritical then
      Err(Config(POWER_ORDER_MESSAGE, Some(ThresholdValues(show, b.powerWarning, b.powerCritical))))
    else
      var card :- cardName;
      Ok((path, SensorName(card)))
  }

  /** A built sensor always has strictly ordered thresholds; an inverted or equal
      pair is a configuration error (temperature checked first). */
  lemma BuildValidatesThresholds(b: SensorBuilder, discovered: Result<Option<string>, SensorError>, pathExists: bool,
                                 cardName: Result<string, SensorError>, show: FloatDisplay)
    ensures BuildSpec(b, discovered, pathExists, cardName, show).Ok? ==>
      b.tempWarning < b.tempCritical && b.powerWarning < b.powerCritical && pathExists
    ensures ResolvePath(b, discovered).Ok? && pathExists && b.tempWarning >= b.tempCritical ==>
      BuildSpec(b, discovered, pathExists, cardName, show) ==
        Err(Config(TEMP_ORDER_MESSAGE, Some(ThresholdValues(show, b.tempWarning, b.tempCritical))))
    ensures ResolvePath(b, discovered).Ok? && pathExists && b.tempWarning < b.tempCritical && b.powerWarning >= b.powerCritical ==>
      BuildSpec(b, discovered, pathExists, cardName, show) ==
        Err(Config(POWER_ORDER_MESSAGE, Some(ThresholdValues(show, b.powerWarning, b.powerCritical))))
  {
  }

  /** The error-recovery settings play no part in `build`. */
  lemma BuildIgnoresErrorRecovery(b: SensorBuilder, discovered: Result<Option<string>, SensorError>, pathExists: bool,
                                  cardName: Result<string, SensorError>, show: FloatDisplay,
                                  enabled: bool, maxErrors: nat)
    ensures BuildSpec(ErrorRecovery(b, enabled, maxErrors), discovered, pathExists, cardName, show) ==
      BuildSpec(b, discovered, pathExists, cardName, show)
  {
    var b' := ErrorRecovery(b, enabled, maxErrors);
    assert b'.autoDetect == b.autoDetect && b'.metricsPath == b.metricsPath;
    assert ResolvePath(b', discovered) == ResolvePath(b, discovered);
  }

  /** The builder defaults pass validation: 75 < 90 degrees and 200 < 250 W. */
  lemma DefaultBuilderBuilds(path: string, card: string, show: FloatDisplay)
    ensures BuildSpec(NewBuilder(path), Ok(None), true, Ok(card), show) == Ok((path, SensorName(card)))
  {
  }

  // ---------------------------------------------------------------------
  // Error recovery

  /** The three fields of the recovery state machine; times in milliseconds. */
  datatype RecoveryState = RecoveryState(consecutiveErrors: nat, lastErrorTime: Option<nat>,
                                         lastMetrics: Option<(AM.Metrics, nat)>)

  /** Stale metrics are served for at most this many consecutive failures ... */
  const STALE_ERROR_LIMIT: nat := 3
  /** ... and only while they are younger than this. */
  const STALE_MAX_AGE_MS: nat := 10000

  /** `read_metrics_with_recovery`, given the reader's result: a success resets the
      error state and remembers the metrics; a failure counts itself, records its
      time and is masked by the remembered metrics while the count is at most 3
      and they are younger than 10 s. */
  function RecoveryStep(s: RecoveryState, read: Result<AM.Metrics, SensorError>, now: nat): (Result<AM.Metrics, SensorError>, RecoveryState) {
    match read
    case Ok(m) => (Ok(m), RecoveryState(0, None, Some((m, now))))
    case Err(e) =>
      var next := RecoveryState(s.consecutiveErrors + 1, Some(now), s.lastMetrics);
      if next.consecutiveErrors <= STALE_ERROR_LIMIT && s.lastMetrics.Some?
         && AM.Elapsed(now, s.lastMetrics.value.1) < STALE_MAX_AGE_MS
      then (Ok(s.lastMetrics.value.0), next)
      else (Err(e), next)
  }

  /** Whether a failure at `now` is masked, as a condition on the state before it. */
  predicate Masks(s: RecoveryState, now: nat) {
    s.consecutiveErrors + 1 <= STALE_ERROR_LIMIT && s.lastMetrics.Some?
    && AM.Elapsed(now, s.lastMetrics.value.1) < STALE_MAX_AGE_MS
  }

  /** One step, spelled out: success resets; a failure increments the count, keeps
      the remembered metrics, and returns them exactly when `Masks` holds, else
      the original error. */
  lemma RecoveryStepContract(s: RecoveryState, read: Result<AM.Metrics, SensorError>, now: nat)
    ensures read.Ok? ==> RecoveryStep(s, read, now) == (read, RecoveryState(0, None, Some((read.value, now))))
    ensures read.Err? ==> RecoveryStep(s, read, now).1 == RecoveryState(s.consecutiveErrors + 1, Some(now), s.lastMetrics)
    ensures read.Err? && Masks(s, now) ==> RecoveryStep(s, read, now).0 == Ok(s.lastMetrics.value.0)
    ensures read.Err? && !Masks(s, now) ==> RecoveryStep(s, read, now).0 == read
  {
  }

  /** The results of a run of failures with one error, at the given times. */
  function FailureRun(s: RecoveryState, e: SensorError, times: seq<nat>): (seq<Result<AM.Metrics, SensorError>>, RecoveryState)
    decreases |times|
  {
    if times == [] then ([], s)
    else
      var (r, next) := RecoveryStep(s, Err(e), times[0]);
      var (rest, last) := FailureRun(next, e, times[1..]);
      ([r] + rest, last)
  }

  /** Over a run of failures the count grows by one per failure, the remembered
      metrics are kept, and failure `i` is masked exactly when it is among the first
      three since the last success and the metrics are younger than 10 s. */
  lemma {:induction false} FailureRunMasksAtMostThree(s: RecoveryState, e: SensorError, times: seq<nat>)
    ensures |FailureRun(s, e, times).0| == |times|
    ensures FailureRun(s, e, times).1.consecutiveErrors == s.consecutiveErrors + |times|
    ensures FailureRun(s, e, times).1.lastMetrics == s.lastMetrics
    ensures times != [] ==> FailureRun(s, e, times).1.lastErrorTime == Some(times[|times| - 1])
    ensures forall i :: 0 <= i < |times| ==>
      (FailureRun(s, e, times).0[i].Ok? <==>
        s.consecutiveErrors + i + 1 <= STALE_ERROR_LIMIT && s.lastMetrics.Some? &&
        AM.Elapsed(times[i], s.lastMetrics.value.1) < STALE_MAX_AGE_MS)
    ensures forall i :: 0 <= i < |times| && FailureRun(s, e, times).0[i].Ok? ==>
      FailureRun(s, e, times).0[i] == Ok(s.lastMetrics.value.0)
    ensures forall i :: 0 <= i < |times| && FailureRun(s, e, times).0[i].Err? ==>
      FailureRun(s, e, times).0[i] == Err(e)
    decreases |times|
  {
    if times != [] {
      var next := RecoveryStep(s, Err(e), times[0]).1;
      FailureRunMasksAtMostThree(next, e, times[1..]);
      var rest := FailureRun(next, e, times[1..]).0;
      assert FailureRun(s, e, times).0 == [RecoveryStep(s, Err(e), times[0]).0] + rest;
      forall i | 1 <= i < |times|
        ensures FailureRun(s, e, times).0[i] == rest[i - 1] && times[i] == times[1..][i - 1]
      {
      }
    }
  }

  /** After a success, the fourth consecutive failure reports its error even when
      the remembered metrics are still fresh. */
  lemma FourthFailurePropagates(m: AM.Metrics, t: nat, e: SensorError)
    ensures var s := RecoveryStep(RecoveryState(0, None, None), Ok(m), t).1;
      var run := FailureRun(s, e, [t + 1, t + 2, t + 3, t + 4]).0;
      run == [Ok(m), Ok(m), Ok(m), Err(e)]
  {
    var s := RecoveryStep(RecoveryState(0, None, None), Ok(m), t).1;
    FailureRunMasksAtMostThree(s, e, [t + 1, t + 2, t + 3, t + 4]);
  }

  // ---------------------------------------------------------------------
  // Display flags

  /** The five `show_*` flags. */
  datatype DisplayFlags = DisplayFlags(temperature: bool, power: bool, utilization: bool, memory: bool, frequency: bool)

  /** `config.custom.get(key).and_then(as_bool)`, falling back to the current value. */
  function BoolSetting(custom: map<string, JsonValue>, key: string, current: bool): (r: bool)
    ensures key in custom && custom[key].JBool? ==> r == custom[key].b
    ensures !(key in custom && custom[key].JBool?) ==> r == current
  {
    if key in custom && custom[key].JBool? then custom[key].b else current
  }

  /** Each flag overwritten only by a boolean under its own key. */
  function OverrideFlags(f: DisplayFlags, custom: map<string, JsonValue>): DisplayFlags {
    DisplayFlags(BoolSetting(custom, "show_temperature", f.temperature),
                 BoolSetting(custom, "show_power", f.power),
                 BoolSetting(custom, "show_utilization", f.utilization),
                 BoolSetting(custom, "show_memory", f.memory),
                 BoolSetting(custom, "show_frequency", f.frequency))
  }

  const ALL_OFF: DisplayFlags := DisplayFlags(false, false, false, false, false)

  /** Enabling the flag a `display_order` entry names; non-strings and unknown names change nothing. */
  function EnableField(f: DisplayFlags, item: JsonValue): DisplayFlags {
    if !item.JString? then f
    else if item.s == "temperature" then f.(temperature := true)
    else if item.s == "power" then f.(power := true)
    else if item.s == "utilization" then f.(utilization := true)
    else if item.s == "memory" then f.(memory := true)
    else if item.s == "frequency" then f.(frequency := true)
    else f
  }

  /** All flags off, then each entry enabled in turn. */
  function FlagsFromOrder(items: seq<JsonValue>): DisplayFlags {
    if items == [] then ALL_OFF else EnableField(FlagsFromOrder(items[..|items| - 1]), items[|items| - 1])
  }

  /** `display_order`, when it is present and an array. */
  function DisplayOrder(custom: map<string, JsonValue>): Option<seq<JsonValue>> {
    if "display_order" in custom && custom["display_order"].JArray? then Some(custom["display_order"].items) else None
  }

  /** `update_display_config` on the flags. */
  function DisplayConfigSpec(f: DisplayFlags, custom: map<string, JsonValue>): DisplayFlags {
    match DisplayOrder(custom)
    case Some(items) => FlagsFromOrder(items)
    case None => OverrideFlags(f, custom)
  }

  /** With a display order, a flag is on exactly when its name is listed (as a
      string, anywhere in the list). */
  lemma {:induction false} FlagsFromOrderListed(items: seq<JsonValue>)
    ensures FlagsFromOrder(items).temperature <==> JString("temperature") in items
    ensures FlagsFromOrder(items).power <==> JString("power") in items
    ensures FlagsFromOrder(items).utilization <==> JString("utilization") in items
    ensures FlagsFromOrder(items).memory <==> JString("memory") in items
    ensures FlagsFromOrder(items).frequency <==> JString("frequency") in items
  {
    if items != [] {
      var init := items[..|items| - 1];
      var last := items[|items| - 1];
      FlagsFromOrderListed(init);
      assert items == init + [last];
      EnableFieldFlags(FlagsFromOrder(init), last);
      forall x ensures x in items <==> x in init || x == last {
        assert x in items <==> x in init + [last];
      }
    }
  }

  /** An entry turns on the flag it names and no other. */
  lemma EnableFieldFlags(f: DisplayFlags, item: JsonValue)
    ensures EnableField(f, item).temperature == (f.temperature || item == JString("temperature"))
    ensures EnableField(f, item).power == (f.power || item == JString("power"))
    ensures EnableField(f, item).utilization == (f.utilization || item == JString("utilization"))
    ensures EnableField(f, item).memory == (f.memory || item == JString("memory"))
    ensures EnableField(f, item).frequency == (f.frequency || item == JString("frequency"))
  {
    if item.JString? {
      var n := item.s;
      assert "temperature"[0] != "utilization"[0];
      if |n| == 11 {
        if n == "temperature" {
          assert EnableField(f, item) == f.(temperature := true);
        } else if n == "utilization" {
          assert EnableField(f, item) == f.(utilization := true);
        } else {
          assert EnableField(f, item) == f;
        }
      } else if n == "power" {
        assert EnableField(f, item) == f.(power := true);
      } else if n == "memory" {
        assert EnableField(f, item) == f.(memory := true);
      } else if n == "frequency" {
        assert EnableField(f, item) == f.(frequency := true);
      } else {
        assert EnableField(f, item) == f;
      }
    }
  }

  /** A display order decides every flag on its own: the old flags and the
      `show_*` keys no longer matter. Without one, only booleans change flags. */
  lemma DisplayOrderWins(f: DisplayFlags, g: DisplayFlags, custom: map<string, JsonValue>)
    ensures DisplayOrder(custom).Some? ==> DisplayConfigSpec(f, custom) == DisplayConfigSpec(g, custom)
    ensures DisplayOrder(custom).Some? ==>
      (DisplayConfigSpec(f, custom).power <==> JString("power") in custom["display_order"].items)
    ensures DisplayOrder(custom).None? && "show_power" in custom && !custom["show_power"].JBool? ==>
      DisplayConfigSpec(f, custom).power == f.power
  {
    if DisplayOrder(custom).Some? {
      FlagsFromOrderListed(custom["display_order"].items);
    }
  }

  // ---------------------------------------------------------------------
  // Output formats

  /** One piece of the output text: `{:3.0}°C`, `{}W`, `{:3.0}%`, `{:1.0}%M`, `{}MHz`. */
  datatype Part = Degrees(c: nat) | Watts(w: nat) | Percent(p: nat) | MemoryPercent(pct: real) | Megahertz(f: nat)

  /** `format_output`'s triple: the text's parts, the primary value and the percentage. */
  datatype Formatted = Formatted(parts: seq<Part>, primary: real, percentage: Option<nat>)

  /** `x as u8` on an integer: the low eight bits. */
  function TruncateU8(x: nat): (r: nat)
    ensures r < 256 && (x < 256 ==> r == x)
  {
    x % 256
  }

  /** `((num as f64 / den) * 100.0) as u8`: the float cast saturates at 0 and 255,
      and maps NaN (0 / 0) to 0. Division is exact here. */
  function RatioPercentU8(num: nat, den: real): (r: nat)
    ensures r <= 255
    ensures den > 0.0 && (num as real) * 100.0 / den < 256.0 ==>
      (r as real) <= (num as real) * 100.0 / den < (r + 1) as real
    ensures den > 0.0 && (num as real) * 100.0 / den >= 256.0 ==> r == 255
    ensures den == 0.0 ==> (r == 255 <==> num > 0)
    ensures den < 0.0 ==> r == 0
  {
    if den > 0.0 then
      var x := (num as real) * 100.0 / den;
      if x >= 256.0 then 255 else x.Floor
    else if den == 0.0 && num > 0 then 255
    else 0
  }

  /** The parts a `Custom` field contributes: "fan" only with a fan (even at 0 %). */
  function FieldParts(field: string, temp: nat, power: nat, activity: nat, frequency: nat, fan: (nat, bool)): seq<Part> {
    if field == "temp" then [Degrees(temp)]
    else if field == "power" then [Watts(power)]
    else if field == "activity" then [Percent(activity)]
    else if field == "frequency" then [Megahertz(frequency)]
    else if field == "fan" then (if fan.1 then [Percent(fan.0)] else [])
    else []
  }

  predicate KnownField(field: string) {
    field == "temp" || field == "power" || field == "activity" || field == "frequency" || field == "fan"
  }

  function CustomParts(fields: seq<string>, temp: nat, power: nat, activity: nat, frequency: nat, fan: (nat, bool)): seq<Part> {
    if fields == [] then []
    else CustomParts(fields[..|fields| - 1], temp, power, activity, frequency, fan)
         + FieldParts(fields[|fields| - 1], temp, power, activity, frequency, fan)
  }

  /** Custom fields contribute independently, in list order. */
  lemma {:induction false} CustomPartsAppend(a: seq<string>, b: seq<string>, temp: nat, power: nat, activity: nat,
                                             frequency: nat, fan: (nat, bool))
    ensures CustomParts(a + b, temp, power, activity, frequency, fan)
         == CustomParts(a, temp, power, activity, frequency, fan) + CustomParts(b, temp, power, activity, frequency, fan)
    decreases |b|
  {
    if b != [] {
      var b0 := b[..|b| - 1];
      assert (a + b)[..|a + b| - 1] == a + b0;
      assert (a + b)[|a + b| - 1] == b[|b| - 1];
      CustomPartsAppend(a, b0, temp, power, activity, frequency, fan);
    } else {
      assert a + b == a;
    }
  }

  /** An unknown name anywhere in a custom field list changes nothing. */
  lemma CustomIgnoresUnknown(a: seq<string>, u: string, b: seq<string>, temp: nat, power: nat, activity: nat,
                             frequency: nat, fan: (nat, bool))
    requires !KnownField(u)
    ensures CustomParts(a + [u] + b, temp, power, activity, frequency, fan)
         == CustomParts(a + b, temp, power, activity, frequency, fan)
  {
    CustomPartsAppend(a + [u], b, temp, power, activity, frequency, fan);
    CustomPartsAppend(a, [u], temp, power, activity, frequency, fan);
    CustomPartsAppend(a, b, temp, power, activity, frequency, fan);
    UnknownFieldAddsNothing(u, temp, power, activity, frequency, fan);
  }

  lemma UnknownFieldAddsNothing(u: string, temp: nat, power: nat, activity: nat, frequency: nat, fan: (nat, bool))
    requires !KnownField(u)
    ensures CustomParts([u], temp, power, activity, frequency, fan) == []
  {
    assert [u][..0] == [];
    assert FieldParts(u, temp, power, activity, frequency, fan) == [];
  }

  /** The `Compact` parts chosen by the flags, before the fallback. */
  function CompactParts(flags: DisplayFlags, temp: nat, power: nat, activity: nat, frequency: nat,
                        memUsage: (nat, nat)): seq<Part> {
    (if flags.temperature then [Degrees(temp)] else [])
    + (if flags.power then [Watts(power)] else [])
    + (if flags.utilization then [Percent(activity)] else [])
    + (if flags.memory && memUsage.1 > 0 then [MemoryPercent((memUsage.0 as real) / (memUsage.1 as real) * 100.0)] else [])
    + (if flags.frequency then [Megahertz(frequency)] else [])
  }

  /** `format_output`. The memory usage pair (used, total) comes from a collaborator
      outside this model. */
  function FormatOutputSpec(format: OutputFormat, flags: DisplayFlags, tempCritical: real, powerCritical: real,
                            m: AM.Metrics, memUsage: (nat, nat)): Formatted {
    var temp := AM.Temperature(m).0;
    var power := AM.Power(m);
    var activity := AM.Activity(m);
    var frequency := AM.Frequency(m);
    var fan := AM.FanSpeed(m);
    match format
    case Compact =>
      var parts := CompactParts(flags, temp, power, activity, frequency, memUsage);
      Formatted(if parts == [] then [Percent(activity)] else parts, temp as real, Some(TruncateU8(activity)))
    case Detailed =>
      Formatted([Degrees(temp), Watts(power), Percent(activity), Megahertz(frequency)]
                + (if fan.1 && fan.0 > 0 then [Percent(fan.0)] else []),
                temp as real, Some(TruncateU8(activity)))
    case Minimal => Formatted([Degrees(temp)], temp as real, None)
    case Power => Formatted([Watts(power)], power as real, Some(RatioPercentU8(power, powerCritical)))
    case Activity => Formatted([Percent(activity)], activity as real, Some(TruncateU8(activity)))
    case Thermal => Formatted([Degrees(temp)], temp as real, Some(RatioPercentU8(temp, tempCritical)))
    case Performance => Formatted([Megahertz(frequency), Watts(power)], temp as real, Some(TruncateU8(activity)))
    case Custom(fields) =>
      var parts := CustomParts(fields, temp, power, activity, frequency, (fan.0, fan.1));
      Formatted(if parts == [] then [Degrees(temp)] else parts, temp as real, Some(TruncateU8(activity)))
  }

  /** The fallbacks and the formats without a percentage. */
  lemma FormatOutputFallbacks(flags: DisplayFlags, tc: real, pc: real, m: AM.Metrics, memUsage: (nat, nat), fields: seq<string>)
    ensures flags == ALL_OFF ==>
      FormatOutputSpec(Compact, flags, tc, pc, m, memUsage).parts == [Percent(AM.Activity(m))]
    ensures (forall i :: 0 <= i < |fields| ==> !KnownField(fields[i])) ==>
      FormatOutputSpec(Custom(fields), flags, tc, pc, m, memUsage).parts == [Degrees(AM.Temperature(m).0)]
    ensures FormatOutputSpec(Minimal, flags, tc, pc, m, memUsage).percentage.None?
    ensures FormatOutputSpec(Power, flags, tc, pc, m, memUsage).primary == AM.Power(m) as real
    ensures forall f :: f != Minimal ==> FormatOutputSpec(f, flags, tc, pc, m, memUsage).percentage.Some?
  {
    forall f | f != Minimal ensures FormatOutputSpec(f, flags, tc, pc, m, memUsage).percentage.Some? {
    }
    if forall i :: 0 <= i < |fields| ==> !KnownField(fields[i]) {
      UnknownFieldsContributeNothing(fields, AM.Temperature(m).0, AM.Power(m), AM.Activity(m), AM.Frequency(m),
                                     (AM.FanSpeed(m).0, AM.FanSpeed(m).1));
    }
  }

  lemma {:induction false} UnknownFieldsContributeNothing(fields: seq<string>, temp: nat, power: nat, activity: nat,
                                                          frequency: nat, fan: (nat, bool))
    requires forall i :: 0 <= i < |fields| ==> !KnownField(fields[i])
    ensures CustomParts(fields, temp, power, activity, frequency, fan) == []
  {
    if fields != [] {
      UnknownFieldsContributeNothing(fields[..|fields| - 1], temp, power, activity, frequency, fan);
    }
  }

  /** Percentages: 125 W of a 250 W critical power is 50 %, 700 W saturates at 255,
      and an activity of 300 wraps to 44 in the `u8` cast. */
  lemma PercentageExamples()
    ensures RatioPercentU8(125, 250.0) == 50
    ensures RatioPercentU8(700, 250.0) == 255
    ensures RatioPercentU8(0, 0.0) == 0
    ensures TruncateU8(300) == 44
  {
    assert (125 as real) * 100.0 / 250.0 == 50.0;
  }

  /** `read`'s thresholds: the power pair for `Power`, (70, 90) for `Activity`, the
      temperature pair for every other format. */
  function ReadThresholds(format: OutputFormat, tw: real, tc: real, pw: real, pc: real): (r: (real, real))
    ensures format.Power? ==> r == (pw, pc)
    ensures format.Activity? ==> r == (70.0, 90.0)
    ensures !format.Power? && !format.Activity? ==> r == (tw, tc)
  {
    match format
    case Power => (pw, pc)
    case Activity => (70.0, 90.0)
    case _ => (tw, tc)
  }

  /** What `read` hands to Waybar, before the text is rendered. */
  datatype ReadView = ReadView(parts: seq<Part>, percentage: Option<nat>, cssClass: string)

  function ViewOf(f: Formatted, thresholds: (real, real), theme: Theme): (r: ReadView)
    ensures r.cssClass == ClassOf(theme, ThresholdLevel(f.primary, thresholds.0, thresholds.1))
  {
    ReadView(f.parts, f.percentage, ClassForThresholds(theme, f.primary, thresholds.0, thresholds.1))
  }

  /** The class under `Activity` depends on the activity alone: 95 % is critical
      whatever the temperature thresholds are. */
  lemma ActivityClassIgnoresTemperatureThresholds(flags: DisplayFlags, tw: real, tc: real, pw: real, pc: real,
                                                  m: AM.Metrics, memUsage: (nat, nat), theme: Theme)
    requires AM.Activity(m) == 95
    ensures ViewOf(FormatOutputSpec(Activity, flags, tc, pc, m, memUsage), ReadThresholds(Activity, tw, tc, pw, pc), theme).cssClass
            == theme.critical
  {
  }

  /** `temp_warning`/`temp_critical` from the custom map: taken only when numeric. */
  function NumberSetting(custom: map<string, JsonValue>, key: string, current: real): (r: real)
    ensures key in custom && custom[key].JNumber? ==> r == custom[key].n.AsF64()
    ensures !(key in custom && custom[key].JNumber?) ==> r == current
  {
    if key in custom && custom[key].JNumber? then custom[key].n.AsF64() else current
  }

  /** `configure` does not re-validate: it can leave warning above critical, which
      `build` would have rejected. */
  lemma ConfigureSkipsOrderCheck()
    ensures var custom := map["temp_warning" := JNumber(PosInt(95))];
      NumberSetting(custom, "temp_warning", 75.0) >= NumberSetting(custom, "temp_critical", 90.0)
  {
  }

  // ---------------------------------------------------------------------
  // The sensor

  /** The fields no read changes. */
  datatype Settings = Settings(name: string, config: SensorConfig, metricsPath: string, outputFormat: OutputFormat,
                               tempWarning: real, tempCritical: real, powerWarning: real, powerCritical: real,
                               cacheStrategy: AM.CacheStrategy)

  /** `AmdgpuSensor` (device information, thermal monitoring and analytics aside). */
  class AmdgpuSensor {
    var name: string
    var config: SensorConfig
    var metricsPath: string
    var outputFormat: OutputFormat
    var tempWarning: real
    var tempCritical: real
    var powerWarning: real
    var powerCritical: real
    var showTemperature: bool
    var showPower: bool
    var showUtilization: bool
    var showMemory: bool
    var showFrequency: bool
    var reader: AM.MetricsReader
    var cacheStrategy: AM.CacheStrategy
    var lastMetrics: Option<(AM.Metrics, nat)>
    var consecutiveErrors: nat
    var lastErrorTime: Option<nat>

    predicate Valid()
      reads this, reader
    {
      reader.Valid() && reader.strategy == cacheStrategy
    }

    function Flags(): DisplayFlags
      reads this
    {
      DisplayFlags(showTemperature, showPower, showUtilization, showMemory, showFrequency)
    }

    function Recovery(): RecoveryState
      reads this
    {
      RecoveryState(consecutiveErrors, lastErrorTime, lastMetrics)
    }

    function CurrentSettings(): Settings
      reads this
    {
      Settings(name, config, metricsPath, outputFormat, tempWarning, tempCritical, powerWarning, powerCritical, cacheStrategy)
    }

    /** The struct literal at the end of `build`: default config, temperature, power
        and utilization shown, memory and frequency hidden, no error history. */
    constructor (sensorName: string, path: string, b: SensorBuilder)
      ensures Valid() && fresh(reader)
      ensures CurrentSettings() == Settings(sensorName, DefaultConfig(), path, b.outputFormat, b.tempWarning,
                                            b.tempCritical, b.powerWarning, b.powerCritical, b.cacheStrategy)
      ensures Flags() == DisplayFlags(true, true, true, false, false)
      ensures Recovery() == RecoveryState(0, None, None)
      ensures reader.cache.None? && reader.mapping.None?
    {
      name := sensorName;
      config := DefaultConfig();
      metricsPath := path;
      outputFormat := b.outputFormat;
      tempWarning := b.tempWarning;
      tempCritical := b.tempCritical;
      powerWarning := b.powerWarning;
      powerCritical := b.powerCritical;
      showTemperature := true;
      showPower := true;
      showUtilization := true;
      showMemory := false;
      showFrequency := false;
      reader := new AM.MetricsReader(b.cacheStrategy);
      cacheStrategy := b.cacheStrategy;
      lastMetrics := None;
      consecutiveErrors := 0;
      lastErrorTime := None;
    }

    /** `read_metrics_with_recovery`. */
    method ReadMetricsWithRecovery(now: nat, file: AM.FileRead) returns (r: Result<AM.Metrics, SensorError>)
      requires Valid()
      modifies this`consecutiveErrors, this`lastErrorTime, this`lastMetrics, reader
      ensures Valid()
      ensures (r, Recovery()) ==
        RecoveryStep(old(Recovery()), AM.ReadFileResult(old(reader.strategy), old(reader.cache), old(reader.mapping), now, file), now)
      ensures reader.strategy == old(reader.strategy)
      ensures (reader.cache, reader.mapping, reader.lastSuccessfulRead) ==
        AM.ReadFileState(old(reader.strategy), old(reader.cache), old(reader.mapping), old(reader.lastSuccessfulRead), now, file)
    {
      var read := reader.ReadFile(now, file);
      match read
      case Ok(m) =>
        consecutiveErrors := 0;
        lastErrorTime := None;
        lastMetrics := Some((m, now));
        r := Ok(m);
      case Err(e) =>
        consecutiveErrors := consecutiveErrors + 1;
        lastErrorTime := Some(now);
        r := Err(e);
        if consecutiveErrors <= STALE_ERROR_LIMIT && lastMetrics.Some? {
          var age := AM.Elapsed(now, lastMetrics.value.1);
          if age < STALE_MAX_AGE_MS {
            r := Ok(lastMetrics.value.0);
          }
        }
    }

    /** `update_display_config`: booleans first, then a display order, looped over. */
    method UpdateDisplayConfig(c: SensorConfig)
      modifies this`showTemperature, this`showPower, this`showUtilization, this`showMemory, this`showFrequency
      ensures Flags() == DisplayConfigSpec(old(Flags()), c.custom)
    {
      showTemperature := BoolSetting(c.custom, "show_temperature", showTemperature);
      showPower := BoolSetting(c.custom, "show_power", showPower);
      showUtilization := BoolSetting(c.custom, "show_utilization", showUtilization);
      showMemory := BoolSetting(c.custom, "show_memory", showMemory);
      showFrequency := BoolSetting(c.custom, "show_frequency", showFrequency);
      var order := DisplayOrder(c.custom);
      if order.Some? {
        ApplyDisplayOrder(order.value);
      }
    }

    /** The `display_order` branch: every flag off, then each entry in turn. */
    method ApplyDisplayOrder(items: seq<JsonValue>)
      modifies this`showTemperature, this`showPower, this`showUtilization, this`showMemory, this`showFrequency
      ensures Flags() == FlagsFromOrder(items)
    {
      showTemperature := false;
      showPower := false;
      showUtilization := false;
      showMemory := false;
      showFrequency := false;
      for i := 0 to |items|
        invariant Flags() == FlagsFromOrder(items[..i])
      {
        assert items[..i + 1][..i] == items[..i];
        EnableItem(items[i]);
      }
      assert items[..|items|] == items;
    }

    /** One `display_order` entry: the flag it names goes on. */
    method EnableItem(item: JsonValue)
      modifies this`showTemperature, this`showPower, this`showUtilization, this`showMemory, this`showFrequency
      ensures Flags() == EnableField(old(Flags()), item)
    {
      if item.JString? {
        var field := item.s;
        if field == "temperature" {
          showTemperature := true;
        } else if field == "power" {
          showPower := true;
        } else if field == "utilization" {
          showUtilization := true;
        } else if field == "memory" {
          showMemory := true;
        } else if field == "frequency" {
          showFrequency := true;
        }
      }
    }

    /** `format_output`, with the custom field list walked in a loop. */
    method FormatOutput(m: AM.Metrics, memUsage: (nat, nat)) returns (r: Formatted)
      ensures r == FormatOutputSpec(outputFormat, Flags(), tempCritical, powerCritical, m, memUsage)
    {
      var temp := AM.Temperature(m).0;
      var power := AM.Power(m);
      var activity := AM.Activity(m);
      var frequency := AM.Frequency(m);
      var fan := AM.FanSpeed(m);
      match outputFormat {
        case Custom(fields) =>
          var parts: seq<Part> := [];
          for i := 0 to |fields|
            invariant parts == CustomParts(fields[..i], temp, power, activity, frequency, (fan.0, fan.1))
          {
            assert fields[..i + 1][..i] == fields[..i];
            parts := parts + FieldParts(fields[i], temp, power, activity, frequency, (fan.0, fan.1));
          }
          assert fields[..|fields|] == fields;
          r := Formatted(if parts == [] then [Degrees(temp)] else parts, temp as real, Some(TruncateU8(activity)));
        case _ =>
          r := FormatOutputSpec(outputFormat, Flags(), tempCritical, powerCritical, m, memUsage);
      }
    }

    /** `read`: recovery, formatting, then the class from the format's thresholds. */
    method Read(now: nat, file: AM.FileRead, memUsage: (nat, nat)) returns (r: Result<ReadView, SensorError>)
      requires Valid()
      modifies this`consecutiveErrors, this`lastErrorTime, this`lastMetrics, reader
      ensures Valid()
      ensures var step := RecoveryStep(old(Recovery()),
                AM.ReadFileResult(old(reader.strategy), old(reader.cache), old(reader.mapping), now, file), now);
        Recovery() == step.1 &&
        (r.Err? <==> step.0.Err?) &&
        (r.Err? ==> r.error == step.0.error) &&
        (r.Ok? ==> r.value == ViewOf(FormatOutputSpec(outputFormat, Flags(), tempCritical, powerCritical, step.0.value, memUsage),
                                     ReadThresholds(outputFormat, tempWarning, tempCritical, powerWarning, powerCritical),
                                     config.theme))
      ensures reader.strategy == old(reader.strategy)
      ensures (reader.cache, reader.mapping, reader.lastSuccessfulRead) ==
        AM.ReadFileState(old(reader.strategy), old(reader.cache), old(reader.mapping), old(reader.lastSuccessfulRead), now, file)
    {
      var metrics := ReadMetricsWithRecovery(now, file);
      if metrics.Err? {
        return Err(metrics.error);
      }
      var formatted := FormatOutput(metrics.value, memUsage);
      var thresholds := ReadThresholds(outputFormat, tempWarning, tempCritical, powerWarning, powerCritical);
      r := Ok(ViewOf(formatted, thresholds, config.theme));
    }

    /** `invalidate_cache`: the reader's slot and map, and the remembered metrics. */
    method InvalidateCache()
      requires Valid()
      modifies this`lastMetrics, reader
      ensures Valid()
      ensures reader.cache.None? && reader.mapping.None? && lastMetrics.None?
      ensures reader.strategy == old(reader.strategy) && reader.errorCount == old(reader.errorCount) &&
              reader.lastSuccessfulRead == old(reader.lastSuccessfulRead)
    {
      reader.InvalidateCache();
      lastMetrics := None;
    }

    /** `configure`: numeric temperature thresholds, the display flags, the new
        config, then a cache invalidation; never fails. */
    method Configure(c: SensorConfig)
      requires Valid()
      modifies this`tempWarning, this`tempCritical, this`config, this`lastMetrics, reader
      modifies this`showTemperature, this`showPower, this`showUtilization, this`showMemory, this`showFrequency
      ensures Valid()
      ensures tempWarning == NumberSetting(c.custom, "temp_warning", old(tempWarning))
      ensures tempCritical == NumberSetting(c.custom, "temp_critical", old(tempCritical))
      ensures Flags() == DisplayConfigSpec(old(Flags()), c.custom)
      ensures config == c
      ensures reader.cache.None? && reader.mapping.None? && lastMetrics.None?
      ensures reader.strategy == old(reader.strategy) && reader.errorCount == old(reader.errorCount) &&
              reader.lastSuccessfulRead == old(reader.lastSuccessfulRead)
    {
      tempWarning := NumberSetting(c.custom, "temp_warning", tempWarning);
      tempCritical := NumberSetting(c.custom, "temp_critical", tempCritical);
      UpdateDisplayConfig(c);
      config := c;
      InvalidateCache();
    }

    /** `is_throttling`: known only once metrics have been read. */
    function IsThrottling(): (r: Option<bool>)
      reads this
      ensures r.Some? <==> lastMetrics.Some?
      ensures r.Some? ==> (r.value <==> AM.IsThrottling(AM.Throttle(lastMetrics.value.0)))
    {
      if lastMetrics.Some? then Some(AM.Throttle(lastMetrics.value.0).word != 0) else None
    }
  }

  /** `build`: the checks of `BuildSpec`, then a fresh sensor. */
  method Build(b: SensorBuilder, discovered: Result<Option<string>, SensorError>, pathExists: bool,
               cardName: Result<string, SensorError>, show: FloatDisplay) returns (r: Result<AmdgpuSensor, SensorError>)
    ensures r.Err? <==> BuildSpec(b, discovered, pathExists, cardName, show).Err?
    ensures r.Err? ==> r.error == BuildSpec(b, discovered, pathExists, cardName, show).error
    ensures r.Ok? ==> var (path, name) := BuildSpec(b, discovered, pathExists, cardName, show).value;
      fresh(r.value) && fresh(r.value.reader) && r.value.Valid() &&
      r.value.CurrentSettings() == Settings(name, DefaultConfig(), path, b.outputFormat, b.tempWarning,
                                            b.tempCritical, b.powerWarning, b.powerCritical, b.cacheStrategy) &&
      r.value.Flags() == DisplayFlags(true, true, true, false, false) &&
      r.value.Recovery() == RecoveryState(0, None, None)
  {
    var checked := BuildSpec(b, discovered, pathExists, cardName, show);
    if checked.Err? {
      return Err(checked.error);
    }
    var sensor := new AmdgpuSensor(checked.value.1, checked.value.0, b);
    r := Ok(sensor);
  }
}
