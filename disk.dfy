/** The single-disk sensor: `df` output parsing, the `/proc/mounts`
    read-only check, usage percentages, a bounded trend history, a max-age
    cache of the last reading and the sensor builder. Time is whole
    milliseconds on a monotonic clock. */
module Disk {
  import opened Wrappers
  import opened Text
  import opened CoreLib
  import opened Readings

  // ---------------------------------------------------------------------
  // Errors

  /** `DiskError`; the I/O source of a failed command is its error kind. */
  datatype DiskError =
    | CommandFailed(command: string, kind: IoErrorKind)
    | InvalidPath(path: string, reason: string)
    | UsageCalculation(path: string, reason: string)
    | PerformanceMonitoring(reason: string)

  /** `From<DiskError> for SensorError`. */
  function FromDiskError(e: DiskError): SensorError {
    match e
    case CommandFailed(_, k) => Io(k)
    case InvalidPath(path, reason) => InvalidData(INVALID_PATH + reason, Some(path))
    case UsageCalculation(_, reason) => Parse(reason)
    case PerformanceMonitoring(reason) => Parse(reason)
  }

  /** Only a command that failed with an interrupted or timed-out I/O error
      is worth retrying; a bad path keeps the path as the offending value. */
  lemma ConvertedErrors(e: DiskError)
    ensures IsTemporary(FromDiskError(e)) <==> e.CommandFailed? && (e.kind == Interrupted || e.kind == TimedOut)
    ensures e.InvalidPath? ==> FromDiskError(e).InvalidData? && FromDiskError(e).data == Some(e.path)
    ensures e.UsageCalculation? || e.PerformanceMonitoring? ==> FromDiskError(e) == Parse(e.reason)
  {
  }

  /** The outcome of running `df`: the spawn failed, or the process exited
      with its output (`None` when standard output is not UTF-8) and its
      standard error, lossily decoded. */
  datatype CommandRun =
    | SpawnFailed(kind: IoErrorKind)
    | Exited(success: bool, stdout: Option<string>, stderr: string)

  // ---------------------------------------------------------------------
  // Disk information

  /** `DiskInfo`; sizes are bytes and the timestamp is when it was fetched. */
  datatype DiskInfo = DiskInfo(
    path: string,
    device: string,
    filesystem: string,
    total: nat,
    used: nat,
    available: nat,
    inodesTotal: Option<nat>,
    inodesUsed: Option<nat>,
    readonly: bool,
    timestamp: nat)

  /** `used_percentage`: 0 for an empty filesystem. */
  function UsedPercentage(i: DiskInfo): (r: real)
    ensures i.total == 0 ==> r == 0.0
    ensures i.total > 0 ==> r * (i.total as real) == (i.used as real) * 100.0
    ensures i.used <= i.total ==> 0.0 <= r <= 100.0
  {
    Percent(i.used, i.total)
  }

  /** `available_percentage`: 0 for an empty filesystem. */
  function AvailablePercentage(i: DiskInfo): (r: real)
    ensures i.total == 0 ==> r == 0.0
    ensures i.total > 0 ==> r * (i.total as real) == (i.available as real) * 100.0
    ensures i.available <= i.total ==> 0.0 <= r <= 100.0
  {
    Percent(i.available, i.total)
  }

  /** `inode_usage_percentage`: only when both inode counts are known and the
      total is positive. */
  function InodeUsagePercentage(i: DiskInfo): (r: Option<real>)
    ensures r.Some? <==> i.inodesTotal.Some? && i.inodesUsed.Some? && i.inodesTotal.value > 0
    ensures r.Some? ==> r.value * (i.inodesTotal.value as real) == (i.inodesUsed.value as real) * 100.0
  {
    match (i.inodesTotal, i.inodesUsed)
    case (Some(total), Some(used)) => if total > 0 then Some(Percent(used, total)) else None
    case _ => None
  }

  /** When used and available space make up the whole filesystem, the two
      percentages make up 100. */
  lemma PercentagesComplement(i: DiskInfo)
    requires i.total > 0 && i.used + i.available == i.total
    ensures UsedPercentage(i) + AvailablePercentage(i) == 100.0
  {
    PercentComplement(i.used, i.available, i.total);
  }

  /** The figures the source's own test checks. */
  lemma PercentageExample()
    ensures var i := DiskInfo("/", "/dev/sda1", "ext4", 1000, 600, 400, Some(10000), Some(3000), false, 0);
      UsedPercentage(i) == 60.0 && AvailablePercentage(i) == 40.0 && InodeUsagePercentage(i) == Some(30.0)
  {
  }

  // ---------------------------------------------------------------------
  // Usage trend

  const MS_PER_SECOND: nat := 1000
  const SECONDS_PER_DAY: nat := 86400

  /** `trend_per_day` of a history of `(timestamp, used %)` samples: the
      change from the first to the last sample per day between them, when
      there are two samples at least a whole second apart. The elapsed time
      saturates at zero, as `duration_since` does. */
  function TrendOf(h: seq<(nat, real)>): (r: Option<real>)
    ensures r.None? <==> |h| < 2 || SaturatingSub(h[|h| - 1].0, h[0].0) < MS_PER_SECOND
    ensures r.Some? ==>
      r.value * (SaturatingSub(h[|h| - 1].0, h[0].0) as real) ==
        (h[|h| - 1].1 - h[0].1) * (MS_PER_SECOND * SECONDS_PER_DAY) as real
  {
    if |h| < 2 then None
    else
      var span := SaturatingSub(h[|h| - 1].0, h[0].0);
      if span / MS_PER_SECOND == 0 then None
      else Some(PerDay(h[|h| - 1].1 - h[0].1, span))
  }

  /** A change over `span` milliseconds, scaled to one day. */
  function PerDay(change: real, span: nat): (r: real)
    requires span > 0
    ensures r * (span as real) == change * (MS_PER_SECOND * SECONDS_PER_DAY) as real
  {
    var days := (span as real / MS_PER_SECOND as real) / SECONDS_PER_DAY as real;
    assert days * (MS_PER_SECOND * SECONDS_PER_DAY) as real == span as real;
    change / days
  }

  /** A rising usage gives a positive trend and a falling one a negative trend. */
  lemma TrendSign(h: seq<(nat, real)>)
    requires TrendOf(h).Some?
    ensures TrendOf(h).value > 0.0 <==> h[|h| - 1].1 > h[0].1
    ensures TrendOf(h).value < 0.0 <==> h[|h| - 1].1 < h[0].1
  {
    var r, span := TrendOf(h).value, SaturatingSub(h[|h| - 1].0, h[0].0) as real;
    var c := h[|h| - 1].1 - h[0].1;
    assert r * span == c * (MS_PER_SECOND * SECONDS_PER_DAY) as real;
    if r > 0.0 { assert r * span > 0.0; }
    if r < 0.0 { assert r * span < 0.0; }
    if r == 0.0 { assert r * span == 0.0; }
  }

  /** `UsageTrend`: samples pushed at the end, the oldest dropped past
      `max_history`. */
  class UsageTrend {
    var history: seq<(nat, real)>
    const maxHistory: nat

    constructor (maxHistory: nat)
      ensures history == [] && this.maxHistory == maxHistory
    {
      history := [];
      this.maxHistory := maxHistory;
    }

    /** `add_sample`. */
    method AddSample(timestamp: nat, usage: real)
      modifies this`history
      ensures history == PushHistory(old(history), (timestamp, usage), maxHistory)
    {
      history := history + [(timestamp, usage)];
      if |history| > maxHistory {
        history := history[1..];
      }
    }

    /** `trend_per_day`. */
    function TrendPerDay(): Option<real>
      reads this
    {
      TrendOf(history)
    }
  }

  /** The source's test: 50 %, 52 % and 54 % an hour apart rise 48 points a day. */
  lemma TrendExample()
    ensures var h := PushHistory(PushHistory(PushHistory([], (0, 50.0), 10), (3600000, 52.0), 10), (7200000, 54.0), 10);
      TrendOf(h) == Some(48.0)
  {
    var h := PushHistory(PushHistory(PushHistory([], (0, 50.0), 10), (3600000, 52.0), 10), (7200000, 54.0), 10);
    assert h == [(0, 50.0), (3600000, 52.0), (7200000, 54.0)];
    var r := TrendOf(h).value;
    assert r * 7200000.0 == 4.0 * 86400000.0;
  }

  // ---------------------------------------------------------------------
  // Parsing `df -B1 -T -P`

  /** Device, filesystem type, total, used and available bytes. */
  datatype DfRow = DfRow(device: string, filesystem: string, total: nat, used: nat, available: nat)

  const NO_DF_LINE: string := "Could not parse df output"

  /** The fields of the first data line: the third, fourth and fifth must be `u64`s. */
  function DfRowOf(parts: seq<string>): (r: Result<DfRow, SensorError>)
    requires |parts| >= 6
    ensures r.Ok? <==> ParseU64(parts[2]).Some? && ParseU64(parts[3]).Some? && ParseU64(parts[4]).Some?
    ensures r.Ok? ==> r.value == DfRow(parts[0], parts[1], ParseU64(parts[2]).value,
                                       ParseU64(parts[3]).value, ParseU64(parts[4]).value)
    ensures ParseU64(parts[2]).None? ==> r == Err(Parse("Failed to parse total space"))
    ensures ParseU64(parts[2]).Some? && ParseU64(parts[3]).None? ==> r == Err(Parse("Failed to parse used space"))
    ensures ParseU64(parts[2]).Some? && ParseU64(parts[3]).Some? && ParseU64(parts[4]).None? ==>
      r == Err(Parse("Failed to parse available space"))
  {
    match ParseU64(parts[2])
    case None => Err(Parse("Failed to parse total space"))
    case Some(total) =>
      match ParseU64(parts[3])
      case None => Err(Parse("Failed to parse used space"))
      case Some(used) =>
        match ParseU64(parts[4])
        case None => Err(Parse("Failed to parse available space"))
        case Some(available) => Ok(DfRow(parts[0], parts[1], total, used, available))
  }

  /** The first of the lines with at least six fields decides. */
  function DfFrom(lines: seq<string>): Result<DfRow, SensorError>
    decreases |lines|
  {
    if lines == [] then Err(Parse(NO_DF_LINE))
    else
      var parts := SplitWhitespace(lines[0]);
      if |parts| >= 6 then DfRowOf(parts) else DfFrom(lines[1..])
  }

  /** The lines after the header. */
  function AfterHeader(output: string): seq<string> {
    var lines := Lines(output);
    if lines == [] then [] else lines[1..]
  }

  /** A line `df` could not have printed as data: fewer than six fields. */
  predicate ShortLine(line: string) { |SplitWhitespace(line)| < 6 }

  /** `parse_df_output`: skip the header, then take the first line with at
      least six fields. */
  method ParseDfOutput(output: string) returns (r: Result<DfRow, SensorError>)
    ensures r == DfFrom(AfterHeader(output))
  {
    var rest := AfterHeader(output);
    var i := 0;
    while i < |rest|
      invariant 0 <= i <= |rest|
      invariant DfFrom(rest[i..]) == DfFrom(rest)
    {
      assert rest[i..][1..] == rest[i + 1..];
      var parts := SplitWhitespace(rest[i]);
      if |parts| >= 6 {
        return DfRowOf(parts);
      }
      i := i + 1;
    }
    assert rest[i..] == [];
    r := Err(Parse(NO_DF_LINE));
  }

  /** Short lines before the first data line are skipped and lines after it
      are never looked at. */
  lemma {:induction false} DfFirstDataLine(pre: seq<string>, line: string, post: seq<string>)
    requires forall i :: 0 <= i < |pre| ==> ShortLine(pre[i])
    requires !ShortLine(line)
    ensures DfFrom(pre + [line] + post) == DfRowOf(SplitWhitespace(line))
    decreases |pre|
  {
    if pre != [] {
      assert (pre + [line] + post)[1..] == pre[1..] + [line] + post;
      assert ShortLine(pre[0]);
      DfFirstDataLine(pre[1..], line, post);
    }
  }

  /** Without a data line the parse fails with "Could not parse df output". */
  lemma {:induction false} DfNoDataLine(lines: seq<string>)
    requires forall i :: 0 <= i < |lines| ==> ShortLine(lines[i])
    ensures DfFrom(lines) == Err(Parse(NO_DF_LINE))
    decreases |lines|
  {
    if lines != [] {
      assert ShortLine(lines[0]);
      DfNoDataLine(lines[1..]);
    }
  }

  /** The data line `df -P` prints for a row: device, type, the three sizes,
      the capacity and the mount point, separated by spaces. */
  function DfLine(row: DfRow, capacity: string, mount: string): string {
    Join(DfWords(row, capacity, mount), " ")
  }

  /** The words of a printed row. */
  function DfWords(row: DfRow, capacity: string, mount: string): seq<string> {
    [row.device, row.filesystem, NatToString(row.total), NatToString(row.used),
     NatToString(row.available), capacity, mount]
  }

  /** A printed row splits back into its seven words. */
  lemma DfLineWords(row: DfRow, capacity: string, mount: string)
    requires |row.device| > 0 && NoSpace(row.device) && |row.filesystem| > 0 && NoSpace(row.filesystem)
    requires |capacity| > 0 && NoSpace(capacity) && |mount| > 0 && NoSpace(mount)
    ensures SplitWhitespace(DfLine(row, capacity, mount)) == DfWords(row, capacity, mount)
  {
    var ws := DfWords(row, capacity, mount);
    NatToStringIsWord(row.total);
    NatToStringIsWord(row.used);
    NatToStringIsWord(row.available);
    assert [] + Join(ws, " ") == DfLine(row, capacity, mount);
    SplitWhitespaceJoin([], ws);
  }

  /** A printed row with word-like names and sizes within `u64` reads back. */
  lemma DfLineParses(row: DfRow, capacity: string, mount: string)
    requires |row.device| > 0 && NoSpace(row.device) && |row.filesystem| > 0 && NoSpace(row.filesystem)
    requires |capacity| > 0 && NoSpace(capacity) && |mount| > 0 && NoSpace(mount)
    requires row.total <= U64_MAX && row.used <= U64_MAX && row.available <= U64_MAX
    ensures !ShortLine(DfLine(row, capacity, mount))
    ensures DfRowOf(SplitWhitespace(DfLine(row, capacity, mount))) == Ok(row)
  {
    DfLineWords(row, capacity, mount);
    var ws := DfWords(row, capacity, mount);
    assert ws[2] == NatToString(row.total) && ws[3] == NatToString(row.used) && ws[4] == NatToString(row.available);
    ParseUnsignedOfNatToString(row.total, U64_MAX);
    ParseUnsignedOfNatToString(row.used, U64_MAX);
    ParseUnsignedOfNatToString(row.available, U64_MAX);
  }

  // ---------------------------------------------------------------------
  // Parsing `df -i -P`

  /** The inode counts of the first line with at least four fields; a count
      that does not parse is unknown. */
  function InodesFrom(lines: seq<string>): (r: (Option<nat>, Option<nat>))
    decreases |lines|
  {
    if lines == [] then (None, None)
    else
      var parts := SplitWhitespace(lines[0]);
      if |parts| >= 4 then (ParseU64(parts[1]), ParseU64(parts[2])) else InodesFrom(lines[1..])
  }

  /** `get_inode_info` on the outcome of `df -i -P`: a failed run means the
      filesystem has no inode figures. */
  function InodeSpec(run: CommandRun): (r: Result<(Option<nat>, Option<nat>), SensorError>)
    ensures run.SpawnFailed? ==> r == Err(Io(run.kind))
    ensures run.Exited? && !run.success ==> r == Ok((None, None))
    ensures run.Exited? && run.success && run.stdout.None? ==> r == Err(Parse("Invalid UTF-8 in df -i output"))
    ensures run.Exited? && run.success && run.stdout.Some? ==> r == Ok(InodesFrom(AfterHeader(run.stdout.value)))
  {
    match run
    case SpawnFailed(k) => Err(Io(k))
    case Exited(success, stdout, _) =>
      if !success then Ok((None, None))
      else if stdout.None? then Err(Parse("Invalid UTF-8 in df -i output"))
      else Ok(InodesFrom(AfterHeader(stdout.value)))
  }

  /** The line loop of `get_inode_info`. */
  method ParseInodeOutput(output: string) returns (r: (Option<nat>, Option<nat>))
    ensures r == InodesFrom(AfterHeader(output))
  {
    var rest := AfterHeader(output);
    var i := 0;
    while i < |rest|
      invariant 0 <= i <= |rest|
      invariant InodesFrom(rest[i..]) == InodesFrom(rest)
    {
      assert rest[i..][1..] == rest[i + 1..];
      var parts := SplitWhitespace(rest[i]);
      if |parts| >= 4 {
        return (ParseU64(parts[1]), ParseU64(parts[2]));
      }
      i := i + 1;
    }
    assert rest[i..] == [];
    r := (None, None);
  }

  // ---------------------------------------------------------------------
  // The read-only check

  /** The mounts line for `path`: at least four fields, the second being the
      mount point. */
  predicate MountsLineFor(parts: seq<string>, path: string) { |parts| >= 4 && parts[1] == path }

  /** The first mounts line for the path decides: read-only when "ro" is one
      of its comma-separated options; no such line means read-write. */
  function ReadonlyFrom(lines: seq<string>, path: string): bool
    decreases |lines|
  {
    if lines == [] then false
    else
      var parts := SplitWhitespace(lines[0]);
      if MountsLineFor(parts, path) then "ro" in Split(parts[3], ",") else ReadonlyFrom(lines[1..], path)
  }

  /** `is_readonly` on the contents of `/proc/mounts`. */
  method IsReadonly(mounts: TextRead, path: string) returns (r: Result<bool, SensorError>)
    ensures mounts.Err? ==> r == Err(Io(mounts.error))
    ensures mounts.Ok? ==> r == Ok(ReadonlyFrom(Lines(mounts.value), path))
  {
    if mounts.Err? {
      return Err(Io(mounts.error));
    }
    var lines := Lines(mounts.value);
    var i := 0;
    while i < |lines|
      invariant 0 <= i <= |lines|
      invariant ReadonlyFrom(lines[i..], path) == ReadonlyFrom(lines, path)
    {
      assert lines[i..][1..] == lines[i + 1..];
      var parts := SplitWhitespace(lines[i]);
      if MountsLineFor(parts, path) {
        return Ok("ro" in Split(parts[3], ","));
      }
      i := i + 1;
    }
    assert lines[i..] == [];
    r := Ok(false);
  }

  /** The answer comes from the first line for the path, whatever follows. */
  lemma {:induction false} ReadonlyFirstMatch(pre: seq<string>, line: string, post: seq<string>, path: string)
    requires forall i :: 0 <= i < |pre| ==> !MountsLineFor(SplitWhitespace(pre[i]), path)
    requires MountsLineFor(SplitWhitespace(line), path)
    ensures ReadonlyFrom(pre + [line] + post, path) == ("ro" in Split(SplitWhitespace(line)[3], ","))
    decreases |pre|
  {
    if pre != [] {
      assert (pre + [line] + post)[1..] == pre[1..] + [line] + post;
      assert !MountsLineFor(SplitWhitespace(pre[0]), path);
      ReadonlyFirstMatch(pre[1..], line, post, path);
    }
  }

  /** A path with no mounts line is taken to be read-write. */
  lemma {:induction false} ReadonlyUnmounted(lines: seq<string>, path: string)
    requires forall i :: 0 <= i < |lines| ==> !MountsLineFor(SplitWhitespace(lines[i]), path)
    ensures !ReadonlyFrom(lines, path)
    decreases |lines|
  {
    if lines != [] {
      assert !MountsLineFor(SplitWhitespace(lines[0]), path);
      ReadonlyUnmounted(lines[1..], path);
    }
  }

  // ---------------------------------------------------------------------
  // Builder

  /** `DisplayMode` of the builder, used only by the multi-disk sensor. */
  datatype DisplayMode = HighestUsage | Combined | Cycle | Average | Total

  /** `CacheConfig`: how long a reading is served from the cache. */
  datatype CacheConfig = CacheConfig(maxAgeMs: nat, aggressive: bool)

  /** `CacheConfig::default`: five seconds, not aggressive. */
  const DEFAULT_CACHE: CacheConfig := CacheConfig(5000, false)

  /** `DiskSensorBuilder`; thresholds are `u8` percentages. */
  datatype DiskSensorBuilder = DiskSensorBuilder(
    path: Option<string>,
    paths: seq<string>,
    warningThreshold: nat,
    criticalThreshold: nat,
    showAvailable: bool,
    monitorInodes: bool,
    cacheConfig: CacheConfig,
    displayMode: DisplayMode,
    performanceMonitoring: bool,
    trendHistorySize: nat)

  /** The settings both builder constructors start from: warning 80 %,
      critical 95 %, used space, no inodes, the default cache, the
      highest-usage mode, no trend tracking and 24 trend samples. */
  predicate HasBuilderDefaults(b: DiskSensorBuilder) {
    b.paths == [] && b.warningThreshold == 80 && b.criticalThreshold == 95 &&
    !b.showAvailable && !b.monitorInodes && b.cacheConfig == DEFAULT_CACHE &&
    b.displayMode == HighestUsage && !b.performanceMonitoring && b.trendHistorySize == 24
  }

  /** `DiskSensorBuilder::new`. */
  function NewBuilder(path: string): (b: DiskSensorBuilder)
    ensures b.path == Some(path) && HasBuilderDefaults(b)
  {
    DiskSensorBuilder(Some(path), [], 80, 95, false, false, DEFAULT_CACHE, HighestUsage, false, 24)
  }

  /** `DiskSensorBuilder::multi_disk`. */
  function MultiDiskBuilder(): (b: DiskSensorBuilder)
    ensures b.path.None? && HasBuilderDefaults(b)
  {
    DiskSensorBuilder(None, [], 80, 95, false, false, DEFAULT_CACHE, HighestUsage, false, 24)
  }

  /** `add_path`. */
  function AddPath(b: DiskSensorBuilder, p: string): (r: DiskSensorBuilder)
    ensures r.paths == b.paths + [p] && r.(paths := b.paths) == b
  {
    b.(paths := b.paths + [p])
  }

  /** `warning_threshold`: capped at 100. */
  function WithWarningThreshold(b: DiskSensorBuilder, t: nat): (r: DiskSensorBuilder)
    requires t <= U8_MAX
    ensures r.warningThreshold == if t <= 100 then t else 100
    ensures r.(warningThreshold := b.warningThreshold) == b
  {
    b.(warningThreshold := if t <= 100 then t else 100)
  }

  /** `critical_threshold`: capped at 100. */
  function WithCriticalThreshold(b: DiskSensorBuilder, t: nat): (r: DiskSensorBuilder)
    requires t <= U8_MAX
    ensures r.criticalThreshold == if t <= 100 then t else 100
    ensures r.(criticalThreshold := b.criticalThreshold) == b
  {
    b.(criticalThreshold := if t <= 100 then t else 100)
  }

  /** `trend_history_size`: at least two samples. */
  function WithTrendHistorySize(b: DiskSensorBuilder, size: nat): (r: DiskSensorBuilder)
    ensures r.trendHistorySize == if size >= 2 then size else 2
    ensures r.(trendHistorySize := b.trendHistorySize) == b
  {
    b.(trendHistorySize := if size >= 2 then size else 2)
  }

  /** The plain setters `show_available`, `monitor_inodes`, `cache_config`,
      `display_mode` and `performance_monitoring`. */
  function WithShowAvailable(b: DiskSensorBuilder, v: bool): DiskSensorBuilder { b.(showAvailable := v) }
  function WithMonitorInodes(b: DiskSensorBuilder, v: bool): DiskSensorBuilder { b.(monitorInodes := v) }
  function WithCacheConfig(b: DiskSensorBuilder, c: CacheConfig): DiskSensorBuilder { b.(cacheConfig := c) }
  function WithDisplayMode(b: DiskSensorBuilder, m: DisplayMode): DiskSensorBuilder { b.(displayMode := m) }
  function WithPerformanceMonitoring(b: DiskSensorBuilder, v: bool): DiskSensorBuilder { b.(performanceMonitoring := v) }

  /** Thresholds within 0..=100 and a trend history of at least two samples. */
  predicate BuilderBounded(b: DiskSensorBuilder) {
    b.warningThreshold <= 100 && b.criticalThreshold <= 100 && b.trendHistorySize >= 2
  }

  /** Both constructors start bounded and every setter keeps the bounds. */
  lemma BuilderStaysBounded(b: DiskSensorBuilder, p: string, t: nat, size: nat, v: bool, c: CacheConfig, m: DisplayMode)
    requires BuilderBounded(b) && t <= U8_MAX
    ensures BuilderBounded(NewBuilder(p)) && BuilderBounded(MultiDiskBuilder())
    ensures BuilderBounded(AddPath(b, p))
    ensures BuilderBounded(WithWarningThreshold(b, t)) && BuilderBounded(WithCriticalThreshold(b, t))
    ensures BuilderBounded(WithTrendHistorySize(b, size))
    ensures BuilderBounded(WithShowAvailable(b, v)) && BuilderBounded(WithMonitorInodes(b, v))
    ensures BuilderBounded(WithCacheConfig(b, c)) && BuilderBounded(WithDisplayMode(b, m))
    ensures BuilderBounded(WithPerformanceMonitoring(b, v))
  {
  }

  /** A character that becomes a dash in the sensor name: '/' or '-'. */
  predicate Dashed(c: char) { SwapChar(c, '/', '-') == '-' }

  /** The path as the sensor name shows it: '/' turned into '-' and the
      dashes at either end dropped. */
  function NamePart(path: string): string {
    TrimMatches(SwapAll(path, '/', '-'), '-')
  }

  /** The name part is the path from its first character that is neither '/'
      nor '-' (the `k` skipped ones), with each '/' shown as '-', up to its
      last such character; only slashes and dashes come after. */
  lemma NamePartChars(path: string)
    ensures var name := NamePart(path); var k := LeadCount(SwapAll(path, '/', '-'), '-');
      k + |name| <= |path| &&
      (forall i :: 0 <= i < k ==> Dashed(path[i])) &&
      (forall i :: 0 <= i < |name| ==> name[i] == SwapChar(path[k + i], '/', '-')) &&
      (forall i :: k + |name| <= i < |path| ==> Dashed(path[i])) &&
      (name != [] ==> name[0] != '-' && name[|name| - 1] != '-')
  {
    ReplaceThenTrim(path, '/', '-');
  }

  /** The sensor name: "disk-" and the path's name part. */
  function DiskSensorName(path: string): (r: string)
    ensures StartsWith(r, "disk-") && r[5..] == NamePart(path)
  {
    var r := "disk-" + NamePart(path);
    assert r[..5] == "disk-" && r[5..] == NamePart(path);
    r
  }

  /** An absolute path whose text after the root neither starts nor ends
      with '/' or '-' names the sensor after that text, slashes as dashes. */
  lemma DiskSensorNameOfAbsolute(w: string)
    requires w != [] && !Dashed(w[0]) && !Dashed(w[|w| - 1])
    ensures DiskSensorName("/" + w) == "disk-" + SwapAll(w, '/', '-')
  {
    ReplaceThenTrimAfterOne(w, '/', '-');
  }

  const NO_PATH: string := "No path specified for single disk sensor"
  const INVALID_PATH: string := "Invalid disk path: "
  const THRESHOLD_ORDER: string := "Warning threshold" + " must be less than critical threshold"

  /** The offending value of the threshold check. */
  function ThresholdPair(warning: nat, critical: nat): string {
    "warning: " + NatToString(warning) + ", critical: " + NatToString(critical)
  }

  /** `build`: a path is required and must be an existing directory, and
      warning must be below critical; the result is the sensor name. */
  function BuildSpec(b: DiskSensorBuilder, pathExists: bool, isDir: bool): (r: Result<string, SensorError>)
    ensures b.path.None? ==> r == Err(Config(NO_PATH, None))
    ensures b.path.Some? && !pathExists ==>
      r == Err(InvalidData(INVALID_PATH + "Path does not exist", Some(b.path.value)))
    ensures b.path.Some? && pathExists && !isDir ==>
      r == Err(InvalidData(INVALID_PATH + "Path is not a directory", Some(b.path.value)))
    ensures b.path.Some? && pathExists && isDir && b.warningThreshold >= b.criticalThreshold ==>
      r == Err(Config(THRESHOLD_ORDER, Some(ThresholdPair(b.warningThreshold, b.criticalThreshold))))
    ensures r.Ok? <==> b.path.Some? && pathExists && isDir && b.warningThreshold < b.criticalThreshold
    ensures r.Ok? ==> r.value == DiskSensorName(b.path.value)
  {
    if b.path.None? then Err(Config(NO_PATH, None))
    else if !pathExists then Err(FromDiskError(InvalidPath(b.path.value, "Path does not exist")))
    else if !isDir then Err(FromDiskError(InvalidPath(b.path.value, "Path is not a directory")))
    else if b.warningThreshold >= b.criticalThreshold then
      Err(Config(THRESHOLD_ORDER, Some(ThresholdPair(b.warningThreshold, b.criticalThreshold))))
    else Ok(DiskSensorName(b.path.value))
  }

  /** The source's builder tests: 75/90 builds on an existing directory, and
      95/80 is refused with a message about the warning threshold. */
  lemma BuilderExamples(p: string)
    ensures BuildSpec(WithCriticalThreshold(WithWarningThreshold(NewBuilder(p), 75), 90), true, true).Ok?
    ensures var e := BuildSpec(WithCriticalThreshold(WithWarningThreshold(NewBuilder(p), 95), 80), true, true);
      e.Err? && e.error.Config? && StartsWith(e.error.message, "Warning threshold")
  {
    assert THRESHOLD_ORDER[..|"Warning threshold"|] == "Warning threshold";
  }

  // ---------------------------------------------------------------------
  // Fetching and caching

  /** What the sensor sees when it fetches: the `df -B1 -T -P` run, the
      `df -i -P` run, the contents of `/proc/mounts`, and the clock when the
      fetch completes. */
  datatype SystemView = SystemView(df: CommandRun, dfInodes: CommandRun, mounts: TextRead, clock: nat)

  /** `is_readonly`. */
  function ReadonlySpec(mounts: TextRead, path: string): Result<bool, SensorError> {
    if mounts.Err? then Err(Io(mounts.error)) else Ok(ReadonlyFrom(Lines(mounts.value), path))
  }

  /** `fetch_disk_info`: `df` must run, succeed and print UTF-8 with a data
      line; the inode counts are asked for only when inodes are monitored;
      then the read-only flag. */
  function FetchSpec(path: string, monitorInodes: bool, v: SystemView): (r: Result<DiskInfo, SensorError>)
    ensures v.df.SpawnFailed? ==> r == Err(Io(v.df.kind))
    ensures v.df.Exited? && !v.df.success ==> r == Err(Parse("df command failed: " + v.df.stderr))
    ensures r.Ok? ==> (v.df.Exited? && v.df.success && v.df.stdout.Some? &&
      var row := DfFrom(AfterHeader(v.df.stdout.value));
      row.Ok? && r.value.path == path && r.value.device == row.value.device &&
      r.value.filesystem == row.value.filesystem && r.value.total == row.value.total &&
      r.value.used == row.value.used && r.value.available == row.value.available &&
      r.value.timestamp == v.clock && ReadonlySpec(v.mounts, path) == Ok(r.value.readonly))
    ensures r.Ok? && !monitorInodes ==> r.value.inodesTotal.None? && r.value.inodesUsed.None?
  {
    match v.df
    case SpawnFailed(k) => Err(FromDiskError(CommandFailed("df", k)))
    case Exited(success, stdout, stderr) =>
      if !success then Err(FromDiskError(UsageCalculation(path, "df command failed: " + stderr)))
      else if stdout.None? then Err(Parse("Invalid UTF-8 in df output"))
      else
        match DfFrom(AfterHeader(stdout.value))
        case Err(e) => Err(e)
        case Ok(row) =>
          match (if monitorInodes then InodeSpec(v.dfInodes) else Ok((None, None)))
          case Err(e) => Err(e)
          case Ok(inodes) =>
            match ReadonlySpec(v.mounts, path)
            case Err(e) => Err(e)
            case Ok(ro) =>
              Ok(DiskInfo(path, row.device, row.filesystem, row.total, row.used, row.available,
                          inodes.0, inodes.1, ro, v.clock))
  }

  /** A cached reading younger than the maximum age is served; a clock that
      went backwards counts as no time passed. */
  predicate CacheFresh(cached: Option<DiskInfo>, maxAgeMs: nat, now: nat) {
    cached.Some? && SaturatingSub(now, cached.value.timestamp) < maxAgeMs
  }

  /** `get_disk_info`'s answer: the cached reading while fresh, else a fetch. */
  function CachedOrFetched(cached: Option<DiskInfo>, maxAgeMs: nat, now: nat,
                           path: string, monitorInodes: bool, v: SystemView): Result<DiskInfo, SensorError> {
    if CacheFresh(cached, maxAgeMs, now) then Ok(cached.value) else FetchSpec(path, monitorInodes, v)
  }

  /** A reading is served from the cache for exactly `max_age` milliseconds
      after it was fetched; a zero maximum age disables the cache. */
  lemma CacheLifetime(i: DiskInfo, maxAgeMs: nat, d: nat, path: string, monitorInodes: bool, v: SystemView)
    ensures CacheFresh(Some(i), maxAgeMs, i.timestamp + d) <==> d < maxAgeMs
    ensures d < maxAgeMs ==> CachedOrFetched(Some(i), maxAgeMs, i.timestamp + d, path, monitorInodes, v) == Ok(i)
    ensures !CacheFresh(Some(i), 0, i.timestamp + d) && !CacheFresh(None, maxAgeMs, i.timestamp + d)
  {
  }

  /** The cache settings `configure` takes from the custom keys: a
      non-negative integer "cache_max_age_ms" and a boolean "aggressive_cache";
      anything else leaves the setting as it was. */
  function CacheFromCustom(cc: CacheConfig, c: SensorConfig): (r: CacheConfig)
    ensures var a := GetCustom(c, "cache_max_age_ms");
      r.maxAgeMs == if a.Some? && a.value.JNumber? && a.value.n.AsU64().Some? then a.value.n.AsU64().value else cc.maxAgeMs
    ensures var g := GetCustom(c, "aggressive_cache");
      r.aggressive == if g.Some? && g.value.JBool? then g.value.b else cc.aggressive
  {
    var age := GetCustom(c, "cache_max_age_ms");
    var cc1 := if age.Some? && age.value.JNumber? && age.value.n.AsU64().Some?
               then cc.(maxAgeMs := age.value.n.AsU64().value) else cc;
    var aggressive := GetCustom(c, "aggressive_cache");
    if aggressive.Some? && aggressive.value.JBool? then cc1.(aggressive := aggressive.value.b) else cc1
  }

  /** Applying the same configuration twice changes nothing more, and a
      configuration without the keys keeps the cache settings. */
  lemma CacheFromCustomIdempotent(cc: CacheConfig, c: SensorConfig)
    ensures CacheFromCustom(CacheFromCustom(cc, c), c) == CacheFromCustom(cc, c)
    ensures "cache_max_age_ms" !in c.custom && "aggressive_cache" !in c.custom ==> CacheFromCustom(cc, c) == cc
  {
  }

  // ---------------------------------------------------------------------
  // Reading

  /** What `read` shows: the disk information, the bar percentage, the value
      the class is chosen by, and the class. */
  datatype DiskReading = DiskReading(info: DiskInfo, percentage: nat, value: real, cssClass: string)

  function Max(a: real, b: real): real { if a >= b then a else b }

  /** The themed part of `read`: used space, or free space turned into used
      for the percentage and the theme; with inode monitoring the inode usage
      counts when higher. */
  function ReadingOf(info: DiskInfo, showAvailable: bool, monitorInodes: bool, theme: Theme,
                     warning: real, critical: real): (r: DiskReading)
    ensures r.info == info
    ensures !showAvailable ==> r.percentage == RoundU8(UsedPercentage(info))
    ensures showAvailable ==> r.percentage == RoundU8(100.0 - AvailablePercentage(info))
    ensures var base := if showAvailable then 100.0 - AvailablePercentage(info) else UsedPercentage(info);
      r.value >= base &&
      (monitorInodes && InodeUsagePercentage(info).Some? ==> r.value >= InodeUsagePercentage(info).value) &&
      (r.value == base || (monitorInodes && InodeUsagePercentage(info) == Some(r.value)))
    ensures r.cssClass == ClassOf(theme, ThresholdLevel(r.value, warning, critical))
  {
    var base := if showAvailable then 100.0 - AvailablePercentage(info) else UsedPercentage(info);
    var percentage := RoundU8(base);
    var inode := InodeUsagePercentage(info);
    var value := if monitorInodes && inode.Some? then Max(base, inode.value) else base;
    DiskReading(info, percentage, value, ClassForThresholds(theme, value, warning, critical))
  }

  /** Monitoring inodes never makes the reported state less severe, nor
      changes the percentage. */
  lemma InodesNeverLowerLevel(info: DiskInfo, showAvailable: bool, theme: Theme, warning: real, critical: real)
    ensures var with := ReadingOf(info, showAvailable, true, theme, warning, critical);
      var without := ReadingOf(info, showAvailable, false, theme, warning, critical);
      Rank(ThresholdLevel(without.value, warning, critical)) <= Rank(ThresholdLevel(with.value, warning, critical)) &&
      with.percentage == without.percentage
  {
    var with := ReadingOf(info, showAvailable, true, theme, warning, critical);
    var without := ReadingOf(info, showAvailable, false, theme, warning, critical);
    ThresholdLevelMonotone(without.value, with.value, warning, critical);
  }

  /** With used and available making up the whole disk, showing free space
      yields the same percentage and the same class as showing used space. */
  lemma FreeViewMatchesUsedView(info: DiskInfo, monitorInodes: bool, theme: Theme, warning: real, critical: real)
    requires info.total > 0 && info.used + info.available == info.total
    ensures ReadingOf(info, true, monitorInodes, theme, warning, critical) ==
            ReadingOf(info, false, monitorInodes, theme, warning, critical)
  {
    PercentagesComplement(info);
  }

  /** `check_availability`: the path must still exist and `df` on it must
      run and succeed. */
  function AvailabilitySpec(path: string, pathExists: bool, df: CommandRun): (r: Result<(), SensorError>)
    ensures r.Ok? <==> pathExists && df.Exited? && df.success
    ensures !pathExists ==> r == Err(InvalidData(INVALID_PATH + "Path no longer exists", Some(path)))
    ensures pathExists && df.SpawnFailed? ==> r == Err(Io(df.kind))
    ensures pathExists && df.Exited? && !df.success ==> r == Err(Parse("Cannot read disk usage information"))
  {
    if !pathExists then Err(FromDiskError(InvalidPath(path, "Path no longer exists")))
    else
      match df
      case SpawnFailed(k) => Err(FromDiskError(CommandFailed("df", k)))
      case Exited(success, _, _) =>
        if !success then Err(FromDiskError(UsageCalculation(path, "Cannot read disk usage information")))
        else Ok(())
  }

  // ---------------------------------------------------------------------
  // The sensor

  class DiskSensor {
    const name: string
    var config: SensorConfig
    const path: string
    const warningThreshold: nat
    const criticalThreshold: nat
    const showAvailable: bool
    const monitorInodes: bool
    var cacheConfig: CacheConfig
    var cachedInfo: Option<DiskInfo>
    const usageTrend: UsageTrend
    const performanceMonitoring: bool

    /** The sensor `build` assembles from a builder with a path. */
    constructor (name: string, path: string, b: DiskSensorBuilder)
      ensures this.name == name && this.path == path && config == DefaultConfig()
      ensures warningThreshold == b.warningThreshold && criticalThreshold == b.criticalThreshold
      ensures showAvailable == b.showAvailable && monitorInodes == b.monitorInodes
      ensures cacheConfig == b.cacheConfig && performanceMonitoring == b.performanceMonitoring
      ensures cachedInfo.None? && fresh(usageTrend)
      ensures usageTrend.history == [] && usageTrend.maxHistory == b.trendHistorySize
    {
      this.name := name;
      config := DefaultConfig();
      this.path := path;
      warningThreshold := b.warningThreshold;
      criticalThreshold := b.criticalThreshold;
      showAvailable := b.showAvailable;
      monitorInodes := b.monitorInodes;
      cacheConfig := b.cacheConfig;
      cachedInfo := None;
      usageTrend := new UsageTrend(b.trendHistorySize);
      performanceMonitoring := b.performanceMonitoring;
    }

    /** `fetch_disk_info`. */
    method Fetch(v: SystemView) returns (r: Result<DiskInfo, SensorError>)
      ensures r == FetchSpec(path, monitorInodes, v)
    {
      if v.df.SpawnFailed? {
        return Err(FromDiskError(CommandFailed("df", v.df.kind)));
      }
      if !v.df.success {
        return Err(FromDiskError(UsageCalculation(path, "df command failed: " + v.df.stderr)));
      }
      if v.df.stdout.None? {
        return Err(Parse("Invalid UTF-8 in df output"));
      }
      var row := ParseDfOutput(v.df.stdout.value);
      if row.Err? {
        return Err(row.error);
      }
      var inodes: (Option<nat>, Option<nat>) := (None, None);
      if monitorInodes {
        var run := v.dfInodes;
        if run.SpawnFailed? {
          return Err(Io(run.kind));
        }
        if run.success {
          if run.stdout.None? {
            return Err(Parse("Invalid UTF-8 in df -i output"));
          }
          inodes := ParseInodeOutput(run.stdout.value);
        }
      }
      var ro := IsReadonly(v.mounts, path);
      if ro.Err? {
        return Err(ro.error);
      }
      var d := row.value;
      r := Ok(DiskInfo(path, d.device, d.filesystem, d.total, d.used, d.available, inodes.0, inodes.1, ro.value, v.clock));
    }

    /** `get_disk_info`: serve a fresh cache; otherwise fetch, add a trend
        sample when performance monitoring is on, and cache the result. A
        failed fetch changes nothing. */
    method GetDiskInfo(now: nat, v: SystemView) returns (r: Result<DiskInfo, SensorError>)
      modifies this`cachedInfo, usageTrend`history
      ensures r == CachedOrFetched(old(cachedInfo), cacheConfig.maxAgeMs, now, path, monitorInodes, v)
      ensures CacheFresh(old(cachedInfo), cacheConfig.maxAgeMs, now) || r.Err? ==>
        cachedInfo == old(cachedInfo) && usageTrend.history == old(usageTrend.history)
      ensures !CacheFresh(old(cachedInfo), cacheConfig.maxAgeMs, now) && r.Ok? ==>
        cachedInfo == Some(r.value) &&
        usageTrend.history == if performanceMonitoring
                              then PushHistory(old(usageTrend.history), (now, UsedPercentage(r.value)), usageTrend.maxHistory)
                              else old(usageTrend.history)
    {
      if cachedInfo.Some? && SaturatingSub(now, cachedInfo.value.timestamp) < cacheConfig.maxAgeMs {
        return Ok(cachedInfo.value);
      }
      var info := Fetch(v);
      if info.Err? {
        return info;
      }
      if performanceMonitoring {
        usageTrend.AddSample(now, UsedPercentage(info.value));
      }
      cachedInfo := Some(info.value);
      r := info;
    }

    /** `read`: the disk information, then the themed percentage. */
    method Read(now: nat, v: SystemView) returns (r: Result<DiskReading, SensorError>)
      modifies this`cachedInfo, usageTrend`history
      ensures var got := CachedOrFetched(old(cachedInfo), cacheConfig.maxAgeMs, now, path, monitorInodes, v);
        (r.Err? <==> got.Err?) && (r.Err? ==> r.error == got.error) &&
        (r.Ok? ==> r.value == ReadingOf(got.value, showAvailable, monitorInodes, config.theme,
                                        warningThreshold as real, criticalThreshold as real))
      ensures CacheFresh(old(cachedInfo), cacheConfig.maxAgeMs, now) || r.Err? ==>
        cachedInfo == old(cachedInfo) && usageTrend.history == old(usageTrend.history)
      ensures !CacheFresh(old(cachedInfo), cacheConfig.maxAgeMs, now) && r.Ok? ==>
        cachedInfo == Some(r.value.info) &&
        usageTrend.history == if performanceMonitoring
                              then PushHistory(old(usageTrend.history), (now, UsedPercentage(r.value.info)), usageTrend.maxHistory)
                              else old(usageTrend.history)
    {
      var info := GetDiskInfo(now, v);
      if info.Err? {
        return Err(info.error);
      }
      r := Ok(ReadingOf(info.value, showAvailable, monitorInodes, config.theme,
                        warningThreshold as real, criticalThreshold as real));
    }

    /** `configure`: take the cache settings from the custom keys, replace
        the configuration and drop the cached reading. */
    method Configure(c: SensorConfig) returns (r: Result<(), SensorError>)
      modifies this`cacheConfig, this`config, this`cachedInfo
      ensures r == Ok(()) && config == c && cachedInfo.None?
      ensures cacheConfig == CacheFromCustom(old(cacheConfig), c)
    {
      cacheConfig := CacheFromCustom(cacheConfig, c);
      config := c;
      cachedInfo := None;
      r := Ok(());
    }
  }

  /** `build` on the facts about the path. */
  method Build(b: DiskSensorBuilder, pathExists: bool, isDir: bool) returns (r: Result<DiskSensor, SensorError>)
    ensures var spec := BuildSpec(b, pathExists, isDir);
      (r.Err? <==> spec.Err?) && (r.Err? ==> r.error == spec.error) &&
      (r.Ok? ==> fresh(r.value) && fresh(r.value.usageTrend) && r.value.name == spec.value &&
                 r.value.path == b.path.value && r.value.cachedInfo.None? &&
                 r.value.warningThreshold == b.warningThreshold && r.value.criticalThreshold == b.criticalThreshold &&
                 r.value.showAvailable == b.showAvailable && r.value.monitorInodes == b.monitorInodes &&
                 r.value.cacheConfig == b.cacheConfig && r.value.performanceMonitoring == b.performanceMonitoring &&
                 r.value.usageTrend.history == [] && r.value.usageTrend.maxHistory == b.trendHistorySize)
  {
    var spec := BuildSpec(b, pathExists, isDir);
    if spec.Err? {
      return Err(spec.error);
    }
    var sensor := new DiskSensor(spec.value, b.path.value, b);
    r := Ok(sensor);
  }

  /** `DiskSensor::new`: the default builder for the path. */
  method NewDiskSensor(path: string, pathExists: bool, isDir: bool) returns (r: Result<DiskSensor, SensorError>)
    ensures r.Ok? <==> pathExists && isDir
    ensures r.Err? ==> r.error == BuildSpec(NewBuilder(path), pathExists, isDir).error
    ensures r.Ok? ==> fresh(r.value) && r.value.path == path && r.value.warningThreshold == 80 &&
                      r.value.criticalThreshold == 95 && r.value.name == DiskSensorName(path)
    ensures r.Ok? ==> r.value.cachedInfo.None? && r.value.cacheConfig == DEFAULT_CACHE &&
                      !r.value.showAvailable && !r.value.monitorInodes && !r.value.performanceMonitoring &&
                      fresh(r.value.usageTrend) && r.value.usageTrend.history == [] &&
                      r.value.usageTrend.maxHistory == 24
  {
    r := Build(NewBuilder(path), pathExists, isDir);
  }
}
