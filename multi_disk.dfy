/** The multi-disk sensor: several mount points probed with `df`, shown as
    the fullest one, their sum, one after the other, or a chosen one. */
module MultiDisk {
  import opened Wrappers
  import opened Text
  import opened CoreLib
  import opened Readings
  import Disk

  /** `DisplayMode`; the cycle position is the mode's own state. */
  datatype DisplayMode = HighestUsage | Combined | Cycle(current: nat) | Specific(index: nat)

  /** `DiskInfo` of this sensor; sizes are `u64` bytes. */
  datatype DiskInfo = DiskInfo(path: string, total: nat, used: nat, available: nat, filesystem: string, device: string)

  /** `used_percentage`: 0 for an empty disk. */
  function UsedPercentage(i: DiskInfo): (r: real)
    ensures i.total == 0 ==> r == 0.0
    ensures i.total > 0 ==> r * (i.total as real) == (i.used as real) * 100.0
    ensures r >= 0.0 && (i.used <= i.total ==> r <= 100.0)
  {
    Percent(i.used, i.total)
  }

  /** `available_percentage`: 0 for an empty disk. */
  function AvailablePercentage(i: DiskInfo): (r: real)
    ensures i.total == 0 ==> r == 0.0
    ensures i.total > 0 ==> r * (i.total as real) == (i.available as real) * 100.0
    ensures r >= 0.0 && (i.available <= i.total ==> r <= 100.0)
  {
    Percent(i.available, i.total)
  }

  // ---------------------------------------------------------------------
  // get_disk_usage

  const NO_DF_LINE: string := "Could not parse df output"
  const INVALID_UTF8: string := "Invalid UTF-8: "

  /** One run of `df -B1 -T <path>`, with the text the UTF-8 decoder reports for
      its output (what `FromUtf8Error` displays) when that output is not UTF-8. */
  datatype DfOutcome = DfOutcome(run: Disk.CommandRun, decodeError: string)
  const TOTAL_PREFIX: string := "Failed to parse total: "
  const USED_PREFIX: string := "Failed to parse used: "
  const AVAILABLE_PREFIX: string := "Failed to parse available: "

  /** The message of a size that does not parse: the prefix and the text
      of the integer error. */
  function SizeError(prefix: string, t: string): (r: SensorError)
    requires ParseU64(t).None?
    ensures IntError(t, U64_MAX).Some? && r == Parse(prefix + IntErrorText(IntError(t, U64_MAX).value))
  {
    IntErrorIffRejected(t, U64_MAX);
    Parse(prefix + ParseErrorText(t, U64_MAX))
  }

  /** A data line of `df -B1 -T`: device, type, size, used, available. */
  function InfoOf(path: string, parts: seq<string>): (r: Result<DiskInfo, SensorError>)
    requires |parts| >= 7
    ensures r.Ok? <==> ParseU64(parts[2]).Some? && ParseU64(parts[3]).Some? && ParseU64(parts[4]).Some?
    ensures r.Ok? ==> r.value == DiskInfo(path, ParseU64(parts[2]).value, ParseU64(parts[3]).value,
                                          ParseU64(parts[4]).value, parts[1], parts[0])
    ensures ParseU64(parts[2]).None? ==> r == Err(SizeError(TOTAL_PREFIX, parts[2]))
    ensures ParseU64(parts[2]).Some? && ParseU64(parts[3]).None? ==> r == Err(SizeError(USED_PREFIX, parts[3]))
    ensures ParseU64(parts[2]).Some? && ParseU64(parts[3]).Some? && ParseU64(parts[4]).None? ==>
      r == Err(SizeError(AVAILABLE_PREFIX, parts[4]))
  {
    match ParseU64(parts[2])
    case None => Err(SizeError(TOTAL_PREFIX, parts[2]))
    case Some(total) =>
      match ParseU64(parts[3])
      case None => Err(SizeError(USED_PREFIX, parts[3]))
      case Some(used) =>
        match ParseU64(parts[4])
        case None => Err(SizeError(AVAILABLE_PREFIX, parts[4]))
        case Some(available) => Ok(DiskInfo(path, total, used, available, parts[1], parts[0]))
  }

  /** The first line with at least seven fields decides; the rest are
      skipped. A result always names the path it was asked for. */
  function InfoFrom(path: string, lines: seq<string>): (r: Result<DiskInfo, SensorError>)
    ensures r.Ok? ==> r.value.path == path
    ensures r.Err? ==> r.error.Parse?
    decreases |lines|
  {
    if lines == [] then Err(Parse(NO_DF_LINE))
    else
      var parts := SplitWhitespace(lines[0]);
      if |parts| >= 7 then InfoOf(path, parts) else InfoFrom(path, lines[1..])
  }

  /** `get_disk_usage` on the outcome of `df -B1 -T <path>`. */
  function UsageSpec(path: string, df: DfOutcome): (r: Result<DiskInfo, SensorError>)
    ensures df.run.SpawnFailed? ==> r == Err(Io(df.run.kind))
    ensures df.run.Exited? && !df.run.success ==>
      r == Err(Unavailable("Failed to get disk usage for " + path, true))
    ensures df.run.Exited? && df.run.success && df.run.stdout.None? ==> r == Err(Parse(INVALID_UTF8 + df.decodeError))
    ensures r.Ok? ==> df.run.Exited? && df.run.success && df.run.stdout.Some? && r.value.path == path
    ensures r.Ok? ==> r == InfoFrom(path, Disk.AfterHeader(df.run.stdout.value))
  {
    match df.run
    case SpawnFailed(k) => Err(Io(k))
    case Exited(success, stdout, _) =>
      if !success then Err(Unavailable("Failed to get disk usage for " + path, true))
      else if stdout.None? then Err(Parse(INVALID_UTF8 + df.decodeError))
      else InfoFrom(path, Disk.AfterHeader(stdout.value))
  }

  /** `get_disk_usage`. */
  method GetDiskUsage(path: string, df: DfOutcome) returns (r: Result<DiskInfo, SensorError>)
    ensures r == UsageSpec(path, df)
  {
    var run := df.run;
    if run.SpawnFailed? {
      return Err(Io(run.kind));
    }
    if !run.success {
      return Err(Unavailable("Failed to get disk usage for " + path, true));
    }
    if run.stdout.None? {
      return Err(Parse(INVALID_UTF8 + df.decodeError));
    }
    var rest := Disk.AfterHeader(run.stdout.value);
    var i := 0;
    while i < |rest|
      invariant 0 <= i <= |rest|
      invariant InfoFrom(path, rest[i..]) == InfoFrom(path, rest)
    {
      assert rest[i..][1..] == rest[i + 1..];
      var parts := SplitWhitespace(rest[i]);
      if |parts| >= 7 {
        return InfoOf(path, parts);
      }
      i := i + 1;
    }
    assert rest[i..] == [];
    r := Err(Parse(NO_DF_LINE));
  }

  // ---------------------------------------------------------------------
  // get_all_disk_info

  /** The probe of every path, in path order. */
  function Probes(paths: seq<string>, df: string -> DfOutcome): (r: seq<Result<DiskInfo, SensorError>>)
    ensures |r| == |paths|
    ensures forall k :: 0 <= k < |paths| ==> r[k] == UsageSpec(paths[k], df(paths[k]))
  {
    seq(|paths|, k requires 0 <= k < |paths| => UsageSpec(paths[k], df(paths[k])))
  }

  /** The values of the successful results, in order; failures are only
      logged. */
  function Oks<T, E>(rs: seq<Result<T, E>>): (r: seq<T>)
    ensures |r| <= |rs|
    decreases |rs|
  {
    if rs == [] then []
    else Oks(rs[..|rs| - 1]) + (if rs[|rs| - 1].Ok? then [rs[|rs| - 1].value] else [])
  }

  /** `get_all_disk_info`: at least one path must answer. */
  function GatherSpec(paths: seq<string>, df: string -> DfOutcome): (r: Result<seq<DiskInfo>, SensorError>)
    ensures r.Ok? <==> Oks(Probes(paths, df)) != []
    ensures r.Ok? ==> r.value == Oks(Probes(paths, df)) && |r.value| > 0
    ensures r.Err? ==> r.error == Unavailable("No disk information available", true)
  {
    var all := Oks(Probes(paths, df));
    if all == [] then Err(Unavailable("No disk information available", true)) else Ok(all)
  }

  /** `get_all_disk_info`. */
  method GetAllDiskInfo(paths: seq<string>, df: string -> DfOutcome) returns (r: Result<seq<DiskInfo>, SensorError>)
    ensures r == GatherSpec(paths, df)
  {
    ghost var probes := Probes(paths, df);
    var all: seq<DiskInfo> := [];
    var i := 0;
    while i < |paths|
      invariant 0 <= i <= |paths|
      invariant all == Oks(probes[..i])
    {
      assert probes[..i + 1][..i] == probes[..i];
      var info := GetDiskUsage(paths[i], df(paths[i]));
      assert probes[..i + 1][i] == info;
      if info.Ok? {
        all := all + [info.value];
      }
      i := i + 1;
    }
    assert probes[..i] == probes;
    if all == [] {
      return Err(Unavailable("No disk information available", true));
    }
    r := Ok(all);
  }

  /** Every kept value is the value of one of the successful results. */
  lemma {:induction false} OksFromResults<T, E>(rs: seq<Result<T, E>>)
    ensures forall j :: 0 <= j < |Oks(rs)| ==> exists k :: 0 <= k < |rs| && rs[k] == Ok(Oks(rs)[j])
    decreases |rs|
  {
    if rs != [] {
      var init := rs[..|rs| - 1];
      OksFromResults(init);
      var s := Oks(rs);
      forall j | 0 <= j < |s|
        ensures exists k :: 0 <= k < |rs| && rs[k] == Ok(s[j])
      {
        if j < |Oks(init)| {
          var k :| 0 <= k < |init| && init[k] == Ok(Oks(init)[j]);
          assert rs[k] == init[k];
        } else {
          var k := |rs| - 1;
          assert rs[k] == Ok(s[j]);
        }
      }
    } else {
      assert Oks(rs) == [];
    }
  }

  /** When every result is a success, the kept values are all of them. */
  lemma {:induction false} OksAllOk<T, E>(rs: seq<Result<T, E>>)
    requires forall k :: 0 <= k < |rs| ==> rs[k].Ok?
    ensures |Oks(rs)| == |rs|
    ensures forall k :: 0 <= k < |rs| ==> Ok(Oks(rs)[k]) == rs[k]
    decreases |rs|
  {
    if rs != [] {
      var init := rs[..|rs| - 1];
      assert forall k :: 0 <= k < |init| ==> init[k] == rs[k];
      OksAllOk(init);
      var s := Oks(rs);
      assert s == Oks(init) + [rs[|rs| - 1].value];
      forall k | 0 <= k < |rs|
        ensures Ok(s[k]) == rs[k]
      {
        if k < |init| {
          assert s[k] == Oks(init)[k];
        }
      }
    }
  }

  /** The values kept from two runs of results are those of each in turn. */
  lemma {:induction false} OksAppend<T, E>(a: seq<Result<T, E>>, b: seq<Result<T, E>>)
    ensures Oks(a + b) == Oks(a) + Oks(b)
    decreases |b|
  {
    if b == [] {
      assert a + b == a;
    } else {
      var binit := b[..|b| - 1];
      assert (a + b)[..|a + b| - 1] == a + binit;
      OksAppend(a, binit);
    }
  }

  /** Every gathered entry is the answer of one of the paths. */
  lemma GatheredFromPaths(paths: seq<string>, df: string -> DfOutcome)
    requires GatherSpec(paths, df).Ok?
    ensures var all := GatherSpec(paths, df).value;
      forall j :: 0 <= j < |all| ==> exists k :: 0 <= k < |paths| && UsageSpec(paths[k], df(paths[k])) == Ok(all[j])
  {
    var probes := Probes(paths, df);
    OksFromResults(probes);
  }

  /** When every path answers, the entries are their answers one to one. */
  lemma AllPathsGathered(paths: seq<string>, df: string -> DfOutcome)
    requires paths != []
    requires forall k :: 0 <= k < |paths| ==> UsageSpec(paths[k], df(paths[k])).Ok?
    ensures GatherSpec(paths, df).Ok?
    ensures var all := GatherSpec(paths, df).value;
      |all| == |paths| && forall k :: 0 <= k < |paths| ==> Ok(all[k]) == UsageSpec(paths[k], df(paths[k]))
  {
    OksAllOk(Probes(paths, df));
  }

  // ---------------------------------------------------------------------
  // Choosing what to show

  /** `max_by` on the used percentage: the last of the fullest entries. */
  function HighestIndex(infos: seq<DiskInfo>): (r: nat)
    requires |infos| > 0
    ensures r < |infos|
    ensures forall k :: 0 <= k < |infos| ==> UsedPercentage(infos[k]) <= UsedPercentage(infos[r])
    ensures forall k :: r < k < |infos| ==> UsedPercentage(infos[k]) < UsedPercentage(infos[r])
    decreases |infos|
  {
    if |infos| == 1 then 0
    else
      var init := infos[..|infos| - 1];
      var j := HighestIndex(init);
      assert forall k :: 0 <= k < |init| ==> init[k] == infos[k];
      if UsedPercentage(infos[|infos| - 1]) >= UsedPercentage(infos[j]) then |infos| - 1 else j
  }

  function TotalOf(i: DiskInfo): nat { i.total }
  function UsedOf(i: DiskInfo): nat { i.used }
  function AvailableOf(i: DiskInfo): nat { i.available }

  /** The `u64` sum of one size over the entries. */
  function Sum(infos: seq<DiskInfo>, size: DiskInfo -> nat): nat
    decreases |infos|
  {
    if infos == [] then 0 else Sum(infos[..|infos| - 1], size) + size(infos[|infos| - 1])
  }

  /** The `Combined` entry: the sums of the sizes over all entries. */
  function CombinedInfo(infos: seq<DiskInfo>): (r: DiskInfo)
    ensures r.path == "All disks" && r.filesystem == "combined"
    ensures r.device == NatToString(|infos|) + " disks"
    ensures r.total == Sum(infos, TotalOf) && r.used == Sum(infos, UsedOf) && r.available == Sum(infos, AvailableOf)
  {
    DiskInfo("All disks", Sum(infos, TotalOf), Sum(infos, UsedOf), Sum(infos, AvailableOf),
             "combined", NatToString(|infos|) + " disks")
  }

  lemma MulLe(a: real, b: real, c: real)
    requires a <= b && c >= 0.0
    ensures a * c <= b * c
  {
  }

  lemma DivLe(p: real, m: real, t: real)
    requires t > 0.0 && p * t <= m * t
    ensures p <= m
  {
  }

  /** Used is at most m percent of total. */
  predicate WithinShare(used: nat, total: nat, m: real) {
    (used as real) * 100.0 <= m * (total as real)
  }

  lemma DiskWithin(i: DiskInfo, m: real)
    requires UsedPercentage(i) <= m && i.used <= i.total
    ensures WithinShare(i.used, i.total, m)
  {
    if i.total > 0 {
      MulLe(UsedPercentage(i), m, i.total as real);
    }
  }

  lemma WithinBound(i: DiskInfo, m: real)
    requires m >= 0.0 && WithinShare(i.used, i.total, m)
    ensures UsedPercentage(i) <= m
  {
    if i.total > 0 {
      DivLe(UsedPercentage(i), m, i.total as real);
    }
  }

  /** If every entry has used at most m percent of its size, so do the sums. */
  lemma ShareAdd(u1: nat, t1: nat, u2: nat, t2: nat, m: real)
    requires WithinShare(u1, t1, m) && WithinShare(u2, t2, m)
    ensures WithinShare(u1 + u2, t1 + t2, m)
  {
    assert ((u1 + u2) as real) * 100.0 == (u1 as real) * 100.0 + (u2 as real) * 100.0;
    assert m * ((t1 + t2) as real) == m * (t1 as real) + m * (t2 as real);
  }

  lemma {:induction false} SumWithin(infos: seq<DiskInfo>, m: real)
    requires m >= 0.0
    requires forall k :: 0 <= k < |infos| ==> WithinShare(infos[k].used, infos[k].total, m)
    ensures WithinShare(Sum(infos, UsedOf), Sum(infos, TotalOf), m)
    decreases |infos|
  {
    if infos != [] {
      var init := infos[..|infos| - 1];
      var last := infos[|infos| - 1];
      assert forall k :: 0 <= k < |init| ==> init[k] == infos[k];
      SumWithin(init, m);
      assert WithinShare(last.used, last.total, m);
      ShareAdd(Sum(init, UsedOf), Sum(init, TotalOf), last.used, last.total, m);
    }
  }

  /** The combined usage never exceeds the usage of the fullest disk, when
      no disk reports more used space than its size. */
  lemma CombinedWithinHighest(infos: seq<DiskInfo>)
    requires |infos| > 0
    requires forall k :: 0 <= k < |infos| ==> infos[k].used <= infos[k].total
    ensures UsedPercentage(CombinedInfo(infos)) <= UsedPercentage(infos[HighestIndex(infos)])
  {
    var m := UsedPercentage(infos[HighestIndex(infos)]);
    forall k | 0 <= k < |infos|
      ensures WithinShare(infos[k].used, infos[k].total, m)
    {
      DiskWithin(infos[k], m);
    }
    SumWithin(infos, m);
    WithinBound(CombinedInfo(infos), m);
  }

  /** What `read` shows: an entry, and the name it is prefixed with (none
      for the combined view). */
  datatype Shown = Shown(info: DiskInfo, title: Option<string>)

  function Labelled(i: DiskInfo): Shown { Shown(i, Some(Basename(i.path))) }

  const NO_DISK_PREFIX: string := "No disk at index "

  /** The entry the display mode picks from the successful probes. Modes
      that name positions count the successful probes only. */
  function Select(mode: DisplayMode, infos: seq<DiskInfo>): (r: Result<Shown, SensorError>)
    requires |infos| > 0
    ensures !mode.Specific? ==> r.Ok?
    ensures mode.HighestUsage? ==> (r.Ok? && r.value.info in infos &&
      forall k :: 0 <= k < |infos| ==> UsedPercentage(infos[k]) <= UsedPercentage(r.value.info))
    ensures mode.Combined? ==> r == Ok(Shown(CombinedInfo(infos), None))
    ensures mode.Cycle? ==> r == Ok(Labelled(infos[mode.current % |infos|]))
    ensures mode.Specific? ==> (r.Ok? <==> mode.index < |infos|)
    ensures mode.Specific? && mode.index < |infos| ==> r == Ok(Labelled(infos[mode.index]))
    ensures mode.Specific? && mode.index >= |infos| ==>
      r == Err(Unavailable(NO_DISK_PREFIX + NatToString(mode.index), false))
    ensures r.Ok? && !mode.Combined? ==> r.value.title == Some(Basename(r.value.info.path))
  {
    match mode
    case HighestUsage => Ok(Labelled(infos[HighestIndex(infos)]))
    case Combined => Ok(Shown(CombinedInfo(infos), None))
    case Cycle(current) => Ok(Labelled(infos[current % |infos|]))
    case Specific(index) =>
      if index < |infos| then Ok(Labelled(infos[index]))
      else Err(Unavailable(NO_DISK_PREFIX + NatToString(index), false))
  }

  /** The mode after a read over n entries: only the cycle moves on. */
  function NextMode(mode: DisplayMode, n: nat): (r: DisplayMode)
    requires n > 0
    ensures mode.Cycle? ==> r == Cycle((mode.current + 1) % n)
    ensures !mode.Cycle? ==> r == mode
  {
    match mode
    case Cycle(current) => Cycle((current + 1) % n)
    case _ => mode
  }

  /** The mode after k reads over n entries each. */
  function Advance(mode: DisplayMode, n: nat, k: nat): DisplayMode
    requires n > 0
    decreases k
  {
    if k == 0 then mode else Advance(NextMode(mode, n), n, k - 1)
  }

  lemma MulAtLeast(d: int, n: int)
    requires n > 0
    ensures d >= 1 ==> d * n >= n
    ensures d <= -1 ==> d * n <= -n
  {
  }

  /** The remainder is determined by any division with a small rest. */
  lemma ModUnique(a: int, n: int, q: int, r: int)
    requires n > 0 && 0 <= r < n && a == q * n + r
    ensures a % n == r
  {
    var q', r' := a / n, a % n;
    assert a == q' * n + r';
    assert (q - q') * n == r' - r;
    MulAtLeast(q - q', n);
  }

  lemma ModSucc(a: nat, n: nat)
    requires n > 0
    ensures (a % n + 1) % n == (a + 1) % n
  {
    var q, r := a / n, a % n;
    assert a == q * n + r;
    if r + 1 < n {
      ModUnique(a + 1, n, q, r + 1);
      ModUnique(r + 1, n, 0, r + 1);
    } else {
      assert (q + 1) * n == q * n + n;
      ModUnique(a + 1, n, q + 1, 0);
      ModUnique(r + 1, n, 1, 0);
    }
  }

  lemma ModIdem(a: nat, n: nat)
    requires n > 0
    ensures (a % n) % n == a % n
  {
    ModUnique(a % n, n, 0, a % n);
  }

  /** One more read is one more step. */
  lemma {:induction false} AdvanceLast(mode: DisplayMode, n: nat, k: nat)
    requires n > 0
    ensures Advance(mode, n, k + 1) == NextMode(Advance(mode, n, k), n)
    decreases k
  {
    if k > 0 {
      AdvanceLast(NextMode(mode, n), n, k - 1);
    }
  }

  /** Cycling goes round the entries in order: after k reads from position
      c the next read shows entry (c + k) mod n. */
  lemma {:induction false} CycleRoundRobin(c: nat, n: nat, k: nat)
    requires n > 0
    ensures k > 0 ==> Advance(Cycle(c), n, k) == Cycle((c + k) % n)
    ensures Advance(Cycle(c), n, k).Cycle? && Advance(Cycle(c), n, k).current % n == (c + k) % n
    decreases k
  {
    if k > 0 {
      AdvanceLast(Cycle(c), n, k - 1);
      if k > 1 {
        CycleRoundRobin(c, n, k - 1);
        ModSucc(c + k - 1, n);
      }
      ModIdem(c + k, n);
    }
  }

  // ---------------------------------------------------------------------
  // Reading

  /** The themed part of `read`: the number in the text, the bar percentage
      and the value the class is chosen by. */
  datatype MultiDiskReading = MultiDiskReading(shown: Shown, textPercent: nat, percentage: nat,
                                               value: real, cssClass: string)

  function ReadingOf(s: Shown, showAvailable: bool, theme: Theme, warning: real, critical: real): (r: MultiDiskReading)
    ensures r.shown == s
    ensures !showAvailable ==> r.value == UsedPercentage(s.info) &&
                               r.textPercent == RoundU8(r.value) && r.percentage == RoundU8(r.value)
    ensures showAvailable ==> r.value == 100.0 - AvailablePercentage(s.info) &&
                              r.textPercent == RoundU8(AvailablePercentage(s.info)) && r.percentage == RoundU8(r.value)
    ensures r.cssClass == ClassOf(theme, ThresholdLevel(r.value, warning, critical))
  {
    var value := if showAvailable then 100.0 - AvailablePercentage(s.info) else UsedPercentage(s.info);
    var shownPercent := if showAvailable then AvailablePercentage(s.info) else UsedPercentage(s.info);
    MultiDiskReading(s, RoundU8(shownPercent), RoundU8(value), value, ClassForThresholds(theme, value, warning, critical))
  }

  /** In the highest-usage mode no monitored disk is in a more severe state
      than the one shown. */
  lemma HighestIsMostSevere(infos: seq<DiskInfo>, theme: Theme, warning: real, critical: real)
    requires |infos| > 0
    ensures var shown := ReadingOf(Select(HighestUsage, infos).value, false, theme, warning, critical);
      forall k :: 0 <= k < |infos| ==>
        Rank(ThresholdLevel(UsedPercentage(infos[k]), warning, critical)) <= Rank(ThresholdLevel(shown.value, warning, critical))
  {
    var r := ReadingOf(Select(HighestUsage, infos).value, false, theme, warning, critical);
    forall k | 0 <= k < |infos|
      ensures Rank(ThresholdLevel(UsedPercentage(infos[k]), warning, critical)) <= Rank(ThresholdLevel(r.value, warning, critical))
    {
      ThresholdLevelMonotone(UsedPercentage(infos[k]), r.value, warning, critical);
    }
  }

  /** With used and available making up the disk, the free view colours the
      bar exactly as the used view. */
  lemma FreeViewMatchesUsedView(s: Shown, theme: Theme, warning: real, critical: real)
    requires s.info.total > 0 && s.info.used + s.info.available == s.info.total
    ensures ReadingOf(s, true, theme, warning, critical).value == ReadingOf(s, false, theme, warning, critical).value
    ensures ReadingOf(s, true, theme, warning, critical).cssClass == ReadingOf(s, false, theme, warning, critical).cssClass
  {
    PercentComplement(s.info.used, s.info.available, s.info.total);
  }

  // ---------------------------------------------------------------------
  // Names

  /** The position of the last c in s. */
  function LastIndexOf(s: string, c: char): (r: Option<nat>)
    ensures r.None? <==> !ContainsChar(s, c)
    ensures r.Some? ==> r.value < |s| && s[r.value] == c && !ContainsChar(s[r.value + 1..], c)
    ensures r.Some? ==> forall j :: r.value < j < |s| ==> s[j] != c
    decreases |s|
  {
    if s == [] then None
    else if s[|s| - 1] == c then Some(|s| - 1)
    else
      var r := LastIndexOf(s[..|s| - 1], c);
      assert r.None? ==> !ContainsChar(s, c) by {
        if r.None? {
          forall i | 0 <= i < |s| ensures s[i] != c {
            if i < |s| - 1 { assert s[..|s| - 1][i] == s[i]; }
          }
        }
      }
      assert r.Some? ==> s[r.value + 1..] == s[..|s| - 1][r.value + 1..] + [s[|s| - 1]];
      assert forall j :: 0 <= j < |s| - 1 ==> s[..|s| - 1][j] == s[j];
      r
  }

  /** `basename`: "root" for "/", otherwise the text after the last '/'
      unless that is empty. */
  function Basename(path: string): (r: string)
    ensures path == "/" ==> r == "root"
    ensures path != "/" && !ContainsChar(path, '/') ==> r == path
    ensures path != "/" && path != [] && path[|path| - 1] == '/' ==> r == path
    ensures path != "/" ==> r == path || (r != [] && !ContainsChar(r, '/') && EndsWith(path, "/" + r))
  {
    if path == "/" then "root"
    else
      match LastIndexOf(path, '/')
      case None => path
      case Some(k) =>
        var segment := path[k + 1..];
        assert path[|path| - (|segment| + 1)..] == "/" + segment;
        if segment != [] then segment else path
  }

  /** The last segment of a path is its base name, whatever comes before. */
  lemma BasenameOfSegment(prefix: string, w: string)
    requires w != [] && !ContainsChar(w, '/')
    ensures Basename(prefix + "/" + w) == w
  {
    var p := prefix + "/" + w;
    var n := |prefix|;
    assert p[n] == '/';
    var r := LastIndexOf(p, '/');
    assert r.Some?;
    forall i | n < i < |p|
      ensures p[i] != '/'
    {
      assert p[i] == w[i - n - 1];
    }
    assert r.value == n;
    assert p[n + 1..] == w;
  }

  lemma BasenameExamples()
    ensures Basename("/") == "root"
    ensures Basename("/mnt/data/") == "/mnt/data/"
  {
  }

  /** The sensor name: "disk-" and the one path with '/' turned into '-', or
      "disk-multi" when there are several. */
  function MultiName(paths: seq<string>): (r: string)
    ensures |paths| != 1 ==> r == "disk-multi"
    ensures StartsWith(r, "disk-")
  {
    if |paths| == 1 then "disk-" + Replace(paths[0], "/", "-") else "disk-multi"
  }

  /** Unlike the single-disk sensor, the root keeps its dash: "/" is named
      "disk--" here and "disk-" there. */
  lemma NamesOfRoot()
    ensures MultiName(["/"]) == "disk--"
    ensures Disk.DiskSensorName("/") == "disk-"
  {
    assert Find("/", "/") == 0;
    assert Find("", "/") == 0;
    assert Replace("", "/", "-") == "";
    assert Replace("/", "/", "-") == "-";
    assert TrimMatches("", '-') == "";
  }

  /** The first path that does not exist. */
  function FirstMissing(paths: seq<string>, pathExists: string -> bool): (r: Option<nat>)
    ensures r.None? <==> forall k :: 0 <= k < |paths| ==> pathExists(paths[k])
    ensures r.Some? ==> (r.value < |paths| && !pathExists(paths[r.value]) &&
      forall j :: 0 <= j < r.value ==> pathExists(paths[j]))
    decreases |paths|
  {
    if paths == [] then None
    else if !pathExists(paths[0]) then Some(0)
    else
      assert forall k :: 0 <= k < |paths| - 1 ==> paths[1..][k] == paths[k + 1];
      match FirstMissing(paths[1..], pathExists)
      case Some(k) => Some(k + 1)
      case None => None
  }

  /** `MultiDiskSensor::new`: a non-empty list of existing paths. */
  function NewSpec(paths: seq<string>, pathExists: string -> bool): (r: Result<string, SensorError>)
    ensures paths == [] ==> r == Err(Unavailable("No paths specified", false))
    ensures r.Ok? <==> paths != [] && forall k :: 0 <= k < |paths| ==> pathExists(paths[k])
    ensures r.Ok? ==> r.value == MultiName(paths)
    ensures paths != [] && r.Err? ==>
      exists k :: (0 <= k < |paths| && !pathExists(paths[k]) &&
                   r == Err(Unavailable("Path does not exist: " + paths[k], false)))
  {
    if paths == [] then Err(Unavailable("No paths specified", false))
    else
      match FirstMissing(paths, pathExists)
      case Some(k) => Err(Unavailable("Path does not exist: " + paths[k], false))
      case None => Ok(MultiName(paths))
  }

  // ---------------------------------------------------------------------
  // The sensor

  class MultiDiskSensor {
    const name: string
    const paths: seq<string>
    const warningThreshold: nat
    const criticalThreshold: nat
    const showAvailable: bool
    var displayMode: DisplayMode
    var theme: Theme

    constructor (name: string, paths: seq<string>, warning: nat, critical: nat, showAvailable: bool, mode: DisplayMode)
      ensures this.name == name && this.paths == paths
      ensures warningThreshold == warning && criticalThreshold == critical
      ensures this.showAvailable == showAvailable && displayMode == mode && theme == DefaultTheme()
    {
      this.name := name;
      this.paths := paths;
      warningThreshold := warning;
      criticalThreshold := critical;
      this.showAvailable := showAvailable;
      displayMode := mode;
      theme := DefaultTheme();
    }

    /** `read`: gather, pick by the display mode (moving the cycle on),
        then theme the percentage. */
    method Read(df: string -> DfOutcome) returns (r: Result<MultiDiskReading, SensorError>)
      modifies this`displayMode
      ensures var got := GatherSpec(paths, df);
        (got.Err? ==> r == Err(got.error) && displayMode == old(displayMode)) &&
        (got.Ok? ==> (displayMode == NextMode(old(displayMode), |got.value|) &&
          var sel := Select(old(displayMode), got.value);
          (sel.Err? ==> r == Err(sel.error)) &&
          (sel.Ok? ==> r == Ok(ReadingOf(sel.value, showAvailable, theme,
                                         warningThreshold as real, criticalThreshold as real)))))
    {
      var all := GetAllDiskInfo(paths, df);
      if all.Err? {
        return Err(all.error);
      }
      var sel := Select(displayMode, all.value);
      displayMode := NextMode(displayMode, |all.value|);
      if sel.Err? {
        return Err(sel.error);
      }
      r := Ok(ReadingOf(sel.value, showAvailable, theme, warningThreshold as real, criticalThreshold as real));
    }

    /** `configure`: only the theme is taken. */
    method Configure(c: SensorConfig) returns (r: Result<(), SensorError>)
      modifies this`theme
      ensures r == Ok(()) && theme == c.theme
    {
      theme := c.theme;
      r := Ok(());
    }
  }

  /** `MultiDiskSensor::new`, with the file system's answer to "does this
      path exist" as a parameter. */
  method NewMultiDiskSensor(paths: seq<string>, warning: nat, critical: nat, showAvailable: bool,
                            mode: DisplayMode, pathExists: string -> bool) returns (r: Result<MultiDiskSensor, SensorError>)
    requires warning <= U8_MAX && critical <= U8_MAX
    ensures var spec := NewSpec(paths, pathExists);
      (r.Err? <==> spec.Err?) && (r.Err? ==> r.error == spec.error) &&
      (r.Ok? ==> fresh(r.value) && r.value.name == spec.value && r.value.paths == paths &&
                 r.value.warningThreshold == warning && r.value.criticalThreshold == critical &&
                 r.value.showAvailable == showAvailable && r.value.displayMode == mode &&
                 r.value.theme == DefaultTheme())
  {
    if paths == [] {
      return Err(Unavailable("No paths specified", false));
    }
    var i := 0;
    while i < |paths|
      invariant 0 <= i <= |paths|
      invariant forall j :: 0 <= j < i ==> pathExists(paths[j])
    {
      if !pathExists(paths[i]) {
        return Err(Unavailable("Path does not exist: " + paths[i], false));
      }
      i := i + 1;
    }
    var name := if |paths| == 1 then "disk-" + Replace(paths[0], "/", "-") else "disk-multi";
    var sensor := new MultiDiskSensor(name, paths, warning, critical, showAvailable, mode);
    r := Ok(sensor);
  }
}
