/** The CPU sensor (`cpu.rs`): `/proc/stat` line parsing, usage deltas,
    `/proc/cpuinfo` keys, and the sensor's sampling state and usage history.
    Times are milliseconds; the sleep before a second sample is replaced by the
    second sample's contents being an input. */
module Cpu {
  import opened Wrappers
  import opened Text
  import opened CoreLib
  import opened Readings

  // ---------------------------------------------------------------------
  // /proc/stat

  /** `CpuStats`: jiffies per state. Sums are taken in unbounded integers. */
  datatype CpuStats = CpuStats(user: nat, nice: nat, system: nat, idle: nat,
                               iowait: nat, irq: nat, softirq: nat, steal: nat)

  function Total(s: CpuStats): nat {
    s.user + s.nice + s.system + s.idle + s.iowait + s.irq + s.softirq + s.steal
  }

  /** Time spent outside the idle and iowait states. */
  function Active(s: CpuStats): (r: nat)
    ensures r == s.user + s.nice + s.system + s.irq + s.softirq + s.steal
    ensures r <= Total(s)
  {
    Total(s) - s.idle - s.iowait
  }

  /** `usage_percent`: the share of the elapsed jiffies spent active, 0 when none
      elapsed, clamped to [0, 100]. */
  function UsagePercent(current: CpuStats, prev: CpuStats): (r: real)
    ensures 0.0 <= r <= 100.0
    ensures SaturatingSub(Total(current), Total(prev)) == 0 ==> r == 0.0
    ensures var td := SaturatingSub(Total(current), Total(prev));
      var ad := SaturatingSub(Active(current), Active(prev));
      td > 0 && ad <= td ==> r * (td as real) == (ad as real) * 100.0
    ensures var td := SaturatingSub(Total(current), Total(prev));
      td > 0 && SaturatingSub(Active(current), Active(prev)) >= td ==> r == 100.0
  {
    var td := SaturatingSub(Total(current), Total(prev));
    var ad := SaturatingSub(Active(current), Active(prev));
    var x := Percent(ad, td);
    if x > 100.0 then 100.0 else x
  }

  /** The delta the source's test checks: 150 of 1000 jiffies active is 15 %. */
  lemma UsageExample()
    ensures UsagePercent(CpuStats(200, 0, 100, 1700, 0, 0, 0, 0), CpuStats(100, 0, 50, 850, 0, 0, 0, 0)) == 15.0
  {
  }

  /** Each string parsed as a `u64`, stopping at the first failure. */
  function ParseAllU64(ws: seq<string>): (r: Option<seq<nat>>)
    ensures r.Some? ==> |r.value| == |ws| && forall i :: 0 <= i < |ws| ==> ParseU64(ws[i]) == Some(r.value[i])
  {
    if ws == [] then Some([])
    else
      match ParseU64(ws[0])
      case None => None
      case Some(v) =>
        match ParseAllU64(ws[1..])
        case None => None
        case Some(rest) => Some([v] + rest)
  }

  function At(vs: seq<nat>, i: nat): nat { if i < |vs| then vs[i] else 0 }

  function InsufficientStats(n: nat): string {
    "Insufficient CPU statistics: expected at least 4, got " + NatToString(n)
  }

  /** `CpuStats::parse_from_proc_stat_line`: the line must start with "cpu"; of the
      words after the first at most eight are read, each must be a `u64`, and at
      least four are needed; missing iowait..steal are 0. */
  function ParseStatLine(line: string): Result<CpuStats, SensorError> {
    if !StartsWith(line, "cpu") then Err(Parse("Line does not start with 'cpu'"))
    else
      var words := SplitWhitespace(line);
      var fields := if |words| <= 1 then [] else words[1..];
      var taken := if |fields| <= 8 then fields else fields[..8];
      match ParseAllU64(taken)
      case None => Err(Parse("Failed to parse CPU statistics"))
      case Some(vs) =>
        if |vs| < 4 then Err(Parse(InsufficientStats(|vs|)))
        else Ok(CpuStats(vs[0], vs[1], vs[2], vs[3], At(vs, 4), At(vs, 5), At(vs, 6), At(vs, 7)))
  }

  /** What the parser promises: a first word starting "cpu", the first four fields, the
      rest defaulting to 0, every value a `u64`; and the ninth field onwards is
      never looked at. */
  lemma ParseStatLineContract(line: string)
    ensures ParseStatLine(line).Ok? ==> StartsWith(line, "cpu")
    ensures ParseStatLine(line).Ok? ==>
      var ws := SplitWhitespace(line); var s := ParseStatLine(line).value;
      5 <= |ws| && ParseU64(ws[1]) == Some(s.user) && ParseU64(ws[2]) == Some(s.nice) &&
      ParseU64(ws[3]) == Some(s.system) && ParseU64(ws[4]) == Some(s.idle) &&
      (|ws| <= 5 ==> s.iowait == 0) && (|ws| <= 8 ==> s.steal == 0) &&
      (|ws| > 8 ==> ParseU64(ws[8]) == Some(s.steal))
    ensures (StartsWith(line, "cpu") && 2 <= |SplitWhitespace(line)| <= 4 &&
             ParseAllU64(SplitWhitespace(line)[1..]).Some?) ==>
      ParseStatLine(line) == Err(Parse(InsufficientStats(|SplitWhitespace(line)| - 1)))
  {
    if ParseStatLine(line).Ok? {
      ParsedStatFields(line);
    }
  }

  lemma ParsedStatFields(line: string)
    requires ParseStatLine(line).Ok?
    ensures var ws := SplitWhitespace(line); var s := ParseStatLine(line).value;
      5 <= |ws| && ParseU64(ws[1]) == Some(s.user) && ParseU64(ws[2]) == Some(s.nice) &&
      ParseU64(ws[3]) == Some(s.system) && ParseU64(ws[4]) == Some(s.idle) &&
      (|ws| <= 5 ==> s.iowait == 0) && (|ws| <= 8 ==> s.steal == 0) &&
      (|ws| > 8 ==> ParseU64(ws[8]) == Some(s.steal))
  {
    var ws := SplitWhitespace(line);
    var fields := ws[1..];
    var taken := if |fields| <= 8 then fields else fields[..8];
    var vs := ParseAllU64(taken).value;
    var st := CpuStats(vs[0], vs[1], vs[2], vs[3], At(vs, 4), At(vs, 5), At(vs, 6), At(vs, 7));
    assert ParseStatLine(line) == Ok(st);
    assert |vs| == |taken| && 4 <= |taken| <= 8;
    assert taken[0] == ws[1] && taken[1] == ws[2] && taken[2] == ws[3] && taken[3] == ws[4];
    assert ParseU64(taken[0]) == Some(vs[0]) && ParseU64(taken[1]) == Some(vs[1]);
    assert ParseU64(taken[2]) == Some(vs[2]) && ParseU64(taken[3]) == Some(vs[3]);
    if |ws| > 8 {
      assert taken[7] == ws[8] && ParseU64(taken[7]) == Some(vs[7]);
    }
  }

  /** The eight counters in `/proc/stat` order. */
  function Values(s: CpuStats): seq<nat> {
    [s.user, s.nice, s.system, s.idle, s.iowait, s.irq, s.softirq, s.steal]
  }

  /** Decimal renderings, one word per value. */
  function NatStrings(vs: seq<nat>): (r: seq<string>)
    ensures |r| == |vs|
  {
    if vs == [] then [] else [NatToString(vs[0])] + NatStrings(vs[1..])
  }

  /** Rendered `u64` values are words that parse back to themselves. */
  lemma {:induction false} NatStringsParse(vs: seq<nat>)
    requires forall i :: 0 <= i < |vs| ==> vs[i] <= U64_MAX
    ensures forall i :: 0 <= i < |vs| ==> |NatStrings(vs)[i]| > 0 && NoSpace(NatStrings(vs)[i])
    ensures ParseAllU64(NatStrings(vs)) == Some(vs)
  {
    if vs != [] {
      NatStringsParse(vs[1..]);
      NatToStringIsWord(vs[0]);
      ParseUnsignedOfNatToString(vs[0], U64_MAX);
      var ws := NatStrings(vs);
      assert ws[1..] == NatStrings(vs[1..]);
      forall i | 0 <= i < |vs| ensures |ws[i]| > 0 && NoSpace(ws[i]) {
        if i > 0 { assert ws[i] == NatStrings(vs[1..])[i - 1]; }
      }
      assert [vs[0]] + vs[1..] == vs;
    }
  }

  function StatWords(s: CpuStats): seq<string> { NatStrings(Values(s)) }

  predicate FitsU64(s: CpuStats) {
    s.user <= U64_MAX && s.nice <= U64_MAX && s.system <= U64_MAX && s.idle <= U64_MAX &&
    s.iowait <= U64_MAX && s.irq <= U64_MAX && s.softirq <= U64_MAX && s.steal <= U64_MAX
  }

  /** `tag` followed by the eight counters splits back into those words. */
  lemma StatLineWords(tag: string, s: CpuStats)
    requires FitsU64(s) && |tag| > 0 && NoSpace(tag)
    ensures SplitWhitespace(Join([tag] + StatWords(s), " ")) == [tag] + StatWords(s)
    ensures ParseAllU64(StatWords(s)) == Some(Values(s))
    ensures Join([tag] + StatWords(s), " ") == tag + " " + Join(StatWords(s), " ")
  {
    var ws := [tag] + StatWords(s);
    NatStringsParse(Values(s));
    forall i | 0 <= i < |ws| ensures |ws[i]| > 0 && NoSpace(ws[i]) {
      if i > 0 { assert ws[i] == StatWords(s)[i - 1]; }
    }
    SplitWhitespaceJoin([], ws);
    assert [] + Join(ws, " ") == Join(ws, " ");
    assert ws[1..] == StatWords(s);
  }

  /** A full stat line whose first word `tag` starts with "cpu" parses back to its
      eight counters. */
  lemma StatLineRoundTrip(tag: string, s: CpuStats)
    requires FitsU64(s) && StartsWith(tag, "cpu") && NoSpace(tag)
    ensures ParseStatLine(Join([tag] + StatWords(s), " ")) == Ok(s)
  {
    var line := Join([tag] + StatWords(s), " ");
    var vs := Values(s);
    StatLineShape(tag, s);
    ParseNineWords(line, vs);
    assert CpuStats(vs[0], vs[1], vs[2], vs[3], vs[4], vs[5], vs[6], vs[7]) == s;
  }

  lemma StatLineShape(tag: string, s: CpuStats)
    requires FitsU64(s) && StartsWith(tag, "cpu") && NoSpace(tag)
    ensures var line := Join([tag] + StatWords(s), " ");
      StartsWith(line, "cpu") && |SplitWhitespace(line)| == 9 &&
      ParseAllU64(SplitWhitespace(line)[1..]) == Some(Values(s))
  {
    StatLineWords(tag, s);
    var line := Join([tag] + StatWords(s), " ");
    assert line[..3] == tag[..3];
    assert ([tag] + StatWords(s))[1..] == StatWords(s);
  }

  /** A "cpu" line of nine words whose last eight are `u64`s reads as those eight. */
  lemma ParseNineWords(line: string, vs: seq<nat>)
    requires StartsWith(line, "cpu") && |SplitWhitespace(line)| == 9
    requires ParseAllU64(SplitWhitespace(line)[1..]) == Some(vs)
    ensures |vs| == 8
    ensures ParseStatLine(line) == Ok(CpuStats(vs[0], vs[1], vs[2], vs[3], vs[4], vs[5], vs[6], vs[7]))
  {
    var words := SplitWhitespace(line);
    var fields := words[1..];
    assert |fields| == 8;
    assert At(vs, 4) == vs[4] && At(vs, 5) == vs[5] && At(vs, 6) == vs[6] && At(vs, 7) == vs[7];
  }

  // ---------------------------------------------------------------------
  // Per-core lines

  /** `PerCoreCpuStats`. */
  datatype CoreStats = CoreStats(coreId: nat, stats: CpuStats)

  /** A line the per-core parser is tried on: "cpu…" but not the aggregate "cpu ". */
  predicate IsCoreLine(line: string) { StartsWith(line, "cpu") && !StartsWith(line, "cpu ") }

  /** `PerCoreCpuStats::parse_from_proc_stat_line`: the core id is the `usize` after
      "cpu" in the first word; then the stat-line parse. */
  function ParseCoreLine(line: string): (r: Result<CoreStats, SensorError>)
    ensures r.Ok? ==> IsCoreLine(line) && ParseStatLine(line) == Ok(r.value.stats)
    ensures !IsCoreLine(line) ==> r == Err(Parse("Line is not a CPU core line"))
  {
    if !IsCoreLine(line) then Err(Parse("Line is not a CPU core line"))
    else
      var words := SplitWhitespace(line);
      if words == [] then Err(Parse("Empty line"))
      else if !StartsWith(words[0], "cpu") then Err(Parse("Invalid CPU line format"))
      else
        match ParseUsize(words[0][3..])
        case None => Err(Parse("Failed to parse core ID"))
        case Some(id) =>
          var stats :- ParseStatLine(line);
          Ok(CoreStats(id, stats))
  }

  /** `cpu<id>` is one word after the "cpu" prefix. */
  lemma CoreTagIsWord(id: nat)
    ensures var tag := "cpu" + NatToString(id);
      StartsWith(tag, "cpu") && NoSpace(tag) && !IsSpace(tag[3]) && tag[3..] == NatToString(id)
  {
    var tag := "cpu" + NatToString(id);
    NatToStringIsWord(id);
    assert tag[..3] == "cpu";
    forall i | 0 <= i < |tag| ensures !IsSpace(tag[i]) {
      if i >= 3 { assert tag[i] == NatToString(id)[i - 3]; }
    }
  }

  /** The steps of the per-core parse on a line already known to pass them. */
  lemma ParseCoreLineOf(line: string, id: nat, stats: CpuStats)
    requires IsCoreLine(line) && SplitWhitespace(line) != []
    requires StartsWith(SplitWhitespace(line)[0], "cpu")
    requires ParseUsize(SplitWhitespace(line)[0][3..]) == Some(id)
    requires ParseStatLine(line) == Ok(stats)
    ensures ParseCoreLine(line) == Ok(CoreStats(id, stats))
  {
  }

  /** `cpu<id> v0 … v7` is a per-core line whose first word is `cpu<id>`. */
  lemma CoreLineShape(id: nat, s: CpuStats)
    requires FitsU64(s)
    ensures var line := Join(["cpu" + NatToString(id)] + StatWords(s), " ");
      IsCoreLine(line) && SplitWhitespace(line) != [] && SplitWhitespace(line)[0] == "cpu" + NatToString(id)
  {
    var tag := "cpu" + NatToString(id);
    CoreTagIsWord(id);
    StatLineWords(tag, s);
    assert |tag| >= 4;
    CoreTagPrefix(tag, Join(StatWords(s), " "));
  }

  /** A line starting with a word "cpu" + more is a per-core line. */
  lemma CoreTagPrefix(tag: string, rest: string)
    requires StartsWith(tag, "cpu") && |tag| >= 4 && !IsSpace(tag[3])
    ensures IsCoreLine(tag + " " + rest)
  {
    var line := tag + " " + rest;
    assert line[..3] == tag[..3] == "cpu";
    assert line[3] == tag[3];
    assert line[..4][3] == line[3];
    assert line[..4] != "cpu ";
  }

  /** `cpu<id> v0 … v7` parses back to core `id` and its counters. */
  lemma CoreLineRoundTrip(id: nat, s: CpuStats)
    requires FitsU64(s) && id <= U64_MAX
    ensures ParseCoreLine(Join(["cpu" + NatToString(id)] + StatWords(s), " ")) == Ok(CoreStats(id, s))
  {
    var tag := "cpu" + NatToString(id);
    var line := Join([tag] + StatWords(s), " ");
    CoreTagIsWord(id);
    CoreLineShape(id, s);
    StatLineRoundTrip(tag, s);
    ParseUnsignedOfNatToString(id, U64_MAX);
    ParseCoreLineOf(line, id, s);
  }

  /** The aggregate line is never taken for a core. */
  lemma AggregateLineIsNotCore(rest: string)
    ensures ParseCoreLine("cpu " + rest) == Err(Parse("Line is not a CPU core line"))
  {
    assert ("cpu " + rest)[..4] == "cpu ";
  }

  /** The per-core lines after the first: non-"cpuN" lines are skipped, and the
      first per-core line that fails to parse ends the list. */
  function CoreStatsFrom(lines: seq<string>): seq<CoreStats> {
    if lines == [] then []
    else if !IsCoreLine(lines[0]) then CoreStatsFrom(lines[1..])
    else match ParseCoreLine(lines[0])
      case Ok(c) => [c] + CoreStatsFrom(lines[1..])
      case Err(_) => []
  }

  /** Every collected core comes from a per-core line that parses. */
  lemma {:induction false} CoreStatsFromParsed(lines: seq<string>)
    ensures |CoreStatsFrom(lines)| <= |lines|
    ensures forall c :: c in CoreStatsFrom(lines) ==> exists l :: l in lines && ParseCoreLine(l) == Ok(c)
  {
    if lines != [] {
      CoreStatsFromParsed(lines[1..]);
      forall c | c in CoreStatsFrom(lines) ensures exists l :: l in lines && ParseCoreLine(l) == Ok(c) {
        if c in CoreStatsFrom(lines[1..]) {
          var l :| l in lines[1..] && ParseCoreLine(l) == Ok(c);
          assert l in lines;
        } else {
          assert ParseCoreLine(lines[0]) == Ok(c);
        }
      }
    }
  }

  lemma CoreStatsFromStep(lines: seq<string>)
    requires lines != []
    ensures !IsCoreLine(lines[0]) ==> CoreStatsFrom(lines) == CoreStatsFrom(lines[1..])
    ensures IsCoreLine(lines[0]) && ParseCoreLine(lines[0]).Err? ==> CoreStatsFrom(lines) == []
    ensures (IsCoreLine(lines[0]) && ParseCoreLine(lines[0]).Ok? ==>
      CoreStatsFrom(lines) == [ParseCoreLine(lines[0]).value] + CoreStatsFrom(lines[1..]))
  {
  }

  /** A per-core line that fails hides every later core, while other lines do not. */
  lemma BadCoreLineStopsCollection(good: seq<string>, bad: string, later: seq<string>, other: string)
    requires IsCoreLine(bad) && ParseCoreLine(bad).Err?
    requires !IsCoreLine(other)
    ensures CoreStatsFrom([bad] + later) == []
    ensures CoreStatsFrom([other] + later) == CoreStatsFrom(later)
  {
    assert ([bad] + later)[1..] == later;
    assert ([other] + later)[1..] == later;
  }

  /** `read_all_cpu_stats_from_path`: the first line is the aggregate; per-core
      lines follow. */
  function ReadAllSpec(content: TextRead): Result<(CpuStats, seq<CoreStats>), SensorError> {
    match content
    case Err(k) => Err(Io(k))
    case Ok(text) =>
      var lines := Lines(text);
      if lines == [] then Err(InvalidData("Empty /proc/stat file", None))
      else
        var total :- ParseStatLine(lines[0]);
        Ok((total, CoreStatsFrom(lines[1..])))
  }

  /** The loop of `read_all_cpu_stats_from_path`. */
  method ReadAllCpuStats(content: TextRead) returns (r: Result<(CpuStats, seq<CoreStats>), SensorError>)
    ensures r == ReadAllSpec(content)
  {
    if content.Err? {
      return Err(Io(content.error));
    }
    var lines := Lines(content.value);
    if lines == [] {
      return Err(InvalidData("Empty /proc/stat file", None));
    }
    var total := ParseStatLine(lines[0]);
    if total.Err? {
      return Err(total.error);
    }
    var cores := CollectCores(lines[1..]);
    r := Ok((total.value, cores));
  }

  /** The loop over the per-core lines. */
  method CollectCores(lines: seq<string>) returns (cores: seq<CoreStats>)
    ensures cores == CoreStatsFrom(lines)
  {
    cores := [];
    var i := 0;
    while i < |lines|
      invariant 0 <= i <= |lines|
      invariant cores + CoreStatsFrom(lines[i..]) == CoreStatsFrom(lines)
    {
      var line := lines[i];
      assert lines[i..][0] == line && lines[i..][1..] == lines[i + 1..];
      CoreStatsFromStep(lines[i..]);
      if IsCoreLine(line) {
        var parsed := ParseCoreLine(line);
        if parsed.Err? {
          break;
        }
        cores := cores + [parsed.value];
      }
      i := i + 1;
    }
    assert cores == CoreStatsFrom(lines) by {
      if i == |lines| { assert CoreStatsFrom(lines[i..]) == []; }
    }
  }

  // ---------------------------------------------------------------------
  // Per-core usage

  /** The first previous sample of the same core. */
  function FindCore(prev: seq<CoreStats>, id: nat): (r: Option<CoreStats>)
    ensures r.Some? ==> r.value in prev && r.value.coreId == id
    ensures r.None? ==> forall c :: c in prev ==> c.coreId != id
  {
    if prev == [] then None
    else if prev[0].coreId == id then Some(prev[0])
    else FindCore(prev[1..], id)
  }

  /** Current cores, in order, that have a previous sample, with their usage. */
  function CoreUsagesSpec(current: seq<CoreStats>, prev: seq<CoreStats>): seq<(nat, real)> {
    if current == [] then []
    else
      var c := current[|current| - 1];
      CoreUsagesSpec(current[..|current| - 1], prev)
      + match FindCore(prev, c.coreId)
        case Some(p) => [(c.coreId, UsagePercent(c.stats, p.stats))]
        case None => []
  }

  /** A core is reported exactly when it was sampled both times, and each reported
      usage lies in [0, 100]. */
  lemma {:induction false} CoreUsagesMatched(current: seq<CoreStats>, prev: seq<CoreStats>)
    ensures |CoreUsagesSpec(current, prev)| <= |current|
    ensures forall u :: u in CoreUsagesSpec(current, prev) ==>
      0.0 <= u.1 <= 100.0 && (exists c :: c in current && c.coreId == u.0) && (exists p :: p in prev && p.coreId == u.0)
    ensures forall c :: c in current && (exists p :: p in prev && p.coreId == c.coreId) ==>
      exists u :: u in CoreUsagesSpec(current, prev) && u.0 == c.coreId
  {
    if current != [] {
      var init := current[..|current| - 1];
      var c := current[|current| - 1];
      CoreUsagesMatched(init, prev);
      assert current == init + [c];
      forall x | x in current && (exists p :: p in prev && p.coreId == x.coreId)
        ensures exists u :: u in CoreUsagesSpec(current, prev) && u.0 == x.coreId
      {
        if x in init {
          var u :| u in CoreUsagesSpec(init, prev) && u.0 == x.coreId;
          assert u in CoreUsagesSpec(current, prev);
        } else {
          assert x == c;
          var p := FindCore(prev, c.coreId).value;
          assert (c.coreId, UsagePercent(c.stats, p.stats)) in CoreUsagesSpec(current, prev);
        }
      }
      forall u | u in CoreUsagesSpec(current, prev)
        ensures 0.0 <= u.1 <= 100.0 && (exists c :: c in current && c.coreId == u.0) && (exists p :: p in prev && p.coreId == u.0)
      {
        if u in CoreUsagesSpec(init, prev) {
          var x :| x in init && x.coreId == u.0;
          assert x in current;
        } else {
          assert c in current;
          var p := FindCore(prev, c.coreId).value;
          assert p in prev;
        }
      }
    }
  }

  /** The per-core loop of `calculate_usage`. */
  method CoreUsages(current: seq<CoreStats>, prev: seq<CoreStats>) returns (r: seq<(nat, real)>)
    ensures r == CoreUsagesSpec(current, prev)
  {
    r := [];
    for i := 0 to |current|
      invariant r == CoreUsagesSpec(current[..i], prev)
    {
      assert current[..i + 1][..i] == current[..i];
      var c := current[i];
      var p := FindCore(prev, c.coreId);
      if p.Some? {
        r := r + [(c.coreId, UsagePercent(c.stats, p.value.stats))];
      }
    }
    assert current[..|current|] == current;
  }

  // ---------------------------------------------------------------------
  // /proc/cpuinfo

  /** `CpuInfo`; the frequency is the decimal part of `f64` parsing. */
  datatype CpuInfo = CpuInfo(modelName: string, coreCount: nat, frequencyMhz: Option<real>)

  /** The trimmed key and value of a `key: value` line. */
  function KeyValueOf(line: string): Option<(string, string)> {
    match SplitOnce(Trim(line), ':')
    case None => None
    case Some((k, v)) => Some((Trim(k), Trim(v)))
  }

  type Pair = Option<(string, string)>

  /** Every line as its key and value, if it has a colon. */
  function PairsOf(lines: seq<string>): (r: seq<Pair>)
    ensures |r| == |lines|
    ensures forall i :: 0 <= i < |lines| ==> r[i] == KeyValueOf(lines[i])
  {
    if lines == [] then [] else [KeyValueOf(lines[0])] + PairsOf(lines[1..])
  }

  datatype InfoState = InfoState(modelName: Option<string>, coreCount: nat, frequency: Option<real>)

  /** One pair of `parse_cpuinfo_content`'s loop; lines without a colon are
      ignored. A `cpu MHz` value that does not parse leaves the frequency unset, so
      a later one is tried. */
  function InfoStep(st: InfoState, kv: Pair): InfoState {
    match kv
    case None => st
    case Some((key, value)) =>
      if key == "model name" && st.modelName.None? then st.(modelName := Some(value))
      else if key == "processor" then st.(coreCount := st.coreCount + 1)
      else if key == "cpu MHz" && st.frequency.None? then st.(frequency := ParseDecimal(value))
      else st
  }

  function InfoFold(st: InfoState, kvs: seq<Pair>): InfoState
    decreases |kvs|
  {
    if kvs == [] then st else InfoFold(InfoStep(st, kvs[0]), kvs[1..])
  }

  function CpuInfoSpec(content: string): CpuInfo {
    var st := InfoFold(InfoState(None, 0, None), PairsOf(Lines(content)));
    CpuInfo(if st.modelName.Some? then st.modelName.value else "Unknown CPU", st.coreCount, st.frequency)
  }

  predicate HasKey(kv: Pair, key: string) { kv.Some? && kv.value.0 == key }

  /** The number of `processor` lines. */
  function ProcessorLines(kvs: seq<Pair>): nat {
    if kvs == [] then 0 else (if HasKey(kvs[0], "processor") then 1 else 0) + ProcessorLines(kvs[1..])
  }

  /** The value of the first line with the given key. */
  function FirstValue(kvs: seq<Pair>, key: string): Option<string> {
    if kvs == [] then None
    else if HasKey(kvs[0], key) then Some(kvs[0].value.1)
    else FirstValue(kvs[1..], key)
  }

  /** The fold counts every `processor` line. */
  lemma {:induction false} InfoFoldCount(st: InfoState, kvs: seq<Pair>)
    ensures InfoFold(st, kvs).coreCount == st.coreCount + ProcessorLines(kvs)
    decreases |kvs|
  {
    if kvs != [] {
      InfoFoldCount(InfoStep(st, kvs[0]), kvs[1..]);
    }
  }

  /** The fold keeps the first `model name` and never replaces it. */
  lemma {:induction false} InfoFoldName(st: InfoState, kvs: seq<Pair>)
    ensures st.modelName.Some? ==> InfoFold(st, kvs).modelName == st.modelName
    ensures st.modelName.None? ==> InfoFold(st, kvs).modelName == FirstValue(kvs, "model name")
    decreases |kvs|
  {
    if kvs != [] {
      InfoFoldName(InfoStep(st, kvs[0]), kvs[1..]);
    }
  }

  /** A frequency once read is never replaced. */
  lemma {:induction false} InfoFoldFrequency(st: InfoState, kvs: seq<Pair>)
    requires st.frequency.Some?
    ensures InfoFold(st, kvs).frequency == st.frequency
    decreases |kvs|
  {
    if kvs != [] {
      InfoFoldFrequency(InfoStep(st, kvs[0]), kvs[1..]);
    }
  }

  /** `parse_cpuinfo_content` as stated over the lines: it never fails, counts the
      processors, and names the CPU after the first `model name`. */
  lemma CpuInfoContract(content: string)
    ensures var kvs := PairsOf(Lines(content));
      CpuInfoSpec(content).coreCount == ProcessorLines(kvs) &&
      (FirstValue(kvs, "model name").Some? ==> CpuInfoSpec(content).modelName == FirstValue(kvs, "model name").value) &&
      (FirstValue(kvs, "model name").None? ==> CpuInfoSpec(content).modelName == "Unknown CPU")
  {
    InfoFoldCount(InfoState(None, 0, None), PairsOf(Lines(content)));
    InfoFoldName(InfoState(None, 0, None), PairsOf(Lines(content)));
  }

  /** The body of `parse_cpuinfo_content`'s loop on the three mutable locals. */
  method InfoLine(modelName: Option<string>, coreCount: nat, frequency: Option<real>, kv: Pair)
    returns (modelName': Option<string>, coreCount': nat, frequency': Option<real>)
    ensures InfoState(modelName', coreCount', frequency') == InfoStep(InfoState(modelName, coreCount, frequency), kv)
  {
    modelName', coreCount', frequency' := modelName, coreCount, frequency;
    if kv.Some? {
      var (key, value) := kv.value;
      if key == "model name" && modelName.None? {
        modelName' := Some(value);
      } else if key == "processor" {
        coreCount' := coreCount + 1;
      } else if key == "cpu MHz" && frequency.None? {
        frequency' := ParseDecimal(value);
      }
    }
  }

  /** The loop of `parse_cpuinfo_content`, over three mutable locals. */
  method ParseCpuinfoContent(content: string) returns (info: CpuInfo)
    ensures info == CpuInfoSpec(content)
  {
    var lines := Lines(content);
    ghost var kvs := PairsOf(lines);
    var modelName: Option<string> := None;
    var coreCount: nat := 0;
    var frequency: Option<real> := None;
    for i := 0 to |lines|
      invariant InfoFold(InfoState(modelName, coreCount, frequency), kvs[i..]) ==
                InfoFold(InfoState(None, 0, None), kvs)
    {
      assert kvs[i..][1..] == kvs[i + 1..];
      assert KeyValueOf(lines[i]) == kvs[i];
      modelName, coreCount, frequency := InfoLine(modelName, coreCount, frequency, KeyValueOf(lines[i]));
    }
    info := CpuInfo(if modelName.Some? then modelName.value else "Unknown CPU", coreCount, frequency);
  }

  // ---------------------------------------------------------------------
  // The sensor

  const MIN_SAMPLE_INTERVAL_MS: nat := 100
  const PROC_STAT_PATH: string := "/proc/stat"

  function ElapsedSince(now: nat, since: nat): nat { if now >= since then now - since else 0 }

  /** `calculate_usage` as a function of the previous sample and the readings: with
      a previous sample at least 100 ms old the first reading is compared with it;
      a younger one waits for the second reading; without one the two readings are
      compared with each other. The new previous sample is always the first
      reading. */
  function CalculateUsageSpec(prev: Option<(CpuStats, nat)>, prevCores: Option<seq<CoreStats>>, now: nat,
                              first: TextRead, second: TextRead): Result<(real, seq<(nat, real)>, CpuStats, seq<CoreStats>), SensorError> {
    var (cur, curCores) :- ReadAllSpec(first);
    if prev.Some? && prevCores.Some? then
      if ElapsedSince(now, prev.value.1) < MIN_SAMPLE_INTERVAL_MS then
        var (again, againCores) :- ReadAllSpec(second);
        Ok((UsagePercent(again, prev.value.0), CoreUsagesSpec(againCores, prevCores.value), cur, curCores))
      else
        Ok((UsagePercent(cur, prev.value.0), CoreUsagesSpec(curCores, prevCores.value), cur, curCores))
    else
      var (later, laterCores) :- ReadAllSpec(second);
      Ok((UsagePercent(later, cur), CoreUsagesSpec(laterCores, curCores), cur, curCores))
  }

  /** A fresh sample (100 ms or older previous one) never needs the second
      reading. */
  lemma OldSampleIgnoresSecondReading(prev: (CpuStats, nat), cores: seq<CoreStats>, now: nat,
                                      first: TextRead, second: TextRead, other: TextRead)
    requires ElapsedSince(now, prev.1) >= MIN_SAMPLE_INTERVAL_MS
    ensures CalculateUsageSpec(Some(prev), Some(cores), now, first, second) ==
            CalculateUsageSpec(Some(prev), Some(cores), now, first, other)
  {
  }

  /** What `read` reports: the usage, the per-core usages, the rounded
      percentage and the threshold class. */
  datatype CpuReading = CpuReading(usage: real, coreUsages: seq<(nat, real)>, percentage: nat, cssClass: string)

  class CpuSensor {
    const name: string
    var config: SensorConfig
    const warningThreshold: real
    const criticalThreshold: real
    var prevStats: Option<(CpuStats, nat)>
    var prevCoreStats: Option<seq<CoreStats>>
    var usageHistory: seq<real>

    constructor (warning: nat, critical: nat)
      ensures name == "cpu" && config == DefaultConfig()
      ensures warningThreshold == warning as real && criticalThreshold == critical as real
      ensures prevStats.None? && prevCoreStats.None? && usageHistory == []
    {
      name := "cpu";
      config := DefaultConfig();
      warningThreshold := warning as real;
      criticalThreshold := critical as real;
      prevStats := None;
      prevCoreStats := None;
      usageHistory := [];
    }

    /** `calculate_usage`: on success the previous sample becomes the first reading. */
    method CalculateUsage(now: nat, first: TextRead, second: TextRead) returns (r: Result<(real, seq<(nat, real)>), SensorError>)
      modifies this`prevStats, this`prevCoreStats
      ensures var spec := CalculateUsageSpec(old(prevStats), old(prevCoreStats), now, first, second);
        (r.Err? <==> spec.Err?) && (r.Err? ==> r.error == spec.error) &&
        (r.Ok? ==> r.value == (spec.value.0, spec.value.1) &&
                   prevStats == Some((spec.value.2, now)) && prevCoreStats == Some(spec.value.3)) &&
        (r.Err? ==> prevStats == old(prevStats) && prevCoreStats == old(prevCoreStats))
    {
      var current := ReadAllCpuStats(first);
      if current.Err? {
        return Err(current.error);
      }
      var (cur, curCores) := current.value;
      var usage: real;
      var cores: seq<(nat, real)>;
      if prevStats.Some? && prevCoreStats.Some? {
        var (ps, pt) := prevStats.value;
        if ElapsedSince(now, pt) < MIN_SAMPLE_INTERVAL_MS {
          var again := ReadAllCpuStats(second);
          if again.Err? {
            return Err(again.error);
          }
          usage := UsagePercent(again.value.0, ps);
          cores := CoreUsages(again.value.1, prevCoreStats.value);
        } else {
          usage := UsagePercent(cur, ps);
          cores := CoreUsages(curCores, prevCoreStats.value);
        }
      } else {
        var later := ReadAllCpuStats(second);
        if later.Err? {
          return Err(later.error);
        }
        usage := UsagePercent(later.value.0, cur);
        cores := CoreUsages(later.value.1, curCores);
      }
      prevStats := Some((cur, now));
      prevCoreStats := Some(curCores);
      r := Ok((usage, cores));
    }

    /** `read`: the usage, then the history and the themed percentage. */
    method Read(now: nat, first: TextRead, second: TextRead) returns (r: Result<CpuReading, SensorError>)
      modifies this`prevStats, this`prevCoreStats, this`usageHistory
      ensures var spec := CalculateUsageSpec(old(prevStats), old(prevCoreStats), now, first, second);
        (r.Err? <==> spec.Err?) &&
        (r.Err? ==> r.error == spec.error && usageHistory == old(usageHistory) &&
                    prevStats == old(prevStats) && prevCoreStats == old(prevCoreStats)) &&
        (r.Ok? ==> var u := spec.value.0;
          usageHistory == PushHistory(old(usageHistory), u, config.sparklineLength) &&
          prevStats == Some((spec.value.2, now)) && prevCoreStats == Some(spec.value.3) &&
          r.value == CpuReading(u, spec.value.1, RoundClamp(u),
                                ClassForThresholds(config.theme, u, warningThreshold, criticalThreshold)))
    {
      var usage := CalculateUsage(now, first, second);
      if usage.Err? {
        return Err(usage.error);
      }
      var (u, cores) := usage.value;
      usageHistory := usageHistory + [u];
      if |usageHistory| > config.sparklineLength {
        usageHistory := usageHistory[1..];
      }
      r := Ok(CpuReading(u, cores, RoundClamp(u), ClassForThresholds(config.theme, u, warningThreshold, criticalThreshold)));
    }

    /** `configure`: an update interval under 100 ms is refused and keeps the old
        configuration. */
    method Configure(c: SensorConfig) returns (r: Result<(), SensorError>)
      modifies this`config
      ensures c.updateInterval < MIN_UPDATE_INTERVAL ==>
        r == Err(Config("Update interval must be at least 100ms", None)) && config == old(config)
      ensures c.updateInterval >= MIN_UPDATE_INTERVAL ==> r == Ok(()) && config == c
    {
      if c.updateInterval < MIN_UPDATE_INTERVAL {
        return Err(Config("Update interval must be at least 100ms", None));
      }
      config := c;
      r := Ok(());
    }
  }

  /** `CpuSensor::new`: critical must be strictly above warning. */
  method NewCpuSensor(warning: nat, critical: nat) returns (r: Result<CpuSensor, SensorError>)
    requires warning <= U8_MAX && critical <= U8_MAX
    ensures critical <= warning ==> r == Err(Config(ThresholdMessage(warning, critical), None))
    ensures warning < critical ==> r.Ok?
    ensures warning < critical && r.Ok? ==>
      fresh(r.value) && r.value.name == "cpu" && r.value.config == DefaultConfig() &&
      r.value.warningThreshold == warning as real && r.value.criticalThreshold == critical as real &&
      r.value.usageHistory == [] && r.value.prevStats.None? && r.value.prevCoreStats.None?
  {
    if critical <= warning {
      return Err(Config(ThresholdMessage(warning, critical), None));
    }
    var sensor := new CpuSensor(warning, critical);
    r := Ok(sensor);
  }

  /** `check_availability`: a missing `/proc/stat` is permanently unavailable; a
      permission failure reading it names the file; other errors of the first-line
      parse pass through. */
  function AvailabilitySpec(present: bool, content: TextRead): (r: Result<(), SensorError>)
    ensures !present ==> r == Err(Unavailable(PROC_STAT_PATH + " does not exist (not a Linux system?)", false))
    ensures present && content == Err(PermissionDeniedKind) ==> r == Err(PermissionDenied(PROC_STAT_PATH))
    ensures present && content.Ok? && Lines(content.value) != [] && ParseStatLine(Lines(content.value)[0]).Ok? ==> r == Ok(())
  {
    if !present then Err(UnavailableError(PROC_STAT_PATH + " does not exist (not a Linux system?)"))
    else
      match content
      case Err(PermissionDeniedKind) => Err(PermissionDenied(PROC_STAT_PATH))
      case Err(k) => Err(Io(k))
      case Ok(text) =>
        var lines := Lines(text);
        if lines == [] then Err(InvalidData("Empty /proc/stat file", None))
        else
          match ParseStatLine(lines[0])
          case Ok(_) => Ok(())
          case Err(e) => Err(e)
  }
}
