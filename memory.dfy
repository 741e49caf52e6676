/** The memory sensor (`memory.rs`): `/proc/meminfo` parsing into bytes, the
    RAM and swap percentages, and the sensor's choice of the value it shows. */
module Memory {
  import opened Wrappers
  import opened Text
  import opened CoreLib
  import opened Readings

  // ---------------------------------------------------------------------
  // MemoryInfo

  /** `MemoryInfo`, in bytes. Sums are taken in unbounded integers. */
  datatype MemoryInfo = MemoryInfo(memTotal: nat, memFree: nat, memAvailable: nat, memBuffers: nat,
                                   memCached: nat, swapTotal: nat, swapFree: nat)

  /** `mem_used`: total minus available, never below zero. */
  function MemUsed(i: MemoryInfo): (r: nat)
    ensures r <= i.memTotal
    ensures i.memAvailable <= i.memTotal ==> r + i.memAvailable == i.memTotal
    ensures i.memTotal <= i.memAvailable ==> r == 0
  {
    SaturatingSub(i.memTotal, i.memAvailable)
  }

  /** `swap_used`: swap total minus swap free, never below zero. */
  function SwapUsed(i: MemoryInfo): (r: nat)
    ensures r <= i.swapTotal
    ensures i.swapFree <= i.swapTotal ==> r + i.swapFree == i.swapTotal
    ensures i.swapTotal <= i.swapFree ==> r == 0
  {
    SaturatingSub(i.swapTotal, i.swapFree)
  }

  function MemUsedPercentage(i: MemoryInfo): real { Percent(MemUsed(i), i.memTotal) }
  function MemAvailablePercentage(i: MemoryInfo): real { Percent(i.memAvailable, i.memTotal) }
  function SwapUsedPercentage(i: MemoryInfo): real { Percent(SwapUsed(i), i.swapTotal) }

  /** `total_used_with_swap`. */
  function TotalUsedWithSwap(i: MemoryInfo): (r: nat)
    ensures r <= TotalCapacityWithSwap(i)
  {
    MemUsed(i) + SwapUsed(i)
  }

  /** `total_capacity_with_swap`. */
  function TotalCapacityWithSwap(i: MemoryInfo): nat { i.memTotal + i.swapTotal }

  function TotalUsedPercentageWithSwap(i: MemoryInfo): real {
    Percent(TotalUsedWithSwap(i), TotalCapacityWithSwap(i))
  }

  /** Every percentage is 0 without a denominator, and the used ones lie in
      [0, 100]; the available one can exceed 100 only when more is reported
      available than installed. */
  lemma PercentagesBounded(i: MemoryInfo)
    ensures i.memTotal == 0 ==> MemUsedPercentage(i) == 0.0 && MemAvailablePercentage(i) == 0.0
    ensures i.swapTotal == 0 ==> SwapUsedPercentage(i) == 0.0
    ensures TotalCapacityWithSwap(i) == 0 ==> TotalUsedPercentageWithSwap(i) == 0.0
    ensures 0.0 <= MemUsedPercentage(i) <= 100.0 && 0.0 <= SwapUsedPercentage(i) <= 100.0
    ensures 0.0 <= TotalUsedPercentageWithSwap(i) <= 100.0
    ensures i.memAvailable <= i.memTotal ==> MemAvailablePercentage(i) <= 100.0
  {
  }

  /** Used and available RAM add up to 100 % while available does not exceed
      the total. */
  lemma UsedAndAvailableComplement(i: MemoryInfo)
    requires i.memTotal > 0 && i.memAvailable <= i.memTotal
    ensures MemUsedPercentage(i) + MemAvailablePercentage(i) == 100.0
  {
    var t := i.memTotal as real;
    var u := MemUsedPercentage(i);
    var a := MemAvailablePercentage(i);
    assert u * t == (MemUsed(i) as real) * 100.0;
    assert a * t == (i.memAvailable as real) * 100.0;
    var sum := (MemUsed(i) as real) + (i.memAvailable as real);
    assert sum == t;
    assert (u + a) * t == u * t + a * t;
    assert u * t + a * t == sum * 100.0;
    assert sum * 100.0 == 100.0 * t;
    CancelPositive(u + a, 100.0, t);
  }

  lemma CancelPositive(x: real, y: real, t: real)
    requires t > 0.0 && x * t == y * t
    ensures x == y
  {
    assert (x - y) * t == 0.0;
  }

  /** Without swap the combined figure is the RAM figure. */
  lemma NoSwapCombinedIsRam(i: MemoryInfo)
    requires i.swapTotal == 0
    ensures TotalUsedPercentageWithSwap(i) == MemUsedPercentage(i)
  {
  }

  /** A mediant lies between its two fractions: with m = a/c, s = b/d and
      t = (a+b)/(c+d), all scaled by 100, m <= s gives m <= t <= s. */
  lemma MediantBetween(a: real, b: real, c: real, d: real, m: real, s: real, t: real)
    requires c > 0.0 && d > 0.0
    requires m * c == a * 100.0 && s * d == b * 100.0 && t * (c + d) == (a + b) * 100.0
    requires m <= s
    ensures m <= t <= s
  {
    assert m * d <= s * d;
    assert m * c <= s * c;
    assert m * (c + d) == m * c + m * d;
    assert s * (c + d) == s * c + s * d;
    assert m * (c + d) <= t * (c + d);
    assert t * (c + d) <= s * (c + d);
  }

  /** The combined percentage lies between the RAM and the swap percentages. */
  lemma CombinedBetween(i: MemoryInfo)
    requires i.memTotal > 0 && i.swapTotal > 0
    requires MemUsedPercentage(i) <= SwapUsedPercentage(i)
    ensures MemUsedPercentage(i) <= TotalUsedPercentageWithSwap(i) <= SwapUsedPercentage(i)
  {
    var a, c := MemUsed(i) as real, i.memTotal as real;
    var b, d := SwapUsed(i) as real, i.swapTotal as real;
    assert (TotalCapacityWithSwap(i) as real) == c + d;
    assert (TotalUsedWithSwap(i) as real) == a + b;
    MediantBetween(a, b, c, d, MemUsedPercentage(i), SwapUsedPercentage(i), TotalUsedPercentageWithSwap(i));
  }

  /** The source's own figures: 4 of 16 GiB used, 2 of 8 GiB swap, 6 of 24 GiB
      combined, each 25 %. */
  lemma CalculationExample()
    ensures var g := 1024 * 1024 * 1024;
      var i := MemoryInfo(16 * g, 4 * g, 12 * g, g, 2 * g, 8 * g, 6 * g);
      MemUsed(i) == 4 * g && SwapUsed(i) == 2 * g && TotalUsedWithSwap(i) == 6 * g &&
      TotalCapacityWithSwap(i) == 24 * g && MemUsedPercentage(i) == 25.0 &&
      MemAvailablePercentage(i) == 75.0 && SwapUsedPercentage(i) == 25.0 &&
      TotalUsedPercentageWithSwap(i) == 25.0
  {
  }

  // ---------------------------------------------------------------------
  // /proc/meminfo

  /** The keys `parse_meminfo_content` keeps; every other key is ignored. */
  datatype MemKey = MemTotalKey | MemFreeKey | MemAvailableKey | BuffersKey | CachedKey | SwapTotalKey | SwapFreeKey

  function KeyName(k: MemKey): string {
    match k
    case MemTotalKey => "MemTotal"
    case MemFreeKey => "MemFree"
    case MemAvailableKey => "MemAvailable"
    case BuffersKey => "Buffers"
    case CachedKey => "Cached"
    case SwapTotalKey => "SwapTotal"
    case SwapFreeKey => "SwapFree"
  }

  /** The arm of the `match key` a key selects. */
  function KeyOf(key: string): (r: Option<MemKey>)
    ensures r.Some? ==> KeyName(r.value) == key
  {
    if key == "MemTotal" then Some(MemTotalKey)
    else if key == "MemFree" then Some(MemFreeKey)
    else if key == "MemAvailable" then Some(MemAvailableKey)
    else if key == "Buffers" then Some(BuffersKey)
    else if key == "Cached" then Some(CachedKey)
    else if key == "SwapTotal" then Some(SwapTotalKey)
    else if key == "SwapFree" then Some(SwapFreeKey)
    else None
  }

  lemma KeyNamesRoundTrip(k: MemKey)
    ensures KeyOf(KeyName(k)) == Some(k)
  {
  }

  function SetField(st: MemoryInfo, k: MemKey, v: nat): MemoryInfo {
    match k
    case MemTotalKey => st.(memTotal := v)
    case MemFreeKey => st.(memFree := v)
    case MemAvailableKey => st.(memAvailable := v)
    case BuffersKey => st.(memBuffers := v)
    case CachedKey => st.(memCached := v)
    case SwapTotalKey => st.(swapTotal := v)
    case SwapFreeKey => st.(swapFree := v)
  }

  function GetField(st: MemoryInfo, k: MemKey): nat {
    match k
    case MemTotalKey => st.memTotal
    case MemFreeKey => st.memFree
    case MemAvailableKey => st.memAvailable
    case BuffersKey => st.memBuffers
    case CachedKey => st.memCached
    case SwapTotalKey => st.swapTotal
    case SwapFreeKey => st.swapFree
  }

  /** Setting a field changes that field and no other. */
  lemma SetFieldFrame(st: MemoryInfo, k: MemKey, j: MemKey, v: nat)
    ensures GetField(SetField(st, k, v), k) == v
    ensures j != k ==> GetField(SetField(st, k, v), j) == GetField(st, j)
  {
  }

  function ParseFailure(key: string): string { "Failed to parse " + key + " value" }

  const KIB: nat := 1024

  /** One line of the loop: fewer than two words is skipped; the key is the first
      word without trailing colons; the second word must be a `u64` (else the
      whole parse fails, whatever the key); kB become bytes. */
  function MemLineStep(st: MemoryInfo, line: string): Result<MemoryInfo, SensorError> {
    var parts := SplitWhitespace(line);
    if |parts| < 2 then Ok(st)
    else
      var key := TrimEndMatches(parts[0], ':');
      match ParseU64(parts[1])
      case None => Err(Parse(ParseFailure(key)))
      case Some(v) =>
        match KeyOf(key)
        case Some(k) => Ok(SetField(st, k, v * KIB))
        case None => Ok(st)
  }

  function MemFold(st: MemoryInfo, lines: seq<string>): Result<MemoryInfo, SensorError>
    decreases |lines|
  {
    if lines == [] then Ok(st)
    else
      match MemLineStep(st, lines[0])
      case Err(e) => Err(e)
      case Ok(next) => MemFold(next, lines[1..])
  }

  /** Kernels before 3.14 have no `MemAvailable`: estimate it from free, buffers
      and cache. */
  function Fallback(st: MemoryInfo): (r: MemoryInfo)
    ensures r.memAvailable > 0 || (st.memFree == 0 && st.memBuffers == 0 && st.memCached == 0)
    ensures st.memAvailable > 0 ==> r == st
  {
    if st.memAvailable == 0 then st.(memAvailable := st.memFree + st.memBuffers + st.memCached) else st
  }

  const ZERO_INFO: MemoryInfo := MemoryInfo(0, 0, 0, 0, 0, 0, 0)

  function MeminfoSpecLines(lines: seq<string>): Result<MemoryInfo, SensorError> {
    var st :- MemFold(ZERO_INFO, lines);
    Ok(Fallback(st))
  }

  /** `parse_meminfo_content`. */
  function MeminfoSpec(content: string): Result<MemoryInfo, SensorError> {
    MeminfoSpecLines(Lines(content))
  }

  /** `Key: <n> kB`, the kernel's layout of a line. */
  function MeminfoLine(key: string, kb: nat): string { key + ":" + " " + NatToString(kb) + " " + "kB" }

  lemma TrimColon(key: string)
    requires |key| > 0 && key[|key| - 1] != ':'
    ensures TrimEndMatches(key + ":", ':') == key
  {
    assert (key + ":")[..|key|] == key;
  }

  lemma ColonWord(key: string)
    requires |key| > 0 && NoSpace(key)
    ensures NoSpace(key + ":")
  {
    var w := key + ":";
    forall i | 0 <= i < |w| ensures !IsSpace(w[i]) {
      if i < |key| { assert w[i] == key[i]; }
    }
  }

  lemma JoinThree(a: string, b: string, c: string)
    ensures Join([a, b, c], " ") == a + " " + b + " " + c
  {
    assert [a, b, c][1..] == [b, c];
    assert [b, c][1..] == [c];
    assert Join([b, c], " ") == b + " " + c;
    assert Join([a, b, c], " ") == a + " " + (b + " " + c);
  }

  /** A kernel-style line is three words. */
  lemma MeminfoLineWords(key: string, kb: nat)
    requires |key| > 0 && NoSpace(key)
    ensures SplitWhitespace(MeminfoLine(key, kb)) == [key + ":", NatToString(kb), "kB"]
  {
    var ws := [key + ":", NatToString(kb), "kB"];
    ColonWord(key);
    NatToStringIsWord(kb);
    assert NoSpace("kB") by { assert "kB"[0] == 'k' && "kB"[1] == 'B'; }
    JoinThree(key + ":", NatToString(kb), "kB");
    assert [] + Join(ws, " ") == MeminfoLine(key, kb);
    SplitWhitespaceJoin([], ws);
  }

  /** A kernel-style line sets its field to the value in bytes; an unknown key is
      read and ignored. */
  lemma MeminfoLineSets(st: MemoryInfo, key: string, kb: nat)
    requires |key| > 0 && NoSpace(key) && key[|key| - 1] != ':' && kb <= U64_MAX
    ensures MemLineStep(st, MeminfoLine(key, kb)) ==
      Ok(if KeyOf(key).Some? then SetField(st, KeyOf(key).value, kb * KIB) else st)
  {
    MeminfoLineWords(key, kb);
    TrimColon(key);
    ParseUnsignedOfNatToString(kb, U64_MAX);
  }

  /** A line of fewer than two words changes nothing; any other line whose second
      word is not a `u64` fails the parse, naming the key. */
  lemma MemLineStepContract(st: MemoryInfo, line: string)
    ensures |SplitWhitespace(line)| < 2 ==> MemLineStep(st, line) == Ok(st)
    ensures |SplitWhitespace(line)| >= 2 && ParseU64(SplitWhitespace(line)[1]).None? ==>
      MemLineStep(st, line) == Err(Parse(ParseFailure(TrimEndMatches(SplitWhitespace(line)[0], ':'))))
    ensures MemLineStep(st, line).Ok? && |SplitWhitespace(line)| >= 2 ==>
      var k := KeyOf(TrimEndMatches(SplitWhitespace(line)[0], ':'));
      MemLineStep(st, line).value ==
        (if k.Some? then SetField(st, k.value, ParseU64(SplitWhitespace(line)[1]).value * KIB) else st)
  {
  }

  /** A failing line hides everything after it. */
  lemma {:induction false} MemFoldStopsAtFailure(st: MemoryInfo, before: seq<string>, bad: string, after: seq<string>)
    requires MemFold(st, before).Ok? && MemLineStep(MemFold(st, before).value, bad).Err?
    ensures MemFold(st, before + [bad] + after) == Err(MemLineStep(MemFold(st, before).value, bad).error)
    decreases |before|
  {
    if before == [] {
      assert before + [bad] + after == [bad] + after;
      assert ([bad] + after)[1..] == after;
    } else {
      assert (before + [bad] + after)[1..] == before[1..] + [bad] + after;
      MemFoldStopsAtFailure(MemLineStep(st, before[0]).value, before[1..], bad, after);
    }
  }

  /** A listing of kernel-style lines, one per pair. */
  function ListingLines(pairs: seq<(MemKey, nat)>): (r: seq<string>)
    ensures |r| == |pairs|
  {
    if pairs == [] then [] else [MeminfoLine(KeyName(pairs[0].0), pairs[0].1)] + ListingLines(pairs[1..])
  }

  /** Each pair assigned in turn, in bytes: a repeated key keeps its last value. */
  function Assigned(st: MemoryInfo, pairs: seq<(MemKey, nat)>): MemoryInfo
    decreases |pairs|
  {
    if pairs == [] then st else Assigned(SetField(st, pairs[0].0, pairs[0].1 * KIB), pairs[1..])
  }

  lemma KeyNameIsKey(k: MemKey)
    ensures |KeyName(k)| > 0 && NoSpace(KeyName(k)) && KeyName(k)[|KeyName(k)| - 1] != ':'
  {
  }

  /** Parsing a listing assigns its values in order. */
  lemma {:induction false} ListingParses(st: MemoryInfo, pairs: seq<(MemKey, nat)>)
    requires forall i :: 0 <= i < |pairs| ==> pairs[i].1 <= U64_MAX
    ensures MemFold(st, ListingLines(pairs)) == Ok(Assigned(st, pairs))
    decreases |pairs|
  {
    if pairs != [] {
      var (k, kb) := pairs[0];
      KeyNameIsKey(k);
      MeminfoLineSets(st, KeyName(k), kb);
      KeyNamesRoundTrip(k);
      assert ListingLines(pairs)[1..] == ListingLines(pairs[1..]);
      ListingParses(SetField(st, k, kb * KIB), pairs[1..]);
    }
  }

  /** The field of the last pair naming a key, if any. */
  function LastValue(pairs: seq<(MemKey, nat)>, k: MemKey): Option<nat> {
    if pairs == [] then None
    else if pairs[|pairs| - 1].0 == k then Some(pairs[|pairs| - 1].1)
    else LastValue(pairs[..|pairs| - 1], k)
  }

  lemma {:induction false} AssignedSnoc(st: MemoryInfo, pairs: seq<(MemKey, nat)>, p: (MemKey, nat))
    ensures Assigned(st, pairs + [p]) == SetField(Assigned(st, pairs), p.0, p.1 * KIB)
    decreases |pairs|
  {
    if pairs == [] {
      assert [] + [p] == [p];
    } else {
      assert (pairs + [p])[1..] == pairs[1..] + [p];
      AssignedSnoc(SetField(st, pairs[0].0, pairs[0].1 * KIB), pairs[1..], p);
    }
  }

  /** Each field ends with the last value listed for it, in bytes, or keeps its
      starting value. */
  lemma {:induction false} AssignedLastWins(st: MemoryInfo, pairs: seq<(MemKey, nat)>, k: MemKey)
    ensures GetField(Assigned(st, pairs), k) ==
      (if LastValue(pairs, k).Some? then LastValue(pairs, k).value * KIB else GetField(st, k))
    decreases |pairs|
  {
    if pairs != [] {
      var init, p := pairs[..|pairs| - 1], pairs[|pairs| - 1];
      assert pairs == init + [p];
      AssignedSnoc(st, init, p);
      AssignedLastWins(st, init, k);
      SetFieldFrame(Assigned(st, init), p.0, k, p.1 * KIB);
    }
  }

  /** Each field of a parsed listing is the last value listed for it, in bytes,
      or 0. */
  lemma ListingFields(pairs: seq<(MemKey, nat)>, k: MemKey)
    ensures GetField(Assigned(ZERO_INFO, pairs), k) ==
      (if LastValue(pairs, k).Some? then LastValue(pairs, k).value * KIB else 0)
  {
    AssignedLastWins(ZERO_INFO, pairs, k);
  }

  /** A kernel-style listing parses to its assignments, with an absent or zero
      `MemAvailable` estimated as free + buffers + cached. */
  lemma MeminfoListingRoundTrip(pairs: seq<(MemKey, nat)>)
    requires forall i :: 0 <= i < |pairs| ==> pairs[i].1 <= U64_MAX
    ensures MeminfoSpecLines(ListingLines(pairs)) == Ok(Fallback(Assigned(ZERO_INFO, pairs)))
  {
    ListingParses(ZERO_INFO, pairs);
  }

  /** Parsing fails only with a parse error. */
  lemma {:induction false} MemFoldErrorsAreParse(st: MemoryInfo, lines: seq<string>)
    ensures MemFold(st, lines).Err? ==> MemFold(st, lines).error.Parse?
    decreases |lines|
  {
    if lines != [] && MemLineStep(st, lines[0]).Ok? {
      MemFoldErrorsAreParse(MemLineStep(st, lines[0]).value, lines[1..]);
    }
  }

  /** The loop of `parse_meminfo_content` over its seven mutable locals. */
  method MeminfoFields(lines: seq<string>) returns (r: Result<MemoryInfo, SensorError>)
    ensures r == MemFold(ZERO_INFO, lines)
  {
    var memTotal: nat, memFree: nat, memAvailable: nat, memBuffers: nat := 0, 0, 0, 0;
    var memCached: nat, swapTotal: nat, swapFree: nat := 0, 0, 0;
    for i := 0 to |lines|
      invariant MemFold(MemoryInfo(memTotal, memFree, memAvailable, memBuffers, memCached, swapTotal, swapFree), lines[i..])
                == MemFold(ZERO_INFO, lines)
    {
      ghost var before := MemoryInfo(memTotal, memFree, memAvailable, memBuffers, memCached, swapTotal, swapFree);
      assert lines[i..][1..] == lines[i + 1..];
      assert lines[i..][0] == lines[i];

      var parts := SplitWhitespace(lines[i]);
      if |parts| < 2 {
        continue;
      }
      var key := TrimEndMatches(parts[0], ':');
      var value := ParseU64(parts[1]);
      if value.None? {
        return Err(Parse(ParseFailure(key)));
      }
      var bytes := value.value * KIB;
      var k := KeyOf(key);
      match k {
        case Some(MemTotalKey) => memTotal := bytes;
        case Some(MemFreeKey) => memFree := bytes;
        case Some(MemAvailableKey) => memAvailable := bytes;
        case Some(BuffersKey) => memBuffers := bytes;
        case Some(CachedKey) => memCached := bytes;
        case Some(SwapTotalKey) => swapTotal := bytes;
        case Some(SwapFreeKey) => swapFree := bytes;
        case None =>
      }
    }
    r := Ok(MemoryInfo(memTotal, memFree, memAvailable, memBuffers, memCached, swapTotal, swapFree));
  }

  /** `parse_meminfo_content`: the loop, then the `MemAvailable` estimate. */
  method ParseMeminfoContent(content: string) returns (r: Result<MemoryInfo, SensorError>)
    ensures r == MeminfoSpec(content)
  {
    var fields := MeminfoFields(Lines(content));
    if fields.Err? {
      return Err(fields.error);
    }
    var info := fields.value;
    if info.memAvailable == 0 {
      info := info.(memAvailable := info.memFree + info.memBuffers + info.memCached);
    }
    r := Ok(info);
  }

  // ---------------------------------------------------------------------
  // The sensor

  const PROC_MEMINFO_PATH: string := "/proc/meminfo"

  /** `from_proc_meminfo`: a read failure is an I/O error. */
  function FromProcMeminfo(content: TextRead): Result<MemoryInfo, SensorError> {
    match content
    case Err(k) => Err(Io(k))
    case Ok(text) => MeminfoSpec(text)
  }

  /** Which figure `read` shows. */
  datatype Shown = FreeRam | RamAndSwap | RamOnly

  /** What `read` reports: the figure shown, the value that drives the theme and
      the history, the rounded percentage and the threshold class. */
  datatype MemoryReading = MemoryReading(shown: Shown, value: real, percentage: nat, cssClass: string)

  /** `read`'s choice: showing available memory wins over including swap, and
      then the theme follows 100 − available %, so high use still warns. */
  function SelectValue(info: MemoryInfo, includeSwap: bool, showAvailable: bool): (Shown, real) {
    if showAvailable then (FreeRam, 100.0 - MemAvailablePercentage(info))
    else if includeSwap then (RamAndSwap, TotalUsedPercentageWithSwap(info))
    else (RamOnly, MemUsedPercentage(info))
  }

  /** The three modes: available wins whatever the swap flag; while available
      does not exceed the total it themes like the used figure; with no swap the
      combined figure is the RAM figure. */
  lemma SelectValueContract(info: MemoryInfo, includeSwap: bool)
    ensures SelectValue(info, includeSwap, true) == SelectValue(info, !includeSwap, true)
    ensures info.memTotal > 0 && info.memAvailable <= info.memTotal ==>
      SelectValue(info, includeSwap, true).1 == MemUsedPercentage(info)
    ensures info.swapTotal == 0 ==> SelectValue(info, true, false).1 == SelectValue(info, false, false).1
    ensures 0.0 <= SelectValue(info, includeSwap, false).1 <= 100.0
  {
    if info.memTotal > 0 && info.memAvailable <= info.memTotal {
      UsedAndAvailableComplement(info);
    }
    PercentagesBounded(info);
  }

  class MemorySensor {
    const name: string
    var config: SensorConfig
    const warningThreshold: real
    const criticalThreshold: real
    const includeSwap: bool
    const showAvailable: bool
    var usageHistory: seq<real>

    constructor (warning: nat, critical: nat, includeSwap: bool, showAvailable: bool)
      ensures name == "memory" && config == DefaultConfig()
      ensures warningThreshold == warning as real && criticalThreshold == critical as real
      ensures this.includeSwap == includeSwap && this.showAvailable == showAvailable
      ensures usageHistory == []
    {
      name := "memory";
      config := DefaultConfig();
      warningThreshold := warning as real;
      criticalThreshold := critical as real;
      this.includeSwap := includeSwap;
      this.showAvailable := showAvailable;
      usageHistory := [];
    }

    /** `read`: parse, choose the value, push it on the history, theme it. */
    method Read(content: TextRead) returns (r: Result<MemoryReading, SensorError>)
      modifies this`usageHistory
      ensures FromProcMeminfo(content).Err? ==>
        r == Err(FromProcMeminfo(content).error) && usageHistory == old(usageHistory)
      ensures FromProcMeminfo(content).Ok? ==> r.Ok?
      ensures FromProcMeminfo(content).Ok? && r.Ok? ==>
        var (shown, v) := SelectValue(FromProcMeminfo(content).value, includeSwap, showAvailable);
        usageHistory == PushHistory(old(usageHistory), v, config.sparklineLength) &&
        r.value == MemoryReading(shown, v, RoundClamp(v),
                                 ClassForThresholds(config.theme, v, warningThreshold, criticalThreshold))
    {
      if content.Err? {
        return Err(Io(content.error));
      }
      var parsed := ParseMeminfoContent(content.value);
      if parsed.Err? {
        return Err(parsed.error);
      }
      var selected := SelectValue(parsed.value, includeSwap, showAvailable);
      var v := selected.1;
      var history := usageHistory + [v];
      if |history| > config.sparklineLength {
        history := history[1..];
      }
      usageHistory := history;
      r := Ok(MemoryReading(selected.0, v, RoundClamp(v), ClassForThresholds(config.theme, v, warningThreshold, criticalThreshold)));
    }

    /** `configure` accepts any configuration. */
    method Configure(c: SensorConfig) returns (r: Result<(), SensorError>)
      modifies this`config
      ensures r == Ok(()) && config == c
    {
      config := c;
      r := Ok(());
    }
  }

  /** `MemorySensor::new`: critical must be strictly above warning. */
  method NewMemorySensor(warning: nat, critical: nat, includeSwap: bool, showAvailable: bool)
    returns (r: Result<MemorySensor, SensorError>)
    requires warning <= U8_MAX && critical <= U8_MAX
    ensures critical <= warning ==> r == Err(Config(ThresholdMessage(warning, critical), None))
    ensures warning < critical ==> r.Ok?
    ensures warning < critical && r.Ok? ==>
      fresh(r.value) && r.value.name == "memory" && r.value.config == DefaultConfig() &&
      r.value.warningThreshold == warning as real &&
      r.value.criticalThreshold == critical as real && r.value.includeSwap == includeSwap &&
      r.value.showAvailable == showAvailable && r.value.usageHistory == []
  {
    if critical <= warning {
      return Err(Config(ThresholdMessage(warning, critical), None));
    }
    var sensor := new MemorySensor(warning, critical, includeSwap, showAvailable);
    r := Ok(sensor);
  }

  /** `with_defaults`: 70 % and 90 %, RAM only, used figure. */
  method WithDefaults() returns (r: Result<MemorySensor, SensorError>)
    ensures r.Ok? && fresh(r.value) && r.value.warningThreshold == 70.0 && r.value.criticalThreshold == 90.0
    ensures r.Ok? ==> !r.value.includeSwap && !r.value.showAvailable
    ensures r.Ok? ==> r.value.name == "memory" && r.value.config == DefaultConfig() && r.value.usageHistory == []
  {
    r := NewMemorySensor(70, 90, false, false);
  }

  /** `with_swap`. */
  method WithSwap(warning: nat, critical: nat) returns (r: Result<MemorySensor, SensorError>)
    requires warning <= U8_MAX && critical <= U8_MAX
    ensures critical <= warning ==> r == Err(Config(ThresholdMessage(warning, critical), None))
    ensures (r.Ok? <==> warning < critical) && (r.Ok? ==> fresh(r.value) && r.value.includeSwap && !r.value.showAvailable)
    ensures r.Ok? ==> (r.value.name == "memory" && r.value.config == DefaultConfig() &&
      r.value.warningThreshold == warning as real && r.value.criticalThreshold == critical as real &&
      r.value.usageHistory == [])
  {
    r := NewMemorySensor(warning, critical, true, false);
  }

  /** `show_available`. */
  method ShowAvailable(warning: nat, critical: nat) returns (r: Result<MemorySensor, SensorError>)
    requires warning <= U8_MAX && critical <= U8_MAX
    ensures critical <= warning ==> r == Err(Config(ThresholdMessage(warning, critical), None))
    ensures (r.Ok? <==> warning < critical) && (r.Ok? ==> fresh(r.value) && !r.value.includeSwap && r.value.showAvailable)
    ensures r.Ok? ==> (r.value.name == "memory" && r.value.config == DefaultConfig() &&
      r.value.warningThreshold == warning as real && r.value.criticalThreshold == critical as real &&
      r.value.usageHistory == [])
  {
    r := NewMemorySensor(warning, critical, false, true);
  }

  /** `check_availability`: a missing file is permanently unavailable; a
      permission failure reading it names the file; a parse failure passes
      through. */
  function MemoryAvailability(present: bool, content: TextRead): (r: Result<(), SensorError>)
    ensures !present ==> r == Err(Unavailable(PROC_MEMINFO_PATH + " does not exist (not a Linux system?)", false))
    ensures present && content == Err(PermissionDeniedKind) ==> r == Err(PermissionDenied(PROC_MEMINFO_PATH))
    ensures present ==> (r.Ok? <==> FromProcMeminfo(content).Ok?)
    ensures present && content.Ok? && r.Err? ==> r.error == MeminfoSpec(content.value).error
  {
    if !present then Err(UnavailableError(PROC_MEMINFO_PATH + " does not exist (not a Linux system?)"))
    else
      match FromProcMeminfo(content)
      case Ok(_) => Ok(())
      case Err(e) =>
        MemFoldErrorsAreParse(ZERO_INFO, if content.Ok? then Lines(content.value) else []);
        if e == Io(PermissionDeniedKind) then Err(PermissionDenied(PROC_MEMINFO_PATH)) else Err(e)
  }
}
