/** The NVIDIA GPU sensor (`nvidia_gpu.rs`): the parser of the `nvidia-smi`
    CSV query, the memory percentage, the constructors and the three sparkline
    histories. Running `nvidia-smi` is an input: the model receives what the
    process reported. */
module NvidiaGpu {
  import opened Wrappers
  import opened Text
  import opened CoreLib
  import opened Readings

  /** `NvidiaGpuMetrics`: utilisation in percent, temperature in °C, memory in
      MB, power in W, clocks in MHz. */
  datatype Metrics = Metrics(
    utilizationGpu: real,
    temperature: real,
    memoryUsed: nat,
    memoryTotal: nat,
    powerDraw: Option<real>,
    name: string,
    driverVersion: string,
    gpuClock: Option<nat>,
    memoryClock: Option<nat>)

  /** `memory_usage_percent`: used over total in percent, 0 without memory. */
  function MemoryUsagePercent(m: Metrics): (r: real)
    ensures m.memoryTotal == 0 ==> r == 0.0
    ensures m.memoryTotal > 0 ==> r * (m.memoryTotal as real) == (m.memoryUsed as real) * 100.0
    ensures r >= 0.0 && (m.memoryUsed <= m.memoryTotal ==> r <= 100.0)
  {
    Percent(m.memoryUsed, m.memoryTotal)
  }

  // ---------------------------------------------------------------------
  // Parsing the CSV output

  const FIELD_SEPARATOR: string := ", "
  const INVALID_FORMAT: string := "Invalid nvidia-smi output format"
  const INSUFFICIENT_PREFIX: string := "Insufficient nvidia-smi data fields: expected at least 6, got "

  /** The refusal of a line with fewer than six fields, naming the count. */
  function InsufficientFields(n: nat): string {
    INSUFFICIENT_PREFIX + NatToString(n)
  }

  /** `field.trim().split_whitespace().next()`. */
  function FirstToken(field: string): (r: Option<string>)
    ensures r.Some? ==> r.value != [] && NoSpace(r.value)
  {
    var words := SplitWhitespace(Trim(field));
    if words == [] then None else Some(words[0])
  }

  /** A required `f64` field: the trimmed field, or a parse error naming it. */
  function FloatField(field: string, message: string): Result<real, SensorError> {
    match ParseDecimal(Trim(field))
    case Some(v) => Ok(v)
    case None => Err(Parse(message))
  }

  /** A required memory field: its first token, "0" when there is none, as `u64`. */
  function MemoryField(field: string, message: string): Result<nat, SensorError> {
    match ParseU64(FirstToken(field).UnwrapOr("0"))
    case Some(v) => Ok(v)
    case None => Err(Parse(message))
  }

  /** An optional `f64` field at index `i`: absent, tokenless and unparsable
      fields all give `None`. */
  function OptionalReal(fields: seq<string>, i: nat): Option<real> {
    if |fields| > i then
      match FirstToken(fields[i])
      case Some(t) => ParseDecimal(t)
      case None => None
    else None
  }

  /** An optional `u32` field at index `i`, as `OptionalReal`. */
  function OptionalU32(fields: seq<string>, i: nat): Option<nat> {
    if |fields| > i then
      match FirstToken(fields[i])
      case Some(t) => ParseU32(t)
      case None => None
    else None
  }

  /** The four required readings of a data line: temperature, utilisation,
      memory used and memory total, in the order the source parses them. */
  function Required(fields: seq<string>): (r: Result<(real, real, nat, nat), SensorError>)
    requires |fields| >= 6
  {
    match FloatField(fields[2], "Failed to parse temperature")
    case Err(e) => Err(e)
    case Ok(temperature) =>
      match FloatField(fields[3], "Failed to parse GPU utilization")
      case Err(e) => Err(e)
      case Ok(utilization) =>
        match MemoryField(fields[4], "Failed to parse memory used")
        case Err(e) => Err(e)
        case Ok(used) =>
          match MemoryField(fields[5], "Failed to parse memory total")
          case Err(e) => Err(e)
          case Ok(total) => Ok((temperature, utilization, used, total))
  }

  /** The fields of one data line: name, driver version, temperature,
      utilisation, memory used, memory total, then optionally power draw,
      graphics clock and memory clock. */
  function ParseFields(fields: seq<string>): Result<Metrics, SensorError> {
    if |fields| < 6 then Err(Parse(InsufficientFields(|fields|)))
    else
      match Required(fields)
      case Err(e) => Err(e)
      case Ok((temperature, utilization, used, total)) =>
        Ok(Metrics(utilization, temperature, used, total, OptionalReal(fields, 6),
                   Trim(fields[0]), Trim(fields[1]), OptionalU32(fields, 7), OptionalU32(fields, 8)))
  }

  /** `parse_nvidia_smi_output` as written: it needs two lines and parses the
      second, treating the first as a header. */
  function ParseOutputAsWritten(output: string): (r: Result<Metrics, SensorError>)
    ensures |Lines(Trim(output))| < 2 ==> r == Err(Parse(INVALID_FORMAT))
  {
    var lines := Lines(Trim(output));
    if |lines| < 2 then Err(Parse(INVALID_FORMAT))
    else ParseFields(Split(lines[1], FIELD_SEPARATOR))
  }

  /** The parser the query calls for: `noheader` output has no header, so the
      first line is the data line of the queried GPU. */
  function ParseOutput(output: string): (r: Result<Metrics, SensorError>)
    ensures Lines(Trim(output)) == [] ==> r == Err(Parse(INVALID_FORMAT))
  {
    var lines := Lines(Trim(output));
    if lines == [] then Err(Parse(INVALID_FORMAT))
    else ParseFields(Split(lines[0], FIELD_SEPARATOR))
  }

  /** The required readings fail at the first field that does not parse,
      naming it. */
  lemma RequiredErrors(fields: seq<string>)
    requires |fields| >= 6
    ensures ParseDecimal(Trim(fields[2])).None? ==>
      Required(fields) == Err(Parse("Failed to parse temperature"))
    ensures ParseDecimal(Trim(fields[2])).Some? && ParseDecimal(Trim(fields[3])).None? ==>
      Required(fields) == Err(Parse("Failed to parse GPU utilization"))
    ensures (ParseDecimal(Trim(fields[2])).Some? && ParseDecimal(Trim(fields[3])).Some? &&
             ParseU64(FirstToken(fields[4]).UnwrapOr("0")).None?) ==>
      Required(fields) == Err(Parse("Failed to parse memory used"))
  {
  }

  /** The required readings succeed exactly when all four parse, and then
      they are the parsed values. */
  lemma RequiredValues(fields: seq<string>)
    requires |fields| >= 6
    ensures Required(fields).Ok? <==>
      FloatField(fields[2], "Failed to parse temperature").Ok? &&
      FloatField(fields[3], "Failed to parse GPU utilization").Ok? &&
      MemoryField(fields[4], "Failed to parse memory used").Ok? &&
      MemoryField(fields[5], "Failed to parse memory total").Ok?
    ensures Required(fields).Ok? ==>
      var (t, u, mu, mt) := Required(fields).value;
      Some(t) == ParseDecimal(Trim(fields[2])) && Some(u) == ParseDecimal(Trim(fields[3])) &&
      Some(mu) == ParseU64(FirstToken(fields[4]).UnwrapOr("0")) &&
      Some(mt) == ParseU64(FirstToken(fields[5]).UnwrapOr("0"))
  {
  }

  /** A data line needs six fields; then it fails as its required readings
      do, and otherwise carries them with the trimmed name and driver. */
  lemma ParseFieldsContract(fields: seq<string>)
    ensures |fields| < 6 ==> ParseFields(fields) == Err(Parse(InsufficientFields(|fields|)))
    ensures |fields| >= 6 ==> (ParseFields(fields).Err? <==> Required(fields).Err?)
    ensures |fields| >= 6 && Required(fields).Err? ==> ParseFields(fields).error == Required(fields).error
    ensures ParseFields(fields).Ok? ==>
      var m := ParseFields(fields).value;
      |fields| >= 6 && Required(fields) == Ok((m.temperature, m.utilizationGpu, m.memoryUsed, m.memoryTotal)) &&
      m.name == Trim(fields[0]) && m.driverVersion == Trim(fields[1])
  {
  }

  /** The optional readings exist only past the sixth field and fit their types. */
  lemma OptionalFieldsPresent(fields: seq<string>)
    ensures |fields| <= 6 ==> OptionalReal(fields, 6).None?
    ensures |fields| <= 7 ==> OptionalU32(fields, 7).None?
    ensures |fields| <= 8 ==> OptionalU32(fields, 8).None?
    ensures OptionalU32(fields, 7).Some? ==> OptionalU32(fields, 7).value <= U32_MAX
    ensures OptionalU32(fields, 8).Some? ==> OptionalU32(fields, 8).value <= U32_MAX
  {
  }

  /** The optional fields only add values: dropping them changes neither
      success nor the required values. */
  lemma OptionalFieldsNeverFail(fields: seq<string>)
    requires |fields| >= 6
    ensures ParseFields(fields).Ok? <==> ParseFields(fields[..6]).Ok?
    ensures ParseFields(fields).Ok? ==>
      ParseFields(fields[..6]).value ==
        ParseFields(fields).value.(powerDraw := None, gpuClock := None, memoryClock := None)
  {
    var short := fields[..6];
    assert short[0] == fields[0] && short[1] == fields[1];
    assert Required(short) == Required(fields) by {
      assert short[2] == fields[2] && short[3] == fields[3] && short[4] == fields[4] && short[5] == fields[5];
    }
    OptionalFieldsPresent(short);
  }

  /** The count in the refusal is the count of fields. */
  lemma InsufficientFieldsNamesCount(a: nat, b: nat)
    requires InsufficientFields(a) == InsufficientFields(b)
    ensures a == b
  {
    LabelInjective(INSUFFICIENT_PREFIX, a, b, []);
  }

  /** Only the second line counts for the parser as written: outputs that
      agree there parse alike, whatever their first lines. */
  lemma AsWrittenIgnoresFirstLine(a: string, b: string)
    requires |Lines(Trim(a))| >= 2 && |Lines(Trim(b))| >= 2
    requires Lines(Trim(a))[1] == Lines(Trim(b))[1]
    ensures ParseOutputAsWritten(a) == ParseOutputAsWritten(b)
  {
  }

  // ---------------------------------------------------------------------
  // The line nvidia-smi prints

  /** A GPU as `nvidia-smi --format=csv,noheader,nounits` reports it, with
      whole-number readings; a missing optional reading prints "[N/A]". */
  datatype SmiRow = SmiRow(
    name: string,
    driverVersion: string,
    temperature: nat,
    utilization: nat,
    memoryUsed: nat,
    memoryTotal: nat,
    powerDraw: Option<nat>,
    gpuClock: Option<nat>,
    memoryClock: Option<nat>)

  const NOT_AVAILABLE: string := "[N/A]"

  function Shown(v: Option<nat>): string {
    if v.Some? then NatToString(v.value) else NOT_AVAILABLE
  }

  function RowFields(r: SmiRow): seq<string> {
    [r.name, r.driverVersion, NatToString(r.temperature), NatToString(r.utilization),
     NatToString(r.memoryUsed), NatToString(r.memoryTotal),
     Shown(r.powerDraw), Shown(r.gpuClock), Shown(r.memoryClock)]
  }

  /** The printed line, without its newline. */
  function RowLine(r: SmiRow): string {
    Join(RowFields(r), FIELD_SEPARATOR)
  }

  /** The metrics the row stands for. */
  function RowMetrics(r: SmiRow): Metrics {
    Metrics(r.utilization as real, r.temperature as real, r.memoryUsed, r.memoryTotal,
            if r.powerDraw.Some? then Some(r.powerDraw.value as real) else None,
            r.name, r.driverVersion, r.gpuClock, r.memoryClock)
  }

  /** A field that can be joined with the separator and stay on one line. */
  predicate Clean(s: string) {
    !ContainsChar(s, ',') && !ContainsChar(s, '\n')
  }

  /** Rows `nvidia-smi` can print and the parser can tell apart: trimmed
      names without commas or line breaks, and values within their types. */
  predicate Printable(r: SmiRow) {
    r.name != [] && Trim(r.name) == r.name && Clean(r.name) &&
    r.driverVersion != [] && Trim(r.driverVersion) == r.driverVersion && Clean(r.driverVersion) &&
    r.memoryUsed <= U64_MAX && r.memoryTotal <= U64_MAX &&
    (r.gpuClock.Some? ==> r.gpuClock.value <= U32_MAX) &&
    (r.memoryClock.Some? ==> r.memoryClock.value <= U32_MAX)
  }

  /** A word has itself as its only token. */
  lemma WordToken(w: string)
    requires w != [] && NoSpace(w)
    ensures Trim(w) == w && FirstToken(w) == Some(w)
  {
    TrimOfWord(w);
    SplitWhitespaceOfWord(w);
  }

  /** A rendered number is its own token, reads back, and holds no comma or
      line break. */
  lemma NumberField(n: nat)
    ensures Trim(NatToString(n)) == NatToString(n) && FirstToken(NatToString(n)) == Some(NatToString(n))
    ensures ParseDecimal(NatToString(n)) == Some(n as real)
  {
    NatToStringIsWord(n);
    WordToken(NatToString(n));
    ParseDecimalOfNatToString(n);
  }

  lemma NumberFree(n: nat)
    ensures Clean(NatToString(n))
  {
    DigitsFree(NatToString(n), ',');
    DigitsFree(NatToString(n), '\n');
  }

  /** "[N/A]" is one token that reads as no number at all. */
  lemma NotAvailableField()
    ensures FirstToken(NOT_AVAILABLE) == Some(NOT_AVAILABLE)
    ensures ParseDecimal(NOT_AVAILABLE).None? && ParseU32(NOT_AVAILABLE).None?
  {
    var s := NOT_AVAILABLE;
    assert s[0] == '[';
    assert NoSpace(s);
    WordToken(s);
    ParseDecimalRejectsLead(s);
  }

  lemma NotAvailableFree()
    ensures Clean(NOT_AVAILABLE)
  {
    var s := NOT_AVAILABLE;
    assert forall i :: 0 <= i < |s| ==> s[i] != ',' && s[i] != '\n';
  }

  /** An optional reading prints as a number that reads back, or as "[N/A]"
      that reads as absent. */
  lemma ShownReadsBack(v: Option<nat>)
    ensures FirstToken(Shown(v)) == Some(Shown(v))
    ensures ParseDecimal(Shown(v)) == if v.Some? then Some(v.value as real) else None
    ensures v.Some? && v.value <= U32_MAX ==> ParseU32(Shown(v)) == v
    ensures v.None? ==> ParseU32(Shown(v)).None?
  {
    if v.Some? {
      NumberField(v.value);
      ParseUnsignedOfNatToString(v.value, U32_MAX);
    } else {
      NotAvailableField();
    }
  }

  lemma ShownFree(v: Option<nat>)
    ensures Clean(Shown(v))
  {
    if v.Some? { NumberFree(v.value); } else { NotAvailableFree(); }
  }

  /** A rendered number in range is a good memory field. */
  lemma MemoryFieldOf(n: nat, message: string)
    requires n <= U64_MAX
    ensures MemoryField(NatToString(n), message) == Ok(n)
  {
    NumberField(n);
    ParseUnsignedOfNatToString(n, U64_MAX);
  }

  /** A rendered number is a good float field. */
  lemma FloatFieldOf(n: nat, message: string)
    ensures FloatField(NatToString(n), message) == Ok(n as real)
  {
    NumberField(n);
  }

  /** An optional field that is one token reads as that token parses. */
  lemma OptionalOfToken(f: seq<string>, i: nat)
    requires i < |f| && FirstToken(f[i]) == Some(f[i])
    ensures OptionalReal(f, i) == ParseDecimal(f[i]) && OptionalU32(f, i) == ParseU32(f[i])
  {
  }

  /** The optional fields of a printable row read as its optional values. */
  lemma RowOptionals(r: SmiRow)
    requires r.gpuClock.Some? ==> r.gpuClock.value <= U32_MAX
    requires r.memoryClock.Some? ==> r.memoryClock.value <= U32_MAX
    ensures OptionalReal(RowFields(r), 6) == RowMetrics(r).powerDraw
    ensures OptionalU32(RowFields(r), 7) == r.gpuClock
    ensures OptionalU32(RowFields(r), 8) == r.memoryClock
  {
    OptionalsOfShown(RowFields(r), r.powerDraw, r.gpuClock, r.memoryClock);
  }

  /** Optional fields printed by `Shown` read back as the values shown. */
  lemma OptionalsOfShown(f: seq<string>, p: Option<nat>, g: Option<nat>, c: Option<nat>)
    requires |f| >= 9 && f[6] == Shown(p) && f[7] == Shown(g) && f[8] == Shown(c)
    requires g.Some? ==> g.value <= U32_MAX
    requires c.Some? ==> c.value <= U32_MAX
    ensures OptionalReal(f, 6) == if p.Some? then Some(p.value as real) else None
    ensures OptionalU32(f, 7) == g
    ensures OptionalU32(f, 8) == c
  {
    ShownReadsBack(p);
    ShownReadsBack(g);
    ShownReadsBack(c);
    OptionalOfToken(f, 6);
    OptionalOfToken(f, 7);
    OptionalOfToken(f, 8);
  }

  /** Required fields that each read back give their four readings. */
  lemma RequiredOf(f: seq<string>, t: real, u: real, used: nat, total: nat)
    requires |f| >= 6
    requires FloatField(f[2], "Failed to parse temperature") == Ok(t)
    requires FloatField(f[3], "Failed to parse GPU utilization") == Ok(u)
    requires MemoryField(f[4], "Failed to parse memory used") == Ok(used)
    requires MemoryField(f[5], "Failed to parse memory total") == Ok(total)
    ensures Required(f) == Ok((t, u, used, total))
  {
  }

  /** The required fields of a printable row read as its four readings. */
  lemma RowRequired(r: SmiRow)
    requires r.memoryUsed <= U64_MAX && r.memoryTotal <= U64_MAX
    ensures Required(RowFields(r)) == Ok((r.temperature as real, r.utilization as real, r.memoryUsed, r.memoryTotal))
  {
    RequiredOfNumbers(RowFields(r), r.temperature, r.utilization, r.memoryUsed, r.memoryTotal);
  }

  /** Required fields printed as decimal numbers read back as those numbers. */
  lemma RequiredOfNumbers(f: seq<string>, t: nat, u: nat, used: nat, total: nat)
    requires |f| >= 6 && f[2] == NatToString(t) && f[3] == NatToString(u)
    requires f[4] == NatToString(used) && f[5] == NatToString(total)
    requires used <= U64_MAX && total <= U64_MAX
    ensures Required(f) == Ok((t as real, u as real, used, total))
  {
    FloatFieldOf(t, "Failed to parse temperature");
    FloatFieldOf(u, "Failed to parse GPU utilization");
    MemoryFieldOf(used, "Failed to parse memory used");
    MemoryFieldOf(total, "Failed to parse memory total");
    RequiredOf(f, t as real, u as real, used, total);
  }

  /** The fields of a printable row parse to the row's metrics. */
  lemma RowFieldsParse(r: SmiRow)
    requires Printable(r)
    ensures ParseFields(RowFields(r)) == Ok(RowMetrics(r))
  {
    var f := RowFields(r);
    assert f[0] == r.name && f[1] == r.driverVersion;
    RowRequired(r);
    RowOptionals(r);
    ParseFieldsOfRequired(f);
  }

  /** Fields whose required readings parse give those readings, the trimmed
      name and driver version, and the optional readings. */
  lemma ParseFieldsOfRequired(f: seq<string>)
    requires |f| >= 6 && Required(f).Ok?
    ensures var q := Required(f).value;
      ParseFields(f) == Ok(Metrics(q.1, q.0, q.2, q.3, OptionalReal(f, 6), Trim(f[0]), Trim(f[1]),
                                   OptionalU32(f, 7), OptionalU32(f, 8)))
  {
  }

  /** No field of a printable row holds a comma or a line break. */
  lemma RowFieldsFree(r: SmiRow)
    requires Printable(r)
    ensures forall i :: 0 <= i < |RowFields(r)| ==> Clean(RowFields(r)[i])
  {
    NumberFree(r.temperature);
    NumberFree(r.utilization);
    NumberFree(r.memoryUsed);
    NumberFree(r.memoryTotal);
    ShownFree(r.powerDraw);
    ShownFree(r.gpuClock);
    ShownFree(r.memoryClock);
    NineClean(r.name, r.driverVersion, NatToString(r.temperature), NatToString(r.utilization),
              NatToString(r.memoryUsed), NatToString(r.memoryTotal),
              Shown(r.powerDraw), Shown(r.gpuClock), Shown(r.memoryClock));
  }

  /** Nine fields that are each clean are all clean. */
  lemma NineClean(a: string, b: string, c: string, d: string, e: string, f: string, g: string, h: string, k: string)
    requires Clean(a) && Clean(b) && Clean(c) && Clean(d) && Clean(e)
    requires Clean(f) && Clean(g) && Clean(h) && Clean(k)
    ensures var s := [a, b, c, d, e, f, g, h, k]; forall i :: 0 <= i < |s| ==> Clean(s[i])
  {
  }

  /** A shown reading is a non-empty word. */
  lemma ShownWord(v: Option<nat>)
    ensures Shown(v) != [] && NoSpace(Shown(v))
  {
    if v.Some? {
      NatToStringIsWord(v.value);
    } else {
      assert NOT_AVAILABLE[4] == ']';
      assert NoSpace(NOT_AVAILABLE);
    }
  }

  /** Clean fields joined with the separator make one line that splits back
      into them, provided the line begins and ends with a printing character. */
  lemma JoinedFieldsShape(f: seq<string>)
    requires |f| > 0 && f[0] != [] && !IsSpace(f[0][0])
    requires f[|f| - 1] != [] && NoSpace(f[|f| - 1])
    requires forall i :: 0 <= i < |f| ==> Clean(f[i])
    ensures Lines(Trim(Join(f, FIELD_SEPARATOR) + "\n")) == [Join(f, FIELD_SEPARATOR)]
    ensures Split(Join(f, FIELD_SEPARATOR), FIELD_SEPARATOR) == f
  {
    JoinedFieldsSplit(f);
    JoinedFieldsLine(f);
  }

  lemma JoinedFieldsSplit(f: seq<string>)
    requires |f| > 0
    requires forall i :: 0 <= i < |f| ==> Clean(f[i])
    ensures Split(Join(f, FIELD_SEPARATOR), FIELD_SEPARATOR) == f
  {
    assert FIELD_SEPARATOR[0] == ',';
    SplitJoin(f, FIELD_SEPARATOR);
  }

  /** The separator holds no line break. */
  lemma SeparatorOneLine()
    ensures !ContainsChar(FIELD_SEPARATOR, '\n')
  {
    assert FIELD_SEPARATOR[0] == ',' && FIELD_SEPARATOR[1] == ' ';
  }

  lemma JoinedFieldsLine(f: seq<string>)
    requires |f| > 0 && f[0] != [] && !IsSpace(f[0][0])
    requires f[|f| - 1] != [] && NoSpace(f[|f| - 1])
    requires forall i :: 0 <= i < |f| ==> Clean(f[i])
    ensures Lines(Trim(Join(f, FIELD_SEPARATOR) + "\n")) == [Join(f, FIELD_SEPARATOR)]
  {
    var line := Join(f, FIELD_SEPARATOR);
    JoinedFieldsNoBreak(f);
    JoinedFieldsEnds(f);
    SingleLine(line);
  }

  /** Clean fields joined with the separator hold no line break. */
  lemma JoinedFieldsNoBreak(f: seq<string>)
    requires forall i :: 0 <= i < |f| ==> Clean(f[i])
    ensures !ContainsChar(Join(f, FIELD_SEPARATOR), '\n')
  {
    forall i | 0 <= i < |f| ensures !ContainsChar(f[i], '\n') {
      assert Clean(f[i]);
    }
    SeparatorOneLine();
    JoinLacks(f, FIELD_SEPARATOR, '\n');
  }

  /** The joined line starts and ends with a printing character. */
  lemma JoinedFieldsEnds(f: seq<string>)
    requires |f| > 0 && f[0] != [] && !IsSpace(f[0][0])
    requires f[|f| - 1] != [] && NoSpace(f[|f| - 1])
    ensures var line := Join(f, FIELD_SEPARATOR);
      line != [] && !IsSpace(line[0]) && !IsSpace(line[|line| - 1])
  {
    var line := Join(f, FIELD_SEPARATOR);
    JoinEnds(f, FIELD_SEPARATOR);
    var last := f[|f| - 1];
    assert line[|line| - 1] == last[|last| - 1];
    assert !IsSpace(last[|last| - 1]);
  }

  /** The printed line of a printable row is a single trimmed line that
      splits back into the row's fields. */
  lemma RowLineShape(r: SmiRow)
    requires Printable(r)
    ensures Lines(Trim(RowLine(r) + "\n")) == [RowLine(r)]
    ensures Split(RowLine(r), FIELD_SEPARATOR) == RowFields(r)
  {
    var f := RowFields(r);
    RowFieldsFree(r);
    ShownWord(r.memoryClock);
    assert f[0] == r.name && f[8] == Shown(r.memoryClock);
    JoinedFieldsShape(f);
  }

  /** The first line of `noheader` output is the queried GPU's own data line,
      and the parser reads it back as the row's metrics. */
  lemma RowLineParses(r: SmiRow)
    requires Printable(r)
    ensures ParseOutput(RowLine(r) + "\n") == Ok(RowMetrics(r))
  {
    RowLineShape(r);
    RowFieldsParse(r);
  }

  /** The parser as written rejects the very output its own query asks for:
      one GPU prints one line. */
  lemma AsWrittenRejectsSingleRow(r: SmiRow)
    requires Printable(r)
    ensures ParseOutputAsWritten(RowLine(r) + "\n") == Err(Parse(INVALID_FORMAT))
  {
    RowLineShape(r);
  }

  // ---------------------------------------------------------------------
  // Running nvidia-smi

  const QUERY_FIELDS: string := "--query-gpu=name,driver_version,temperature.gpu,utilization.gpu,memory.used,memory.total,power.draw,clocks.current.graphics,clocks.current.memory"
  const FORMAT_ARGUMENT: string := "--format=csv,noheader,nounits"
  const ID_PREFIX: string := "--id="
  const NOT_FOUND_MESSAGE: string := "nvidia-smi command not found. Please install NVIDIA drivers."
  const FAILED_PREFIX: string := "nvidia-smi failed: "
  const UNKNOWN_ERROR: string := "Unknown error"
  const INVALID_UTF8: string := "Invalid UTF-8 in nvidia-smi output"
  const NOT_WORKING: string := "nvidia-smi is not working properly"

  /** The arguments of the metrics query: the nine fields, CSV without header
      or units, and the GPU's index when the sensor watches one GPU. */
  function QueryArguments(gpuId: Option<nat>): (r: seq<string>)
    ensures |r| == if gpuId.Some? then 3 else 2
    ensures r[0] == QUERY_FIELDS && r[1] == FORMAT_ARGUMENT
    ensures gpuId.Some? ==> r[2] == ID_PREFIX + NatToString(gpuId.value)
  {
    [QUERY_FIELDS, FORMAT_ARGUMENT] + if gpuId.Some? then [ID_PREFIX + NatToString(gpuId.value)] else []
  }

  /** Different GPUs are queried with different arguments. */
  lemma QueryArgumentsNameGpu(a: Option<nat>, b: Option<nat>)
    requires QueryArguments(a) == QueryArguments(b)
    ensures a == b
  {
    if a.Some? && b.Some? {
      assert QueryArguments(a)[2] == QueryArguments(b)[2];
      LabelInjective(ID_PREFIX, a.value, b.value, []);
      assert ID_PREFIX + NatToString(a.value) + [] == ID_PREFIX + NatToString(a.value);
      assert ID_PREFIX + NatToString(b.value) + [] == ID_PREFIX + NatToString(b.value);
    }
  }

  /** What running `nvidia-smi` gave: the spawn failed with an I/O error, or
      the process exited, with its standard output and error as text (`None`
      when the bytes are not UTF-8). */
  datatype SmiRun =
    | SpawnFailed(kind: IoErrorKind)
    | Exited(success: bool, stdout: Option<string>, stderr: Option<string>)

  /** Running `nvidia-smi` with the given arguments. */
  type Runner = seq<string> -> SmiRun

  /** The error a failed spawn becomes: a missing program means the drivers
      are not installed. */
  function SpawnError(kind: IoErrorKind): (e: SensorError)
    ensures kind == NotFound ==> e == Unavailable(NOT_FOUND_MESSAGE, false)
    ensures kind != NotFound ==> e == Io(kind)
  {
    if kind == NotFound then UnavailableError(NOT_FOUND_MESSAGE) else Io(kind)
  }

  /** `query_gpu_metrics` on the outcome of the run. */
  function QueryResult(run: SmiRun): (r: Result<Metrics, SensorError>)
    ensures run.SpawnFailed? ==> r == Err(SpawnError(run.kind))
    ensures run.Exited? && !run.success ==>
      r == Err(Unavailable(FAILED_PREFIX + run.stderr.UnwrapOr(UNKNOWN_ERROR), false))
    ensures run.Exited? && run.success && run.stdout.None? ==> r == Err(Parse(INVALID_UTF8))
    ensures r.Ok? <==> run.Exited? && run.success && run.stdout.Some? && ParseOutput(run.stdout.value).Ok?
    ensures r.Ok? ==> r == ParseOutput(run.stdout.value)
  {
    match run
    case SpawnFailed(k) => Err(SpawnError(k))
    case Exited(success, stdout, stderr) =>
      if !success then Err(UnavailableError(FAILED_PREFIX + stderr.UnwrapOr(UNKNOWN_ERROR)))
      else if stdout.None? then Err(Parse(INVALID_UTF8))
      else ParseOutput(stdout.value)
  }

  /** `query_gpu_metrics` exactly as written: the same handling of the run,
      with its output read by the parser that skips a header line. Every
      outcome other than printed text is the same as `QueryResult`'s. */
  function QueryResultAsWritten(run: SmiRun): (r: Result<Metrics, SensorError>)
    ensures !(run.Exited? && run.success && run.stdout.Some?) ==> r == QueryResult(run)
    ensures run.Exited? && run.success && run.stdout.Some? ==> r == ParseOutputAsWritten(run.stdout.value)
  {
    match run
    case SpawnFailed(k) => Err(SpawnError(k))
    case Exited(success, stdout, stderr) =>
      if !success then Err(UnavailableError(FAILED_PREFIX + stderr.UnwrapOr(UNKNOWN_ERROR)))
      else if stdout.None? then Err(Parse(INVALID_UTF8))
      else ParseOutputAsWritten(stdout.value)
  }

  /** As written, the output of a working one-GPU query is a parse error;
      the corrected query reads the row. */
  lemma AsWrittenQueryRefusesSingleRow(r: SmiRow, stderr: Option<string>)
    requires Printable(r)
    ensures QueryResultAsWritten(Exited(true, Some(RowLine(r) + "\n"), stderr)) == Err(Parse(INVALID_FORMAT))
    ensures QueryResult(Exited(true, Some(RowLine(r) + "\n"), stderr)) == Ok(RowMetrics(r))
  {
    AsWrittenRejectsSingleRow(r);
    RowLineParses(r);
  }

  /** A successful run that printed a row yields that row's metrics. */
  lemma QueryOfRow(r: SmiRow, stderr: Option<string>)
    requires Printable(r)
    ensures QueryResult(Exited(true, Some(RowLine(r) + "\n"), stderr)) == Ok(RowMetrics(r))
  {
    RowLineParses(r);
  }

  /** `check_availability`: `nvidia-smi --help` must run and succeed, and then
      the metrics query must succeed. */
  function AvailabilitySpec(help: SmiRun, query: SmiRun): (r: Result<(), SensorError>)
    ensures help.SpawnFailed? ==> r == Err(SpawnError(help.kind))
    ensures help.Exited? && !help.success ==> r == Err(Unavailable(NOT_WORKING, false))
    ensures help.Exited? && help.success && QueryResult(query).Err? ==> r == Err(QueryResult(query).error)
  {
    match help
    case SpawnFailed(k) => Err(SpawnError(k))
    case Exited(success, _, _) =>
      if !success then Err(UnavailableError(NOT_WORKING))
      else
        match QueryResult(query)
        case Err(e) => Err(e)
        case Ok(_) => Ok(())
  }

  /** The sensor is available exactly when the help run succeeds and the
      query parses. */
  lemma AvailableIffQueryParses(help: SmiRun, query: SmiRun)
    ensures AvailabilitySpec(help, query).Ok? <==>
      help.Exited? && help.success && QueryResult(query).Ok?
  {
  }

  /** A working driver that prints a row makes the sensor available. */
  lemma AvailableOfRow(help: Option<string>, r: SmiRow, stderr: Option<string>)
    requires Printable(r)
    ensures AvailabilitySpec(Exited(true, help, None), Exited(true, Some(RowLine(r) + "\n"), stderr)) == Ok(())
  {
    QueryOfRow(r, stderr);
  }

  // ---------------------------------------------------------------------
  // The sensor

  /** What `read` shows: the metrics, the rounded utilisation as the bar
      percentage, and the class the utilisation earns. */
  datatype NvidiaReading = NvidiaReading(metrics: Metrics, percentage: nat, cssClass: string)

  const DEFAULT_NAME: string := "nvidia-gpu"

  class NvidiaGpuSensor {
    var name: string
    var config: SensorConfig
    const warningThreshold: real
    const criticalThreshold: real
    var gpuId: Option<nat>
    var utilizationHistory: seq<real>
    var temperatureHistory: seq<real>
    var memoryUsageHistory: seq<real>

    constructor (warning: nat, critical: nat)
      ensures name == DEFAULT_NAME && config == DefaultConfig() && gpuId.None?
      ensures warningThreshold == warning as real && criticalThreshold == critical as real
      ensures utilizationHistory == [] && temperatureHistory == [] && memoryUsageHistory == []
    {
      name := DEFAULT_NAME;
      config := DefaultConfig();
      warningThreshold := warning as real;
      criticalThreshold := critical as real;
      gpuId := None;
      utilizationHistory := [];
      temperatureHistory := [];
      memoryUsageHistory := [];
    }

    /** `update_history`: each history takes its new sample and drops its
        oldest once longer than the sparkline length. */
    method UpdateHistory(m: Metrics)
      modifies this`utilizationHistory, this`temperatureHistory, this`memoryUsageHistory
      ensures utilizationHistory == PushHistory(old(utilizationHistory), m.utilizationGpu, config.sparklineLength)
      ensures temperatureHistory == PushHistory(old(temperatureHistory), m.temperature, config.sparklineLength)
      ensures memoryUsageHistory == PushHistory(old(memoryUsageHistory), MemoryUsagePercent(m), config.sparklineLength)
    {
      var limit := config.sparklineLength;
      utilizationHistory := utilizationHistory + [m.utilizationGpu];
      if |utilizationHistory| > limit {
        utilizationHistory := utilizationHistory[1..];
      }
      temperatureHistory := temperatureHistory + [m.temperature];
      if |temperatureHistory| > limit {
        temperatureHistory := temperatureHistory[1..];
      }
      memoryUsageHistory := memoryUsageHistory + [MemoryUsagePercent(m)];
      if |memoryUsageHistory| > limit {
        memoryUsageHistory := memoryUsageHistory[1..];
      }
    }

    /** `read`: query this sensor's GPU, record the samples, and show the
        utilisation against the thresholds; a failed query changes nothing. */
    method Read(exec: Runner) returns (r: Result<NvidiaReading, SensorError>)
      modifies this`utilizationHistory, this`temperatureHistory, this`memoryUsageHistory
      ensures var q := QueryResult(exec(QueryArguments(gpuId)));
        (r.Err? <==> q.Err?) &&
        (r.Err? ==> r.error == q.error && utilizationHistory == old(utilizationHistory) &&
                    temperatureHistory == old(temperatureHistory) && memoryUsageHistory == old(memoryUsageHistory)) &&
        (r.Ok? ==> var m := q.value;
          r.value == NvidiaReading(m, RoundClamp(m.utilizationGpu),
                                   ClassForThresholds(config.theme, m.utilizationGpu, warningThreshold, criticalThreshold)) &&
          utilizationHistory == PushHistory(old(utilizationHistory), m.utilizationGpu, config.sparklineLength) &&
          temperatureHistory == PushHistory(old(temperatureHistory), m.temperature, config.sparklineLength) &&
          memoryUsageHistory == PushHistory(old(memoryUsageHistory), MemoryUsagePercent(m), config.sparklineLength))
    {
      var q := QueryResult(exec(QueryArguments(gpuId)));
      if q.Err? {
        return Err(q.error);
      }
      var m := q.value;
      UpdateHistory(m);
      r := Ok(NvidiaReading(m, RoundClamp(m.utilizationGpu),
                            ClassForThresholds(config.theme, m.utilizationGpu, warningThreshold, criticalThreshold)));
    }

    /** `configure`: any configuration is accepted. */
    method Configure(c: SensorConfig) returns (r: Result<(), SensorError>)
      modifies this`config
      ensures r == Ok(()) && config == c
    {
      config := c;
      r := Ok(());
    }
  }

  /** `NvidiaGpuSensor::new`: critical must be strictly above warning. */
  method NewNvidiaGpuSensor(warning: nat, critical: nat) returns (r: Result<NvidiaGpuSensor, SensorError>)
    requires warning <= U8_MAX && critical <= U8_MAX
    ensures critical <= warning ==> r == Err(Config(ThresholdMessage(warning, critical), None))
    ensures warning < critical ==> r.Ok?
    ensures r.Ok? ==> (fresh(r.value) && r.value.name == DEFAULT_NAME && r.value.gpuId.None? &&
      r.value.warningThreshold == warning as real && r.value.criticalThreshold == critical as real &&
      r.value.config == DefaultConfig() && r.value.utilizationHistory == [] &&
      r.value.temperatureHistory == [] && r.value.memoryUsageHistory == [])
  {
    if critical <= warning {
      return Err(Config(ThresholdMessage(warning, critical), None));
    }
    var sensor := new NvidiaGpuSensor(warning, critical);
    r := Ok(sensor);
  }

  /** `new_with_gpu_id`: as `new`, then watch one GPU under a name that
      carries its index. */
  method NewWithGpuId(warning: nat, critical: nat, id: nat) returns (r: Result<NvidiaGpuSensor, SensorError>)
    requires warning <= U8_MAX && critical <= U8_MAX && id <= U32_MAX
    ensures critical <= warning ==> r == Err(Config(ThresholdMessage(warning, critical), None))
    ensures warning < critical ==> r.Ok?
    ensures r.Ok? ==> (fresh(r.value) && r.value.name == DEFAULT_NAME + "-" + NatToString(id) &&
      r.value.gpuId == Some(id) && r.value.config == DefaultConfig() &&
      r.value.warningThreshold == warning as real && r.value.criticalThreshold == critical as real &&
      r.value.utilizationHistory == [] && r.value.temperatureHistory == [] && r.value.memoryUsageHistory == [])
  {
    r := NewNvidiaGpuSensor(warning, critical);
    if r.Ok? {
      var sensor := r.value;
      sensor.gpuId := Some(id);
      sensor.name := DEFAULT_NAME + "-" + NatToString(id);
    }
  }

  /** `with_defaults`: warning at 80 %, critical at 95 %. */
  method WithDefaults() returns (r: Result<NvidiaGpuSensor, SensorError>)
    ensures r.Ok? && fresh(r.value) && r.value.warningThreshold == 80.0 && r.value.criticalThreshold == 95.0
    ensures r.value.gpuId.None? && r.value.name == DEFAULT_NAME && r.value.config == DefaultConfig()
    ensures r.value.utilizationHistory == [] && r.value.temperatureHistory == [] && r.value.memoryUsageHistory == []
  {
    r := NewNvidiaGpuSensor(80, 95);
  }
}
