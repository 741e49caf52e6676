/** The battery sensor: the power-supply attributes it reads, the time and
    health estimates, the icon, indicator and class rules, and `read`.
    Attribute files are read through `fs`, a map from a full path to what
    reading it gives. */
module Battery {
  import opened Wrappers
  import opened Text
  import opened CoreLib

  const POWER_SUPPLY_DIR: string := "/sys/class/power_supply"

  /** `BatteryInfo`: the attributes of one power supply, in the kernel's
      micro-units (µWh, µW, µAh, µA, µV). */
  datatype BatteryInfo = BatteryInfo(
    capacity: nat,
    status: string,
    technology: Option<string>,
    cycleCount: Option<nat>,
    energyNow: Option<nat>,
    energyFull: Option<nat>,
    energyFullDesign: Option<nat>,
    powerNow: Option<nat>,
    voltageNow: Option<nat>,
    chargeNow: Option<nat>,
    chargeFull: Option<nat>,
    chargeFullDesign: Option<nat>,
    currentNow: Option<int>,
    manufacturer: Option<string>,
    modelName: Option<string>)

  // ---------------------------------------------------------------------
  // Time remaining

  /** The energy and a positive power draw are known. */
  predicate EnergyRate(i: BatteryInfo) {
    i.energyNow.Some? && i.powerNow.Some? && i.powerNow.value > 0
  }

  /** The charge and a positive current are known. */
  predicate ChargeRate(i: BatteryInfo) {
    i.chargeNow.Some? && i.currentNow.Some? && i.currentNow.value > 0
  }

  /** The energy rate is known and energy is still missing to full. */
  predicate EnergyGap(i: BatteryInfo) {
    EnergyRate(i) && i.energyFull.Some? && i.energyFull.value > i.energyNow.value
  }

  /** The charge rate is known and charge is still missing to full. */
  predicate ChargeGap(i: BatteryInfo) {
    ChargeRate(i) && i.chargeFull.Some? && i.chargeFull.value > i.chargeNow.value
  }

  /** `time_remaining_hours`: while discharging, what is stored over the draw;
      while charging, what is missing over the rate; energy figures first. */
  function TimeRemainingHours(i: BatteryInfo): (r: Option<real>)
    ensures i.status != "Charging" && i.status != "Discharging" ==> r.None?
    ensures r.Some? ==> r.value >= 0.0
    ensures i.status == "Charging" && r.Some? ==> r.value > 0.0
  {
    if i.status == "Discharging" then
      if i.energyNow.Some? && i.powerNow.Some? && i.powerNow.value > 0 then
        Some(i.energyNow.value as real / i.powerNow.value as real)
      else if i.chargeNow.Some? && i.currentNow.Some? && i.currentNow.value > 0 then
        Some(i.chargeNow.value as real / i.currentNow.value as real)
      else None
    else if i.status == "Charging" then
      if i.energyNow.Some? && i.energyFull.Some? && i.powerNow.Some?
         && i.powerNow.value > 0 && i.energyFull.value > i.energyNow.value then
        Some((i.energyFull.value - i.energyNow.value) as real / i.powerNow.value as real)
      else if i.chargeNow.Some? && i.chargeFull.Some? && i.currentNow.Some?
         && i.currentNow.value > 0 && i.chargeFull.value > i.chargeNow.value then
        Some((i.chargeFull.value - i.chargeNow.value) as real / i.currentNow.value as real)
      else None
    else None
  }

  /** When an estimate exists, and what it means: the hours times the rate
      give the energy (or charge) stored, or still missing when charging. */
  lemma TimeRemainingContract(i: BatteryInfo)
    ensures i.status == "Discharging" ==>
      (TimeRemainingHours(i).Some? <==> EnergyRate(i) || ChargeRate(i))
    ensures i.status == "Charging" ==>
      (TimeRemainingHours(i).Some? <==> EnergyGap(i) || ChargeGap(i))
    ensures i.status == "Discharging" && EnergyRate(i) ==>
      TimeRemainingHours(i).value * i.powerNow.value as real == i.energyNow.value as real
    ensures i.status == "Discharging" && !EnergyRate(i) && ChargeRate(i) ==>
      TimeRemainingHours(i).value * i.currentNow.value as real == i.chargeNow.value as real
    ensures i.status == "Charging" && EnergyGap(i) ==>
      i.energyNow.value as real + TimeRemainingHours(i).value * i.powerNow.value as real
        == i.energyFull.value as real
    ensures i.status == "Charging" && !EnergyGap(i) && ChargeGap(i) ==>
      i.chargeNow.value as real + TimeRemainingHours(i).value * i.currentNow.value as real
        == i.chargeFull.value as real
  {
  }

  /** `{:02}` on a value below 100. */
  function TwoDigits(n: nat): (r: string)
    requires n < 100
    ensures |r| == 2 && AllDigits(r) && DigitsValue(r) == n
  {
    if n < 10 then
      var r := ['0', DigitChar(n)];
      assert r[..1] == ['0'] && DigitsValue(['0']) == 0 by { assert ['0'][..0] == []; }
      assert r[..|r| - 1] == ['0'];
      r
    else
      var r := NatToString(n);
      DigitsValueOfNatToString(n);
      assert NatToString(n / 10) == [DigitChar(n / 10)];
      r
  }

  /** `h:mm` of a number of minutes. */
  function ClockText(totalMinutes: nat): string {
    NatToString(totalMinutes / 60) + ":" + TwoDigits(totalMinutes % 60)
  }

  /** The clock text reads back: the hours before the colon and the two
      minute digits after it give the total again. */
  lemma ClockTextReadsBack(totalMinutes: nat)
    ensures var r := ClockText(totalMinutes);
            var k := |NatToString(totalMinutes / 60)|;
            k + 3 == |r| && r[k] == ':' && AllDigits(r[..k]) && AllDigits(r[k + 1..]) &&
            DigitsValue(r[..k]) * 60 + DigitsValue(r[k + 1..]) == totalMinutes
  {
    var h, m := NatToString(totalMinutes / 60), TwoDigits(totalMinutes % 60);
    var r := h + ":" + m;
    assert r[..|h|] == h;
    assert r[|h| + 1..] == m;
    DigitsValueOfNatToString(totalMinutes / 60);
  }

  /** `format_time_remaining`: whole minutes (the `as u32` cast), as `h:mm`. */
  function FormatTimeRemaining(i: BatteryInfo): (r: string)
    ensures r == "Unknown" <==> TimeRemainingHours(i).None?
  {
    match TimeRemainingHours(i)
    case None => "Unknown"
    case Some(h) =>
      var r := ClockText(SaturatingCast(h * 60.0, U32_MAX));
      assert IsDigit(r[0]) && !IsDigit("Unknown"[0]);
      r
  }

  // ---------------------------------------------------------------------
  // Health

  /** `((full as f64 / design as f64) * 100.0) as u8`. */
  function HealthOf(full: nat, design: nat): (r: nat)
    requires design > 0
    ensures r <= U8_MAX
    ensures full <= design ==>
      r <= 100 && r as real * design as real <= 100.0 * full as real < (r as real + 1.0) * design as real
  {
    HealthBound(full, design);
    SaturatingCast(full as real / design as real * 100.0, U8_MAX)
  }

  lemma HealthBound(full: nat, design: nat)
    requires design > 0
    ensures var r := SaturatingCast(full as real / design as real * 100.0, U8_MAX);
            full <= design ==>
              r <= 100 && r as real * design as real <= 100.0 * full as real < (r as real + 1.0) * design as real
  {
    if full <= design {
      ScaledRatio(full as real, design as real);
      CastBounds(full, design, full as real / design as real * 100.0);
    }
  }

  /** The cast of a value `x` with `x * design == 100 * full`, for a battery
      holding at most its design capacity. */
  lemma CastBounds(full: nat, design: nat, x: real)
    requires 0 < design && full <= design
    requires x * design as real == 100.0 * full as real
    ensures var r := SaturatingCast(x, U8_MAX);
            r <= 100 && r as real * design as real <= 100.0 * full as real < (r as real + 1.0) * design as real
  {
    var f, d := full as real, design as real;
    var r := SaturatingCast(x, U8_MAX);
    RatioInRange(f, d, x);
    assert r as real <= x < r as real + 1.0;
    ScaleLower(f, d, x, r as real);
    ScaleUpper(f, d, x, r as real);
  }

  /** A share of at most the whole is at most 100 %. */
  lemma RatioInRange(f: real, d: real, x: real)
    requires d > 0.0 && 0.0 <= f <= d && x * d == 100.0 * f
    ensures 0.0 <= x <= 100.0
  {
    if x > 100.0 {
      MulStrict(100.0, x, d);
    }
    if x < 0.0 {
      MulStrict(x, 0.0, d);
    }
  }

  /** `x < r + 1` scales by the positive `d`. */
  lemma ScaleUpper(f: real, d: real, x: real, r: real)
    requires d > 0.0 && x * d == 100.0 * f && x < r + 1.0
    ensures 100.0 * f < (r + 1.0) * d
  {
    MulStrict(x, r + 1.0, d);
  }

  /** `r <= x` scales by the positive `d`. */
  lemma ScaleLower(f: real, d: real, x: real, r: real)
    requires d > 0.0 && x * d == 100.0 * f && r <= x
    ensures r * d <= 100.0 * f
  {
    MulMono(r, x, d);
  }

  lemma ScaledRatio(f: real, d: real)
    requires d > 0.0
    ensures (f / d * 100.0) * d == 100.0 * f
  {
    assert (f / d) * d == f;
  }

  lemma MulMono(a: real, b: real, d: real)
    requires d >= 0.0 && a <= b
    ensures a * d <= b * d
  {
  }

  lemma MulStrict(a: real, b: real, d: real)
    requires d > 0.0 && a < b
    ensures a * d < b * d
  {
  }

  /** The energy pair with a positive design capacity. */
  predicate EnergyDesign(i: BatteryInfo) {
    i.energyFull.Some? && i.energyFullDesign.Some? && i.energyFullDesign.value > 0
  }

  /** The charge pair with a positive design capacity. */
  predicate ChargeDesign(i: BatteryInfo) {
    i.chargeFull.Some? && i.chargeFullDesign.Some? && i.chargeFullDesign.value > 0
  }

  /** `health_percentage`: the energy pair when its design is positive, else
      the charge pair, else unknown. */
  function HealthPercentage(i: BatteryInfo): (r: Option<nat>)
    ensures r.Some? ==> r.value <= U8_MAX
  {
    if i.energyFull.Some? && i.energyFullDesign.Some? && i.energyFullDesign.value > 0 then
      Some(HealthOf(i.energyFull.value, i.energyFullDesign.value))
    else if i.chargeFull.Some? && i.chargeFullDesign.Some? && i.chargeFullDesign.value > 0 then
      Some(HealthOf(i.chargeFull.value, i.chargeFullDesign.value))
    else None
  }

  /** Health is known exactly when one pair has a positive design, the
      energy pair wins, and a worn battery reads at most 100 %. */
  lemma HealthContract(i: BatteryInfo)
    ensures HealthPercentage(i).Some? <==> EnergyDesign(i) || ChargeDesign(i)
    ensures EnergyDesign(i) ==>
      HealthPercentage(i) == Some(HealthOf(i.energyFull.value, i.energyFullDesign.value))
    ensures !EnergyDesign(i) && ChargeDesign(i) ==>
      HealthPercentage(i) == Some(HealthOf(i.chargeFull.value, i.chargeFullDesign.value))
    ensures EnergyDesign(i) && i.energyFull.value <= i.energyFullDesign.value ==>
      HealthPercentage(i).value <= 100
  {
  }

  // ---------------------------------------------------------------------
  // Indicator, icon and class

  /** The glyphs `get_battery_indicator` chooses between. */
  datatype Indicator = ChargingMark | FullMark | HighCharge | MediumCharge | LowCharge | CriticalCharge

  function IndicatorGlyph(k: Indicator): string {
    match k
    case ChargingMark => "\U{1F50B}"
    case FullMark => "\U{2705}"
    case HighCharge => "\U{1F7E2}"
    case MediumCharge => "\U{1F7E1}"
    case LowCharge => "\U{1F7E0}"
    case CriticalCharge => "\U{1F534}"
  }

  /** The percentage buckets: 80 and up, 50 and up, 20 and up, below. */
  function ChargeBucket(percentage: nat): Indicator {
    if percentage >= 80 then HighCharge
    else if percentage >= 50 then MediumCharge
    else if percentage >= 20 then LowCharge
    else CriticalCharge
  }

  /** How worrying a bucket is. */
  function Concern(k: Indicator): nat {
    match k
    case CriticalCharge => 3
    case LowCharge => 2
    case MediumCharge => 1
    case _ => 0
  }

  /** `get_battery_indicator`: the charging and full states win over the
      percentage. */
  function BatteryIndicator(percentage: nat, status: string): (k: Indicator)
    ensures status == "Charging" ==> k == ChargingMark
    ensures status == "Full" ==> k == FullMark
    ensures status != "Charging" && status != "Full" ==> k == ChargeBucket(percentage)
  {
    if status == "Charging" then ChargingMark
    else if status == "Full" then FullMark
    else ChargeBucket(percentage)
  }

  /** Each bucket holds exactly its range, and less charge is never less
      worrying. */
  lemma ChargeBucketContract(p: nat, q: nat)
    ensures ChargeBucket(p) == HighCharge <==> p >= 80
    ensures ChargeBucket(p) == MediumCharge <==> 50 <= p < 80
    ensures ChargeBucket(p) == LowCharge <==> 20 <= p < 50
    ensures ChargeBucket(p) == CriticalCharge <==> p < 20
    ensures p <= q ==> Concern(ChargeBucket(q)) <= Concern(ChargeBucket(p))
  {
  }

  /** The icons of `format_battery_output`. */
  datatype BatteryIcon = ChargingIcon | FullIcon | ThreeQuartersIcon | HalfIcon | QuarterIcon | EmptyIcon

  function IconText(icons: IconSet, k: BatteryIcon): string {
    match k
    case ChargingIcon => icons.batteryCharging
    case FullIcon => icons.batteryFull
    case ThreeQuartersIcon => icons.batteryThreeQuarters
    case HalfIcon => icons.batteryHalf
    case QuarterIcon => icons.batteryQuarter
    case EmptyIcon => icons.batteryEmpty
  }

  /** How full an icon shows the battery. */
  function Fill(k: BatteryIcon): nat {
    match k
    case FullIcon => 4
    case ThreeQuartersIcon => 3
    case HalfIcon => 2
    case QuarterIcon => 1
    case _ => 0
  }

  /** The icon choice: charging wins; otherwise the ranges 90–100, 65–89,
      35–64 and 10–34, and everything else (below 10, or above 100) empty. */
  function SelectIcon(capacity: nat, status: string): BatteryIcon {
    if status == "Charging" then ChargingIcon
    else if 90 <= capacity <= 100 then FullIcon
    else if 65 <= capacity <= 89 then ThreeQuartersIcon
    else if 35 <= capacity <= 64 then HalfIcon
    else if 10 <= capacity <= 34 then QuarterIcon
    else EmptyIcon
  }

  /** Only a charging battery shows the charging icon; up to 100 % more charge
      never shows an emptier icon; a capacity above 100 shows the empty one. */
  lemma SelectIconContract(c1: nat, c2: nat, status: string)
    ensures SelectIcon(c1, status) == ChargingIcon <==> status == "Charging"
    ensures status != "Charging" && c1 <= c2 <= 100 ==>
      Fill(SelectIcon(c1, status)) <= Fill(SelectIcon(c2, status))
    ensures status != "Charging" && c1 > 100 ==> SelectIcon(c1, status) == EmptyIcon
    ensures status != "Charging" ==> (SelectIcon(c1, status) == FullIcon <==> 90 <= c1 <= 100)
  {
  }

  /** The threshold part of `get_battery_class`: at or below critical is
      critical, then at or below warning is warning. */
  function BatteryLevel(capacity: nat, warning: nat, critical: nat): (l: Level)
    ensures l == Critical <==> capacity <= critical
    ensures l == Warning <==> critical < capacity <= warning
  {
    if capacity <= critical then Critical
    else if capacity <= warning then Warning
    else Normal
  }

  /** Less charge is never a lower level. */
  lemma BatteryLevelAntitone(c1: nat, c2: nat, warning: nat, critical: nat)
    requires c1 <= c2
    ensures Rank(BatteryLevel(c2, warning, critical)) <= Rank(BatteryLevel(c1, warning, critical))
  {
  }

  /** `get_battery_class`: charging and full are good whatever the charge. */
  function BatteryClass(theme: Theme, i: BatteryInfo, warning: nat, critical: nat): (r: string)
    ensures i.status == "Charging" || i.status == "Full" ==> r == theme.good
    ensures i.status != "Charging" && i.status != "Full" ==>
      r == ClassOf(theme, BatteryLevel(i.capacity, warning, critical))
  {
    if i.status == "Charging" || i.status == "Full" then theme.good
    else ClassOf(theme, BatteryLevel(i.capacity, warning, critical))
  }

  // ---------------------------------------------------------------------
  // Reading the attributes

  /** The attribute files of a battery directory that `read_battery_info` reads. */
  datatype Attribute =
    | Capacity | Status | Technology | CycleCount | EnergyNow | EnergyFull | EnergyFullDesign
    | PowerNow | VoltageNow | ChargeNow | ChargeFull | ChargeFullDesign | CurrentNow
    | Manufacturer | ModelName

  /** The file name under the battery directory. */
  function AttributeFile(a: Attribute): string {
    match a
    case Capacity => "capacity"
    case Status => "status"
    case Technology => "technology"
    case CycleCount => "cycle_count"
    case EnergyNow => "energy_now"
    case EnergyFull => "energy_full"
    case EnergyFullDesign => "energy_full_design"
    case PowerNow => "power_now"
    case VoltageNow => "voltage_now"
    case ChargeNow => "charge_now"
    case ChargeFull => "charge_full"
    case ChargeFullDesign => "charge_full_design"
    case CurrentNow => "current_now"
    case Manufacturer => "manufacturer"
    case ModelName => "model_name"
  }

  /** What reading `<battery directory>/<AttributeFile(a)>` gives. */
  type Files = Attribute -> TextRead

  /** `Path::join`: an absolute name replaces the directory. */
  function AttributePath(dir: string, file: string): string {
    if file != [] && file[0] == '/' then file else dir + "/" + file
  }

  /** An optional unsigned attribute: unreadable or unparsable is absent. */
  function OptionalUnsigned(fs: Files, a: Attribute, max: nat): (r: Option<nat>)
    ensures r.Some? <==> fs(a).Ok? &&
                         ParseUnsigned(Trim(fs(a).value), max).Some?
  {
    match fs(a)
    case Ok(t) => ParseUnsigned(Trim(t), max)
    case Err(_) => None
  }

  /** `current_now`, which may be negative. */
  function OptionalSigned(fs: Files, a: Attribute): Option<int> {
    match fs(a)
    case Ok(t) => ParseI64(Trim(t))
    case Err(_) => None
  }

  /** An optional text attribute, trimmed. */
  function OptionalText(fs: Files, a: Attribute): (r: Option<string>)
    ensures r.Some? <==> fs(a).Ok?
  {
    match fs(a)
    case Ok(t) => Some(Trim(t))
    case Err(_) => None
  }

  /** The required `capacity`: an I/O failure propagates, and text that is
      not a `u8` is a parse error naming the attribute. */
  function CapacityOf(fs: Files): (r: Result<nat, SensorError>)
    ensures fs(Capacity).Err? ==>
      r == Err(Io(fs(Capacity).error))
    ensures r.Ok? ==>
      r.value <= U8_MAX && ParseU8(Trim(fs(Capacity).value)) == Some(r.value)
    ensures fs(Capacity).Ok? &&
            ParseU8(Trim(fs(Capacity).value)).None? ==>
      r.Err? && r.error.Parse? && StartsWith(r.error.message, "Failed to parse capacity: ")
  {
    match fs(Capacity)
    case Err(k) => Err(Io(k))
    case Ok(t) =>
      match ParseU8(Trim(t))
      case Some(v) => Ok(v)
      case None =>
        var message := "Failed to parse capacity: " + ParseErrorText(Trim(t), U8_MAX);
        assert message[..|"Failed to parse capacity: "|] == "Failed to parse capacity: ";
        Err(Parse(message))
  }

  /** `read_battery_info`: capacity and status are required, everything else
      is optional. */
  function BatteryInfoSpec(fs: Files): Result<BatteryInfo, SensorError> {
    match CapacityOf(fs)
    case Err(e) => Err(e)
    case Ok(capacity) =>
      match fs(Status)
      case Err(k) => Err(Io(k))
      case Ok(status) => Ok(InfoFrom(fs, capacity, Trim(status)))
  }

  /** The record once capacity and status are known. */
  function InfoFrom(fs: Files, capacity: nat, status: string): (i: BatteryInfo)
    ensures i.capacity == capacity && i.status == status
  {
    BatteryInfo(
      capacity, status,
      OptionalText(fs, Technology),
      OptionalUnsigned(fs, CycleCount, U32_MAX),
      OptionalUnsigned(fs, EnergyNow, U64_MAX),
      OptionalUnsigned(fs, EnergyFull, U64_MAX),
      OptionalUnsigned(fs, EnergyFullDesign, U64_MAX),
      OptionalUnsigned(fs, PowerNow, U64_MAX),
      OptionalUnsigned(fs, VoltageNow, U64_MAX),
      OptionalUnsigned(fs, ChargeNow, U64_MAX),
      OptionalUnsigned(fs, ChargeFull, U64_MAX),
      OptionalUnsigned(fs, ChargeFullDesign, U64_MAX),
      OptionalSigned(fs, CurrentNow),
      OptionalText(fs, Manufacturer),
      OptionalText(fs, ModelName))
  }

  /** Reading fails exactly when capacity or status cannot be had; then the
      capacity is a `u8` and the status its trimmed file. */
  lemma BatteryInfoSpecContract(fs: Files)
    ensures BatteryInfoSpec(fs).Ok? <==>
      CapacityOf(fs).Ok? && fs(Status).Ok?
    ensures CapacityOf(fs).Err? ==> BatteryInfoSpec(fs) == Err(CapacityOf(fs).error)
    ensures BatteryInfoSpec(fs).Ok? ==>
      BatteryInfoSpec(fs).value.capacity <= U8_MAX &&
      BatteryInfoSpec(fs).value.status == Trim(fs(Status).value)
  {
  }

  /** A capacity attribute holding a number up to 255 and a newline reads back
      as that number. */
  lemma CapacityReadsBack(fs: Files, n: nat)
    requires n <= U8_MAX
    requires fs(Capacity) == Ok(NatToString(n) + "\n")
    ensures CapacityOf(fs) == Ok(n)
  {
    var d := NatToString(n);
    NatToStringIsWord(n);
    TrimOfWord(d);
    ParseUnsignedOfNatToString(n, U8_MAX);
    assert Trim(fs(Capacity).value) == d;
    assert ParseU8(d) == Some(n);
  }

  // ---------------------------------------------------------------------
  // The sensor

  /** What `read` reports: the bar text, the class, the percentage, the
      time line of the tooltip (label and value) and the health. */
  datatype BatteryReading = BatteryReading(
    text: string,
    cssClass: string,
    percentage: nat,
    timeLine: Option<(string, string)>,
    health: Option<nat>)

  /** `format!("{:3.0}%", capacity)`: integers ignore the precision, so the
      digits are right-aligned in three columns. */
  function PercentText(capacity: nat): string {
    PadLeft(NatToString(capacity), 3, ' ') + "%"
  }

  /** The time line: only charging and discharging batteries have one. */
  function TimeLine(i: BatteryInfo): (r: Option<(string, string)>)
    ensures r.Some? <==> i.status == "Charging" || i.status == "Discharging"
  {
    if i.status == "Charging" then Some(("Time until full", FormatTimeRemaining(i)))
    else if i.status == "Discharging" then Some(("Time remaining", FormatTimeRemaining(i)))
    else None
  }

  /** `format_battery_output` (without the tooltip text) and `get_battery_class`. */
  function ReadingOf(config: SensorConfig, i: BatteryInfo, warning: nat, critical: nat): (r: BatteryReading)
    ensures r.percentage == i.capacity
    ensures r.cssClass == BatteryClass(config.theme, i, warning, critical)
    ensures r.health == HealthPercentage(i)
  {
    BatteryReading(
      WithIconAndColors(PercentText(i.capacity), IconText(config.icons, SelectIcon(i.capacity, i.status)), config),
      BatteryClass(config.theme, i, warning, critical),
      i.capacity,
      TimeLine(i),
      HealthPercentage(i))
  }

  /** What `read` returns for the attributes `fs` shows. */
  function ReadSpec(config: SensorConfig, fs: Files, warning: nat, critical: nat)
    : Result<BatteryReading, SensorError>
  {
    match BatteryInfoSpec(fs)
    case Err(e) => Err(e)
    case Ok(info) => Ok(ReadingOf(config, info, warning, critical))
  }

  class BatterySensor {
    const name: string
    var config: SensorConfig
    const batteryPath: string
    const warningThreshold: nat
    const criticalThreshold: nat
    var previousCapacity: Option<nat>
    /** The `Instant` of the last reading, as a timestamp. */
    var previousTime: Option<nat>

    constructor (name: string, batteryPath: string, warning: nat, critical: nat)
      ensures this.name == name && this.batteryPath == batteryPath
      ensures warningThreshold == warning && criticalThreshold == critical
      ensures config == DefaultConfig()
      ensures previousCapacity.None? && previousTime.None?
    {
      this.name := name;
      this.batteryPath := batteryPath;
      warningThreshold := warning;
      criticalThreshold := critical;
      config := DefaultConfig();
      previousCapacity := None;
      previousTime := None;
    }

    /** `read_battery_info`: the record starts at capacity 0 and status
        "Unknown" and is filled attribute by attribute. */
    method ReadBatteryInfo(fs: Files) returns (r: Result<BatteryInfo, SensorError>)
      ensures r == BatteryInfoSpec(fs)
    {
      var info := BatteryInfo(0, "Unknown", None, None, None, None, None, None, None,
                              None, None, None, None, None, None);
      var capacity := CapacityOf(fs);
      if capacity.Err? {
        return Err(capacity.error);
      }
      info := info.(capacity := capacity.value);
      var status := fs(Status);
      if status.Err? {
        return Err(Io(status.error));
      }
      info := info.(status := Trim(status.value));
      info := info.(technology := OptionalText(fs, Technology));
      info := info.(cycleCount := OptionalUnsigned(fs, CycleCount, U32_MAX));
      info := info.(energyNow := OptionalUnsigned(fs, EnergyNow, U64_MAX));
      info := info.(energyFull := OptionalUnsigned(fs, EnergyFull, U64_MAX));
      info := info.(energyFullDesign := OptionalUnsigned(fs, EnergyFullDesign, U64_MAX));
      info := info.(powerNow := OptionalUnsigned(fs, PowerNow, U64_MAX));
      info := info.(voltageNow := OptionalUnsigned(fs, VoltageNow, U64_MAX));
      info := info.(chargeNow := OptionalUnsigned(fs, ChargeNow, U64_MAX));
      info := info.(chargeFull := OptionalUnsigned(fs, ChargeFull, U64_MAX));
      info := info.(chargeFullDesign := OptionalUnsigned(fs, ChargeFullDesign, U64_MAX));
      info := info.(currentNow := OptionalSigned(fs, CurrentNow));
      info := info.(manufacturer := OptionalText(fs, Manufacturer));
      info := info.(modelName := OptionalText(fs, ModelName));
      r := Ok(info);
    }

    /** The reading `read` reports, before it records the capacity. */
    method Measure(fs: Files) returns (r: Result<BatteryReading, SensorError>)
      ensures r == ReadSpec(config, fs, warningThreshold, criticalThreshold)
    {
      var info := ReadBatteryInfo(fs);
      if info.Err? {
        return Err(info.error);
      }
      r := Ok(ReadingOf(config, info.value, warningThreshold, criticalThreshold));
    }

    /** `read`: a failed read changes nothing; a good one is reported with the
        capacity as percentage and recorded as the previous capacity. */
    method Read(fs: Files, now: nat) returns (r: Result<BatteryReading, SensorError>)
      modifies this`previousCapacity, this`previousTime
      ensures r == ReadSpec(config, fs, warningThreshold, criticalThreshold)
      ensures r.Err? ==> previousCapacity == old(previousCapacity) && previousTime == old(previousTime)
      ensures r.Ok? ==> previousCapacity == Some(r.value.percentage) && previousTime == Some(now)
    {
      r := Measure(fs);
      if r.Ok? {
        previousCapacity := Some(r.value.percentage);
        previousTime := Some(now);
      }
    }

    /** `configure` accepts any configuration. */
    method Configure(c: SensorConfig) returns (r: Result<(), SensorError>)
      modifies this`config
      ensures r == Ok(()) && config == c
    {
      config := c;
      r := Ok(());
    }
  }

  /** The path without its trailing separators and trailing `.` components,
      neither of which `Path::components` reports. */
  function DropTail(path: string): (r: string)
    ensures |r| <= |path| && r == path[..|r|]
    ensures r != [] ==> r[|r| - 1] != '/'
    ensures |r| >= 2 ==> r[|r| - 2..] != "/."
    decreases |path|
  {
    if path != [] && path[|path| - 1] == '/' then DropTail(path[..|path| - 1])
    else if |path| >= 2 && path[|path| - 2..] == "/." then DropTail(path[..|path| - 1])
    else path
  }

  /** `Path::file_name` of a `/`-separated path: its last component, unless
      there is none or it is `.` (alone) or `..`. */
  function FileName(path: string): (r: Option<string>)
    ensures r.Some? ==> r.value != [] && '/' !in r.value && r.value != "." && r.value != ".."
    ensures r.Some? ==> r.value == LastSegment(DropTail(path))
    ensures r.None? <==> LastSegment(DropTail(path)) in {"", ".", ".."}
  {
    var last := LastSegment(DropTail(path));
    if last == [] || last == "." || last == ".." then None else Some(last)
  }

  /** The empty path, `.`, `..` and the root have no file name. */
  lemma FileNameNone()
    ensures FileName("") == None && FileName(".") == None && FileName("..") == None && FileName("/") == None
  {
    assert DropTail("/") == [];
    assert DropTail(".") == "." && LastSegment(".") == ".";
    assert DropTail("..") == ".." by { assert ".."[0..] != "/."; }
  }

  /** A trailing slash or `.` component is skipped over. */
  lemma FileNameSkipsTail()
    ensures FileName("BAT0/.") == Some("BAT0")
  {
    assert "BAT0/."[4..] == "/.";
    assert "BAT0/."[..5] == "BAT0/";
    assert "BAT0/"[..4] == "BAT0";
    assert DropTail("BAT0/.") == "BAT0";
  }

  /** What follows the last `/`. */
  function LastSegment(s: string): (r: string)
    ensures '/' !in r
    ensures r == s || (|r| < |s| && s[|s| - |r| - 1] == '/' && s[|s| - |r|..] == r)
    decreases |s|
  {
    if s == [] then []
    else if s[|s| - 1] == '/' then []
    else
      var r := LastSegment(s[..|s| - 1]) + [s[|s| - 1]];
      r
  }

  /** The checks of `new`, on the chosen path: it must exist, and a `type`
      attribute, when there is one (`typeFile`), must say "Battery". The
      result is the path and the sensor name. */
  function NewCheck(path: string, pathExists: bool, typeFile: Option<TextRead>)
    : (r: Result<(string, string), SensorError>)
    ensures !pathExists ==> r == Err(Unavailable("Battery path does not exist: " + path, false))
    ensures r.Ok? ==> r.value.0 == path && pathExists
    ensures r.Ok? ==> r.value.1 == FileName(path).UnwrapOr("battery")
    ensures (r.Ok? && typeFile.Some?) ==> typeFile.value.Ok? && Trim(typeFile.value.value) == "Battery"
    ensures (pathExists && typeFile.Some? && typeFile.value.Ok? && Trim(typeFile.value.value) != "Battery") ==>
      r == Err(Unavailable("Device is not a battery: " + path + " (type: " + Trim(typeFile.value.value) + ")", false))
    ensures pathExists && typeFile.None? ==> r.Ok?
  {
    if !pathExists then Err(Unavailable("Battery path does not exist: " + path, false))
    else if typeFile.Some? then
      match typeFile.value
      case Err(k) => Err(Io(k))
      case Ok(t) =>
        if Trim(t) != "Battery" then
          Err(Unavailable("Device is not a battery: " + path + " (type: " + Trim(t) + ")", false))
        else Ok((path, FileName(path).UnwrapOr("battery")))
    else Ok((path, FileName(path).UnwrapOr("battery")))
  }

  /** `BatterySensor::new`: a named battery lives under the power-supply
      directory; otherwise the result of the discovery scan `found` is used.
      `pathExists` and `typeFile` describe the chosen path. */
  method NewBatterySensor(batteryName: Option<string>, warning: nat, critical: nat,
                          found: Result<string, SensorError>, pathExists: bool, typeFile: Option<TextRead>)
    returns (r: Result<BatterySensor, SensorError>)
    requires warning <= U8_MAX && critical <= U8_MAX
    ensures batteryName.None? && found.Err? ==> r == Err(found.error)
    ensures var path := if batteryName.Some? then AttributePath(POWER_SUPPLY_DIR, batteryName.value)
                        else if found.Ok? then found.value else "";
            (batteryName.Some? || found.Ok?) ==>
              (r.Err? <==> NewCheck(path, pathExists, typeFile).Err?) &&
              (r.Err? ==> r.error == NewCheck(path, pathExists, typeFile).error) &&
              (r.Ok? ==> fresh(r.value) && r.value.batteryPath == path &&
                         r.value.name == NewCheck(path, pathExists, typeFile).value.1 &&
                         r.value.warningThreshold == warning && r.value.criticalThreshold == critical &&
                         r.value.config == DefaultConfig() &&
                         r.value.previousCapacity.None? && r.value.previousTime.None?)
  {
    var path: string;
    if batteryName.Some? {
      path := AttributePath(POWER_SUPPLY_DIR, batteryName.value);
    } else {
      if found.Err? {
        return Err(found.error);
      }
      path := found.value;
    }
    var checked := NewCheck(path, pathExists, typeFile);
    if checked.Err? {
      return Err(checked.error);
    }
    var sensor := new BatterySensor(checked.value.1, path, warning, critical);
    r := Ok(sensor);
  }

  /** A named battery's sensor is named after it. */
  lemma NamedBatteryName(name: string)
    requires name != [] && name != "." && name != ".." && '/' !in name
    ensures FileName(AttributePath(POWER_SUPPLY_DIR, name)) == Some(name)
  {
    assert name[0] != '/' by { assert name[0] in name; }
    var p := AttributePath(POWER_SUPPLY_DIR, name);
    assert p == POWER_SUPPLY_DIR + "/" + name;
    assert p[|p| - 1] != '/' by { assert p[|p| - 1] == name[|name| - 1]; }
    assert p[|p| - 2..] != "/." by {
      if |name| == 1 {
        assert p[|p| - 2..] == ['/', name[0]] && name == [name[0]];
      } else {
        assert p[|p| - 2] == name[|name| - 2] && name[|name| - 2] in name;
      }
    }
    assert DropTail(p) == p;
    LastSegmentAfterSlash(POWER_SUPPLY_DIR + "/", name);
  }

  lemma {:induction false} LastSegmentAfterSlash(prefix: string, name: string)
    requires prefix != [] && prefix[|prefix| - 1] == '/' && '/' !in name
    ensures LastSegment(prefix + name) == name
    decreases |name|
  {
    if name == [] {
      assert prefix + name == prefix;
    } else {
      var s, n0, c := prefix + name, name[..|name| - 1], name[|name| - 1];
      assert s[..|s| - 1] == prefix + n0;
      assert s[|s| - 1] == c && c in name;
      LastSegmentAfterSlash(prefix, n0);
      assert LastSegment(s) == LastSegment(prefix + n0) + [c];
      assert n0 + [c] == name;
    }
  }

  /** Examples of the rules the tooltip and bar show. */
  lemma BatteryExamples()
    ensures ClockText(90) == "1:30"
    ensures PercentText(5) == "  5%"
    ensures BatteryIndicator(85, "Discharging") == HighCharge
    ensures BatteryIndicator(10, "Charging") == ChargingMark
    ensures SelectIcon(70, "Discharging") == ThreeQuartersIcon
  {
    assert NatToString(90 / 60) == "1";
    assert TwoDigits(30) == "30" by { assert NatToString(3) == "3"; }
  }
}
