/** The shared sensor library: Waybar output records, icon style and position
    parsing, threshold themes, sensor configuration, Pango-markup formatting
    helpers and the common error type. */
module CoreLib {
  import opened Wrappers
  import opened Text

  // ---------------------------------------------------------------------
  // Waybar output

  /** One JSON record for Waybar; `percentage` is a `u8`. */
  datatype WaybarOutput = WaybarOutput(
    text: string,
    tooltip: Option<string>,
    cssClass: Option<string>,
    percentage: Option<nat>)

  /** `WaybarOutput::new`: only the text is set. */
  function NewOutput(text: string): (r: WaybarOutput)
    ensures r.text == text
    ensures r.tooltip.None? && r.cssClass.None? && r.percentage.None?
  {
    WaybarOutput(text, None, None, None)
  }

  /** `with_tooltip` / `set_tooltip`. */
  function WithTooltip(o: WaybarOutput, tooltip: string): (r: WaybarOutput)
    ensures r.tooltip == Some(tooltip)
    ensures r.text == o.text && r.cssClass == o.cssClass && r.percentage == o.percentage
  {
    o.(tooltip := Some(tooltip))
  }

  /** `with_class` / `set_class`. */
  function WithClass(o: WaybarOutput, cssClass: string): (r: WaybarOutput)
    ensures r.cssClass == Some(cssClass)
    ensures r.text == o.text && r.tooltip == o.tooltip && r.percentage == o.percentage
  {
    o.(cssClass := Some(cssClass))
  }

  /** `with_percentage` / `set_percentage`: the source panics above 100. */
  function WithPercentage(o: WaybarOutput, percentage: nat): (r: WaybarOutput)
    requires percentage <= 100
    ensures r.percentage == Some(percentage)
    ensures r.text == o.text && r.tooltip == o.tooltip && r.cssClass == o.cssClass
  {
    o.(percentage := Some(percentage))
  }

  /** Every percentage a builder can store is at most 100. */
  lemma BuiltPercentageBounded(text: string, tooltip: string, cssClass: string, p: nat)
    requires p <= 100
    ensures var o := WithPercentage(WithClass(WithTooltip(NewOutput(text), tooltip), cssClass), p);
            o == WaybarOutput(text, Some(tooltip), Some(cssClass), Some(p))
  {
  }

  // ---------------------------------------------------------------------
  // Icon position and style

  datatype IconPosition = Before | After

  /** `Display` for `IconPosition`. */
  function IconPositionName(p: IconPosition): string {
    match p
    case Before => "before"
    case After => "after"
  }

  /** `IconPosition::from_str`: ASCII case-insensitive, with aliases. */
  function ParseIconPosition(s: string): (r: Result<IconPosition, string>)
    ensures r == Ok(Before) <==> ToLower(s) in {"before", "pre", "left"}
    ensures r == Ok(After) <==> ToLower(s) in {"after", "post", "right"}
  {
    var l := ToLower(s);
    if l == "before" || l == "pre" || l == "left" then Ok(Before)
    else if l == "after" || l == "post" || l == "right" then Ok(After)
    else Err(s)
  }

  datatype IconStyle = NerdFont | NoIcons

  /** `Display` for `IconStyle`. */
  function IconStyleName(s: IconStyle): string {
    match s
    case NerdFont => "nerdfont"
    case NoIcons => "none"
  }

  /** `IconStyle::from_str`: ASCII case-insensitive, the empty string means no icons. */
  function ParseIconStyle(s: string): (r: Result<IconStyle, string>)
    ensures r == Ok(NerdFont) <==> ToLower(s) in {"nerdfont", "nerd", "nf"}
    ensures r == Ok(NoIcons) <==> ToLower(s) in {"none", "no", ""}
  {
    var l := ToLower(s);
    if l == "nerdfont" || l == "nerd" || l == "nf" then Ok(NerdFont)
    else if l == "none" || l == "no" || l == "" then Ok(NoIcons)
    else Err(s)
  }

  lemma ToLowerIdempotent(s: string)
    ensures ToLower(ToLower(s)) == ToLower(s)
  {
    assert forall i :: 0 <= i < |s| ==> LowerChar(LowerChar(s[i])) == LowerChar(s[i]);
  }

  lemma IconPositionRoundTrip(p: IconPosition)
    ensures ParseIconPosition(IconPositionName(p)) == Ok(p)
  {
    ToLowerOfLower(IconPositionName(p));
  }

  lemma IconStyleRoundTrip(st: IconStyle)
    ensures ParseIconStyle(IconStyleName(st)) == Ok(st)
  {
    ToLowerOfLower(IconStyleName(st));
  }

  /** Parsing reads back what `Display` writes. */
  lemma IconNamesRoundTrip(p: IconPosition, st: IconStyle)
    ensures ParseIconPosition(IconPositionName(p)) == Ok(p)
    ensures ParseIconStyle(IconStyleName(st)) == Ok(st)
  {
    IconPositionRoundTrip(p);
    IconStyleRoundTrip(st);
  }

  /** Parsing ignores ASCII case: lowering the input first changes no accepted value. */
  lemma IconParsingCaseInsensitive(s: string)
    ensures ParseIconPosition(s).Ok? ==> ParseIconPosition(ToLower(s)) == ParseIconPosition(s)
    ensures ParseIconStyle(s).Ok? ==> ParseIconStyle(ToLower(s)) == ParseIconStyle(s)
    ensures ParseIconPosition(ToLower(s)).Ok? <==> ParseIconPosition(s).Ok?
  {
    ToLowerIdempotent(s);
  }

  lemma NerdFontAlias(s: string)
    requires s == "nerdfont" || s == "nerd" || s == "nf"
    ensures ParseIconStyle(s) == Ok(NerdFont)
  {
    ToLowerOfLower(s);
    var l := ToLower(s);
    assert l == s;
    if |s| == 8 {
      assert l == "nerdfont";
    } else if |s| == 4 {
      assert l == "nerd";
    } else {
      assert l == "nf";
    }
  }

  lemma NoIconsAlias(s: string)
    requires s == "none" || s == "no" || s == ""
    ensures ParseIconStyle(s) == Ok(NoIcons)
  {
    ToLowerOfLower(s);
    var l := ToLower(s);
    assert l == s;
    if |s| == 4 {
      assert l == "none" && |l| != 8 && |l| != 2;
    } else if |s| == 2 {
      assert l == "no" && |l| != 8 && |l| != 4;
    } else {
      assert l == "" && |l| != 8 && |l| != 4 && |l| != 2;
    }
  }

  /** The spellings listed in the library's tests: the Nerd Font and no-icon
      aliases (the empty one included), an unknown style refused, and a
      capitalised position alias still read. */
  lemma IconStyleExamples()
    ensures ParseIconStyle("nerdfont") == Ok(NerdFont) && ParseIconStyle("nerd") == Ok(NerdFont)
    ensures ParseIconStyle("nf") == Ok(NerdFont) && ParseIconStyle("none") == Ok(NoIcons)
    ensures ParseIconStyle("no") == Ok(NoIcons) && ParseIconStyle("") == Ok(NoIcons)
    ensures ParseIconStyle("invalid").Err? && ParseIconPosition("LEFT") == Ok(Before)
  {
    NerdFontAlias("nerdfont");
    NerdFontAlias("nerd");
    NerdFontAlias("nf");
    NoIconsAlias("none");
    NoIconsAlias("no");
    NoIconsAlias("");
    InvalidStyleRefused();
    CapitalisedPositionRead();
  }

  lemma InvalidStyleRefused()
    ensures ParseIconStyle("invalid").Err?
  {
    assert |ToLower("invalid")| == 7;
  }

  lemma CapitalisedPositionRead()
    ensures ParseIconPosition("LEFT") == Ok(Before)
  {
    assert ToLower("LEFT") == "left";
  }

  // ---------------------------------------------------------------------
  // Theme

  /** CSS class names per state. */
  datatype Theme = Theme(normal: string, warning: string, critical: string, good: string, unknown: string)

  function DefaultTheme(): Theme {
    Theme("normal", "warning", "critical", "good", "unknown")
  }

  /** The three states `class_for_thresholds` distinguishes, in increasing concern. */
  datatype Level = Normal | Warning | Critical

  function Rank(l: Level): nat {
    match l
    case Normal => 0
    case Warning => 1
    case Critical => 2
  }

  /** The state a value falls in: critical first, then warning, else normal. */
  function ThresholdLevel(value: real, warning: real, critical: real): (l: Level)
    ensures l == Critical <==> value >= critical
    ensures l == Warning <==> critical > value >= warning
  {
    if value >= critical then Critical
    else if value >= warning then Warning
    else Normal
  }

  function ClassOf(theme: Theme, l: Level): string {
    match l
    case Normal => theme.normal
    case Warning => theme.warning
    case Critical => theme.critical
  }

  /** `Theme::class_for_thresholds`. */
  function ClassForThresholds(theme: Theme, value: real, warning: real, critical: real): (r: string)
    ensures r == ClassOf(theme, ThresholdLevel(value, warning, critical))
    ensures value >= critical ==> r == theme.critical
    ensures value < warning && value < critical ==> r == theme.normal
  {
    if value >= critical then theme.critical
    else if value >= warning then theme.warning
    else theme.normal
  }

  /** A larger value never lands in a less severe state. */
  lemma ThresholdLevelMonotone(v1: real, v2: real, warning: real, critical: real)
    requires v1 <= v2
    ensures Rank(ThresholdLevel(v1, warning, critical)) <= Rank(ThresholdLevel(v2, warning, critical))
  {
  }

  /** The library's threshold examples with warning 70 and critical 90. */
  lemma ClassForThresholdsExamples()
    ensures ClassForThresholds(DefaultTheme(), 50.0, 70.0, 90.0) == "normal"
    ensures ClassForThresholds(DefaultTheme(), 80.0, 70.0, 90.0) == "warning"
    ensures ClassForThresholds(DefaultTheme(), 95.0, 70.0, 90.0) == "critical"
  {
  }

  // ---------------------------------------------------------------------
  // Configuration

  /** `serde_json::Number`: a non-negative integer, a negative integer or a float. */
  datatype JsonNumber = PosInt(u: nat) | NegInt(i: int) | Float(f: real) {
    /** `Number::as_u64`. */
    function AsU64(): Option<nat> {
      if PosInt? then Some(u) else None
    }
    /** `Number::as_f64`. */
    function AsF64(): real {
      match this
      case PosInt(u) => u as real
      case NegInt(i) => i as real
      case Float(f) => f
    }
  }

  /** `serde_json::Value`. */
  datatype JsonValue =
    | JNull
    | JBool(b: bool)
    | JNumber(n: JsonNumber)
    | JString(s: string)
    | JArray(items: seq<JsonValue>)
    | JObject(fields: map<string, JsonValue>)

  /** The parts of `SensorConfig` the modelled sensors read. Icons are passed to
      the formatting helpers directly. */
  datatype SensorConfig = SensorConfig(
    updateInterval: nat,
    theme: Theme,
    iconStyle: IconStyle,
    iconPosition: IconPosition,
    iconSpacing: nat,
    iconColor: Option<string>,
    textColor: Option<string>,
    tooltipLabelColor: Option<string>,
    tooltipValueColor: Option<string>,
    sparklineColor: Option<string>,
    sparklineLength: nat,
    custom: map<string, JsonValue>,
    icons: IconSet)

  /** The parts of `IconConfig` the modelled sensors show. */
  datatype IconSet = IconSet(
    disk: string,
    gpu: string,
    batteryFull: string,
    batteryThreeQuarters: string,
    batteryHalf: string,
    batteryQuarter: string,
    batteryEmpty: string,
    batteryCharging: string)

  /** `IconConfig::default`: Nerd Font code points. */
  const DEFAULT_ICONS: IconSet := IconSet(
    "\U{f0a0}", "\U{f08ae}", "\U{f0079}", "\U{f12a3}", "\U{f12a2}", "\U{f12a1}", "\U{f008e}", "\U{f0084}")

  const MIN_UPDATE_INTERVAL: nat := 100

  /** `SensorConfig::default`. */
  function DefaultConfig(): (c: SensorConfig)
    ensures c.updateInterval >= MIN_UPDATE_INTERVAL
  {
    SensorConfig(1000, DefaultTheme(), NoIcons, Before, 1, None, None, None, None, None, 8, map[], DEFAULT_ICONS)
  }

  /** `with_update_interval_ms` (and `with_update_interval` on whole milliseconds):
      the source panics below 100 ms. */
  function WithUpdateIntervalMs(c: SensorConfig, millis: nat): (r: SensorConfig)
    requires millis >= MIN_UPDATE_INTERVAL
    requires millis <= U64_MAX
    ensures r.updateInterval == millis && r.updateInterval >= MIN_UPDATE_INTERVAL
    ensures r.(updateInterval := c.updateInterval) == c
  {
    c.(updateInterval := millis)
  }

  /** `validate_update_interval`: the deserialiser rejects intervals below 100 ms. */
  function ValidateUpdateInterval(interval: nat): (r: Result<nat, string>)
    ensures r.Ok? <==> interval >= MIN_UPDATE_INTERVAL
    ensures r.Ok? ==> r.value == interval
  {
    if interval < MIN_UPDATE_INTERVAL then
      Err("Update interval must be at least 100ms, got " + NatToString(interval) + "ms")
    else Ok(interval)
  }

  /** The builder accepts exactly the intervals the deserialiser accepts. */
  lemma IntervalChecksAgree(c: SensorConfig, millis: nat)
    requires millis <= U64_MAX
    ensures ValidateUpdateInterval(millis).Ok? ==> WithUpdateIntervalMs(c, millis).updateInterval == millis
    ensures ValidateUpdateInterval(millis).Err? <==> millis < MIN_UPDATE_INTERVAL
  {
  }

  function Override(o: Option<string>, current: Option<string>): Option<string> {
    if o.Some? then o else current
  }

  /** `apply_color_overrides`: each colour is replaced only by a given override. */
  function ApplyColorOverrides(c: SensorConfig, icon: Option<string>, text: Option<string>,
                               labelColor: Option<string>, value: Option<string>): (r: SensorConfig)
    ensures icon.Some? ==> r.iconColor == icon
    ensures icon.None? ==> r.iconColor == c.iconColor
    ensures text.Some? ==> r.textColor == text
    ensures text.None? ==> r.textColor == c.textColor
    ensures labelColor.Some? ==> r.tooltipLabelColor == labelColor
    ensures labelColor.None? ==> r.tooltipLabelColor == c.tooltipLabelColor
    ensures value.Some? ==> r.tooltipValueColor == value
    ensures value.None? ==> r.tooltipValueColor == c.tooltipValueColor
    ensures r.(iconColor := c.iconColor, textColor := c.textColor,
               tooltipLabelColor := c.tooltipLabelColor, tooltipValueColor := c.tooltipValueColor) == c
  {
    c.(iconColor := Override(icon, c.iconColor),
       textColor := Override(text, c.textColor),
       tooltipLabelColor := Override(labelColor, c.tooltipLabelColor),
       tooltipValueColor := Override(value, c.tooltipValueColor))
  }

  /** Overrides are idempotent, and no overrides leave the configuration alone. */
  lemma ApplyColorOverridesIdempotent(c: SensorConfig, i: Option<string>, t: Option<string>,
                                      l: Option<string>, v: Option<string>)
    ensures ApplyColorOverrides(ApplyColorOverrides(c, i, t, l, v), i, t, l, v) == ApplyColorOverrides(c, i, t, l, v)
    ensures ApplyColorOverrides(c, None, None, None, None) == c
  {
  }

  /** `with_custom`: insert (or replace) one custom key. */
  function WithCustom(c: SensorConfig, key: string, value: JsonValue): (r: SensorConfig)
    ensures key in r.custom && r.custom[key] == value
    ensures forall k :: k in c.custom && k != key ==> k in r.custom && r.custom[k] == c.custom[k]
    ensures r.(custom := c.custom) == c
  {
    c.(custom := c.custom[key := value])
  }

  /** `get_custom`. */
  function GetCustom(c: SensorConfig, key: string): (r: Option<JsonValue>)
    ensures r.Some? <==> key in c.custom
    ensures r.Some? ==> r.value == c.custom[key]
  {
    if key in c.custom then Some(c.custom[key]) else None
  }

  lemma GetCustomAfterWithCustom(c: SensorConfig, key: string, other: string, value: JsonValue)
    ensures GetCustom(WithCustom(c, key, value), key) == Some(value)
    ensures other != key ==> GetCustom(WithCustom(c, key, value), other) == GetCustom(c, other)
  {
  }

  // ---------------------------------------------------------------------
  // Formatting

  function Spaces(n: nat): (r: string)
    ensures |r| == n && forall i :: 0 <= i < n ==> r[i] == ' '
  {
    seq(n, _ => ' ')
  }

  /** Pango markup: `<span color="c">s</span>`. */
  function Span(color: string, s: string): string {
    "<span color=\"" + color + "\">" + s + "</span>"
  }

  function Colored(color: Option<string>, s: string): string {
    if color.Some? then Span(color.value, s) else s
  }

  /** `format::with_icon`. */
  function WithIcon(text: string, icon: string, style: IconStyle, position: IconPosition, spacing: nat): (r: string)
    ensures style == NoIcons || icon == [] ==> r == text
    ensures style == NerdFont && icon != [] ==>
      |r| == |icon| + spacing + |text| &&
      (position == Before ==> r == icon + Spaces(spacing) + text) &&
      (position == After ==> r == text + Spaces(spacing) + icon)
  {
    if style == NoIcons || icon == [] then text
    else match position
      case Before => icon + Spaces(spacing) + text
      case After => text + Spaces(spacing) + icon
  }

  /** The library's `with_icon` examples, with spacing 1, 2 and 3. */
  lemma WithIconExamples(icon: string)
    requires icon != []
    ensures WithIcon("50%", icon, NerdFont, Before, 1) == icon + " 50%"
    ensures WithIcon("50%", icon, NerdFont, After, 1) == "50% " + icon
    ensures WithIcon("50%", icon, NoIcons, Before, 1) == "50%"
    ensures WithIcon("50%", [], NerdFont, Before, 1) == "50%"
    ensures WithIcon("50%", icon, NerdFont, Before, 2) == icon + "  50%"
    ensures WithIcon("50%", icon, NerdFont, After, 3) == "50%   " + icon
  {
    assert Spaces(1) == " ";
    assert Spaces(2) == "  ";
    assert Spaces(3) == "   ";
  }

  /** A string that is empty once trimmed consists of whitespace only. */
  predicate IsBlank(s: string) { Trim(s) == [] }

  /** `format::with_icon_and_colors`: a whitespace-only icon counts as no icon; each
      part is wrapped in a span exactly when its colour is set. */
  function WithIconAndColors(text: string, icon: string, config: SensorConfig): (r: string)
    ensures config.iconStyle == NoIcons || IsBlank(icon) ==> r == Colored(config.textColor, text)
    ensures config.iconStyle == NerdFont && !IsBlank(icon) ==>
      var ip := Colored(config.iconColor, icon);
      var tp := Colored(config.textColor, text);
      r == (if config.iconPosition == Before then ip + Spaces(config.iconSpacing) + tp
            else tp + Spaces(config.iconSpacing) + ip)
  {
    var iconIsEmpty := Trim(icon) == [];
    match config.iconStyle
    case NoIcons => Colored(config.textColor, text)
    case NerdFont =>
      if iconIsEmpty then Colored(config.textColor, text)
      else
        var iconPart := Colored(config.iconColor, icon);
        var textPart := Colored(config.textColor, text);
        var spacer := Spaces(config.iconSpacing);
        match config.iconPosition
        case Before => iconPart + spacer + textPart
        case After => textPart + spacer + iconPart
  }

  lemma TrimEmptyString()
    ensures Trim([]) == []
  {
  }

  /** Without colours, the coloured variant agrees with `with_icon` on every icon that
      is not whitespace-only. */
  lemma WithIconAndColorsUncolored(text: string, icon: string, config: SensorConfig)
    requires config.iconColor.None? && config.textColor.None?
    requires !IsBlank(icon) || icon == []
    ensures WithIconAndColors(text, icon, config)
         == WithIcon(text, icon, config.iconStyle, config.iconPosition, config.iconSpacing)
  {
    if icon == [] {
      TrimEmptyString();
    }
  }

  /** ... but they differ on a whitespace-only icon: `with_icon` keeps it. */
  lemma WithIconAndColorsBlankIcon(config: SensorConfig)
    requires config.iconStyle == NerdFont && config.iconColor.None? && config.textColor.None?
    requires config.iconPosition == Before && config.iconSpacing == 1
    ensures WithIconAndColors("50%", " ", config) == "50%"
    ensures WithIcon("50%", " ", config.iconStyle, config.iconPosition, config.iconSpacing) == "  50%"
  {
    assert SpaceLen(" ") == 1;
    assert Trim(" ") == [];
    assert Spaces(1) == " ";
  }

  /** `format::key_value`: `key:` and the value, joined by one space, each coloured
      when its tooltip colour is set. */
  function KeyValue(key: string, value: string, config: SensorConfig): (r: string)
    ensures config.tooltipLabelColor.None? && config.tooltipValueColor.None? ==> r == key + ": " + value
    ensures r == KeyOnly(key, config) + " " + ValueOnly(value, config)
  {
    KeyOnly(key, config) + " " + ValueOnly(value, config)
  }

  /** `format::key_only`. */
  function KeyOnly(key: string, config: SensorConfig): string {
    Colored(config.tooltipLabelColor, key + ":")
  }

  /** `format::value_only`. */
  function ValueOnly(value: string, config: SensorConfig): string {
    Colored(config.tooltipValueColor, value)
  }

  /** `format::themed_output`: the class follows the thresholds, everything else is passed through. */
  function ThemedOutput(text: string, tooltip: Option<string>, percentage: Option<nat>,
                        value: real, warning: real, critical: real, theme: Theme): (r: WaybarOutput)
    ensures r.text == text && r.tooltip == tooltip && r.percentage == percentage
    ensures r.cssClass == Some(ClassOf(theme, ThresholdLevel(value, warning, critical)))
  {
    WaybarOutput(text, tooltip, Some(ClassForThresholds(theme, value, warning, critical)), percentage)
  }

  /** `format::simple_themed_output`: as `themed_output` with no percentage. */
  function SimpleThemedOutput(text: string, tooltip: Option<string>, value: real,
                              warning: real, critical: real, theme: Theme): (r: WaybarOutput)
    ensures r.percentage.None?
  {
    ThemedOutput(text, tooltip, None, value, warning, critical, theme)
  }

  // ---------------------------------------------------------------------
  // Errors

  /** The `std::io::ErrorKind` values the model distinguishes. */
  datatype IoErrorKind = NotFound | PermissionDeniedKind | Interrupted | TimedOut | UnexpectedEof | OtherKind

  /** The contents of a file, or the I/O error reading it. */
  type TextRead = Result<string, IoErrorKind>

  /** `SensorError`; the optional chained source of `Parse` is not modelled. */
  datatype SensorError =
    | Io(kind: IoErrorKind)
    | Parse(message: string)
    | Config(message: string, value: Option<string>)
    | Unavailable(reason: string, isTemporary: bool)
    | PermissionDenied(resource: string)
    | Timeout(durationMs: nat, operation: string)
    | InvalidData(message: string, data: Option<string>)

  /** `SensorError::unavailable` (permanent) and `temporarily_unavailable`. */
  function UnavailableError(reason: string): SensorError { Unavailable(reason, false) }
  function TemporarilyUnavailable(reason: string): SensorError { Unavailable(reason, true) }

  /** `SensorError::is_temporary`. */
  function IsTemporary(e: SensorError): (r: bool)
    ensures e.Parse? || e.Config? || e.PermissionDenied? || e.InvalidData? ==> !r
    ensures e.Timeout? ==> r
    ensures e.Unavailable? ==> r == e.isTemporary
    ensures e.Io? ==> (r <==> e.kind == Interrupted || e.kind == TimedOut)
  {
    match e
    case Unavailable(_, t) => t
    case Timeout(_, _) => true
    case Io(k) => k == Interrupted || k == TimedOut
    case _ => false
  }

  /** The two unavailable constructors differ exactly in `is_temporary`. */
  lemma UnavailableConstructors(reason: string)
    ensures IsTemporary(TemporarilyUnavailable(reason))
    ensures !IsTemporary(UnavailableError(reason))
    ensures !IsTemporary(Parse("Invalid format"))
  {
  }
}
