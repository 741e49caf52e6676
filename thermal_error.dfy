/** The thermal sensor's error table, severity levels and recovery strategy. */
module ThermalErrors {
  import opened Wrappers
  import Backoff

  /** `ThermalError`; durations are whole milliseconds, temperatures °C. */
  datatype ThermalError =
    | Io(message: string)
    | SensorNotFound(sensorId: string)
    | Config(field: string, reason: string)
    | Parse(dataType: string, reason: string)
    | Permission(operation: string)
    | Resource(resource: string)
    | Discovery(reason: string)
    | Analytics(computation: string, reason: string)
    | Timeout(operation: string, durationMs: nat)
    | InvalidState(state: string, reason: string)
    | Service(service: string, reason: string)
    | CriticalTemperature(sensor: string, temperature: real)
    | ThermalThrottling(reason: string)
    | FanControl(fanId: string, reason: string)
    | CoolingFailure(system: string, reason: string)
    | AlertSystem(alertType: string, reason: string)
    | Prediction(model: string, reason: string)

  /** `is_recoverable`: a missing sensor, a bad configuration, a refused
      permission and the three protective conditions are final. */
  predicate IsRecoverable(e: ThermalError) {
    !(e.SensorNotFound? || e.Config? || e.Permission? || e.CriticalTemperature?
      || e.ThermalThrottling? || e.CoolingFailure?)
  }

  /** `is_safety_critical`. */
  predicate IsSafetyCritical(e: ThermalError) {
    e.CriticalTemperature? || e.CoolingFailure? || e.ThermalThrottling?
  }

  /** Every safety-critical condition is final. */
  lemma SafetyCriticalNotRecoverable(e: ThermalError)
    requires IsSafetyCritical(e)
    ensures !IsRecoverable(e)
  {
  }

  /** `ErrorSeverity`, ordered as declared. */
  datatype Severity = Low | Medium | High | Critical

  function SeverityRank(s: Severity): nat {
    match s
    case Low => 0
    case Medium => 1
    case High => 2
    case Critical => 3
  }

  /** The `Display` text of a severity. */
  function SeverityLabel(s: Severity): string {
    match s
    case Low => "LOW"
    case Medium => "MEDIUM"
    case High => "HIGH"
    case Critical => "CRITICAL"
  }

  /** `severity`. */
  function SeverityOf(e: ThermalError): (r: Severity)
    ensures r == Critical <==> e.CriticalTemperature? || e.CoolingFailure?
    ensures r == High <==> e.ThermalThrottling? || e.FanControl?
    ensures r == Medium <==> e.Config? || e.Permission?
  {
    match e
    case CriticalTemperature(_, _) => Critical
    case CoolingFailure(_, _) => Critical
    case ThermalThrottling(_) => High
    case FanControl(_, _) => High
    case Config(_, _) => Medium
    case Permission(_) => Medium
    case _ => Low
  }

  /** A safety-critical condition is at least of high severity, and a
      critical one is always safety-critical. */
  lemma SafetyCriticalSeverity(e: ThermalError)
    ensures IsSafetyCritical(e) ==> SeverityRank(SeverityOf(e)) >= SeverityRank(High)
    ensures SeverityOf(e) == Critical ==> IsSafetyCritical(e)
  {
  }

  /** The labels name the levels one to one. */
  lemma SeverityLabelsDistinct(a: Severity, b: Severity)
    requires SeverityLabel(a) == SeverityLabel(b)
    ensures a == b
  {
    assert |SeverityLabel(a)| == |SeverityLabel(b)|;
  }

  /** `category`: the logging tag of each variant. */
  function Category(e: ThermalError): string {
    match e
    case Io(_) => "io"
    case SensorNotFound(_) => "sensor"
    case Config(_, _) => "config"
    case Parse(_, _) => "parse"
    case Permission(_) => "permission"
    case Resource(_) => "resource"
    case Discovery(_) => "discovery"
    case Analytics(_, _) => "analytics"
    case Timeout(_, _) => "timeout"
    case InvalidState(_, _) => "state"
    case Service(_, _) => "service"
    case CriticalTemperature(_, _) => "critical_temp"
    case ThermalThrottling(_) => "throttling"
    case FanControl(_, _) => "fan_control"
    case CoolingFailure(_, _) => "cooling_failure"
    case AlertSystem(_, _) => "alerts"
    case Prediction(_, _) => "prediction"
  }

  /** The position of a variant in the declaration. */
  function VariantIndex(e: ThermalError): nat {
    match e
    case Io(_) => 0
    case SensorNotFound(_) => 1
    case Config(_, _) => 2
    case Parse(_, _) => 3
    case Permission(_) => 4
    case Resource(_) => 5
    case Discovery(_) => 6
    case Analytics(_, _) => 7
    case Timeout(_, _) => 8
    case InvalidState(_, _) => 9
    case Service(_, _) => 10
    case CriticalTemperature(_, _) => 11
    case ThermalThrottling(_) => 12
    case FanControl(_, _) => 13
    case CoolingFailure(_, _) => 14
    case AlertSystem(_, _) => 15
    case Prediction(_, _) => 16
  }

  /** The variant a category tag names, if any. */
  function VariantOfCategory(tag: string): Option<nat> {
    if tag == "io" then Some(0)
    else if tag == "sensor" then Some(1)
    else if tag == "config" then Some(2)
    else if tag == "parse" then Some(3)
    else if tag == "permission" then Some(4)
    else if tag == "resource" then Some(5)
    else if tag == "discovery" then Some(6)
    else if tag == "analytics" then Some(7)
    else if tag == "timeout" then Some(8)
    else if tag == "state" then Some(9)
    else if tag == "service" then Some(10)
    else if tag == "critical_temp" then Some(11)
    else if tag == "throttling" then Some(12)
    else if tag == "fan_control" then Some(13)
    else if tag == "cooling_failure" then Some(14)
    else if tag == "alerts" then Some(15)
    else if tag == "prediction" then Some(16)
    else None
  }

  /** The tag identifies the variant: no two variants share a category. */
  lemma CategoryIdentifiesVariant(e: ThermalError)
    ensures VariantOfCategory(Category(e)) == Some(VariantIndex(e))
  {
    var tag := Category(e);
    assert VariantOfCategory(tag).Some?;
  }

  lemma CategoriesDistinct(a: ThermalError, b: ThermalError)
    requires Category(a) == Category(b)
    ensures VariantIndex(a) == VariantIndex(b)
  {
    CategoryIdentifiesVariant(a);
    CategoryIdentifiesVariant(b);
  }

  /** `retry_delay`: no delay for a final error; otherwise a per-variant
      pause in milliseconds. */
  function RetryDelay(e: ThermalError): (r: Option<nat>)
    ensures r.None? <==> !IsRecoverable(e)
    ensures r.Some? ==> r.value in {100, 250, 500, 1000, 2000}
    ensures e.Timeout? ==> r == Some(500)
    ensures e.Resource? ==> r == Some(1000)
    ensures e.Service? ==> r == Some(2000)
    ensures e.FanControl? ==> r == Some(100)
    ensures (IsRecoverable(e) && !(e.Timeout? || e.Resource? || e.Service? || e.FanControl?))
              ==> r == Some(250)
  {
    if !IsRecoverable(e) then None
    else if e.Timeout? then Some(500)
    else if e.Resource? then Some(1000)
    else if e.Service? then Some(2000)
    else if e.FanControl? then Some(100)
    else Some(250)
  }

  /** The `From` conversions: I/O failures keep their message; float,
      integer and JSON failures become `Parse` errors naming the data type. */
  function FromIo(message: string): ThermalError { Io(message) }
  function FromParseFloat(message: string): ThermalError { Parse("float", message) }
  function FromParseInt(message: string): ThermalError { Parse("integer", message) }
  function FromJson(message: string): ThermalError { Parse("json", message) }

  /** Every converted library error is a low-severity error retried after
      the default pause. */
  lemma ConversionsRetriedAfterDefault(message: string)
    ensures FromIo(message).Io?
    ensures RetryDelay(FromIo(message)) == Some(250)
    ensures RetryDelay(FromParseFloat(message)) == Some(250)
    ensures RetryDelay(FromParseInt(message)) == Some(250)
    ensures RetryDelay(FromJson(message)) == Some(250)
    ensures SeverityOf(FromIo(message)) == Low && SeverityOf(FromJson(message)) == Low
  {
  }

  /** `RecoveryStrategy`; delays are whole milliseconds. */
  datatype RecoveryStrategy = RecoveryStrategy(
    maxRetries: nat,
    baseDelayMs: nat,
    backoffMultiplier: real,
    maxDelayMs: nat,
    emergencyCooling: bool,
    emergencyShutdownTemp: real)

  /** `RecoveryStrategy::default`: three retries from 100 ms, doubling, up to
      5 s; emergency cooling on and shutdown at 100 °C. */
  const DEFAULT_STRATEGY: RecoveryStrategy := RecoveryStrategy(3, 100, 2.0, 5000, true, 100.0)

  /** `delay_for_attempt`. */
  function DelayForAttempt(s: RecoveryStrategy, attempt: nat): (r: nat)
    ensures attempt == 0 ==> r == s.baseDelayMs
    ensures attempt > 0 ==> r <= s.maxDelayMs
  {
    Backoff.DelayForAttempt(s.baseDelayMs, s.backoffMultiplier, s.maxDelayMs, attempt)
  }

  /** `should_retry`: never for a safety-critical error; otherwise while
      attempts remain and the error is recoverable. */
  function ShouldRetry(s: RecoveryStrategy, attempt: nat, e: ThermalError): (r: bool)
    ensures IsSafetyCritical(e) ==> !r
    ensures r <==> attempt < s.maxRetries && IsRecoverable(e)
  {
    if IsSafetyCritical(e) then false
    else attempt < s.maxRetries && IsRecoverable(e)
  }

  /** A retry is granted only for an error that has a retry delay, and a
      retried error is never of critical severity. */
  lemma RetriedErrorsHaveDelay(s: RecoveryStrategy, attempt: nat, e: ThermalError)
    requires ShouldRetry(s, attempt, e)
    ensures RetryDelay(e).Some?
    ensures SeverityOf(e) != Critical
  {
  }

  /** The default strategy: 100, 200, 400 ms, ..., capped at 5 s, and later
      attempts never wait less than earlier ones. */
  lemma DefaultStrategyDelays(a: nat, b: nat)
    requires 0 < a <= b
    ensures DelayForAttempt(DEFAULT_STRATEGY, 0) == 100
    ensures DelayForAttempt(DEFAULT_STRATEGY, 1) == 200
    ensures DelayForAttempt(DEFAULT_STRATEGY, 2) == 400
    ensures DelayForAttempt(DEFAULT_STRATEGY, a) <= DelayForAttempt(DEFAULT_STRATEGY, b)
  {
    assert Backoff.ExactDelay(100, 2.0, 1) == 200.0;
    assert Backoff.ExactDelay(100, 2.0, 2) == 400.0;
    Backoff.DelayMonotone(100, 2.0, 5000, a, b);
  }

  /** The behaviour the source's own tests pin down. */
  lemma SourceExamples()
    ensures Category(CriticalTemperature("cpu", 95.0)) == "critical_temp"
    ensures !IsRecoverable(CriticalTemperature("cpu", 95.0))
    ensures IsSafetyCritical(CriticalTemperature("cpu", 95.0))
    ensures SeverityOf(CriticalTemperature("cpu", 100.0)) == Critical
    ensures SeverityOf(Config("interval", "invalid value")) == Medium
    ensures SeverityOf(Io("read failed")) == Low
    ensures ShouldRetry(DEFAULT_STRATEGY, 0, Io("temporary failure"))
    ensures !ShouldRetry(DEFAULT_STRATEGY, 0, CriticalTemperature("cpu", 95.0))
    ensures !ShouldRetry(DEFAULT_STRATEGY, 5, Io("temporary failure"))
    ensures DelayForAttempt(DEFAULT_STRATEGY, 2) > DelayForAttempt(DEFAULT_STRATEGY, 1)
  {
    DefaultStrategyDelays(1, 2);
  }
}
