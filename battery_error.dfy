/** The battery sensor's error table and its recovery strategy. */
module BatteryErrors {
  import opened Wrappers
  import Backoff

  /** `BatteryError`; durations are whole milliseconds. */
  datatype BatteryError =
    | Io(message: string)
    | BatteryNotFound(batteryId: string)
    | Config(field: string, reason: string)
    | Parse(dataType: string, reason: string)
    | Permission(operation: string)
    | Resource(resource: string)
    | Discovery(reason: string)
    | Analytics(computation: string, reason: string)
    | Timeout(operation: string, durationMs: nat)
    | InvalidState(state: string, reason: string)
    | Service(service: string, reason: string)
    | Thermal(reason: string)
    | PowerManagement(operation: string, reason: string)
    | Health(reason: string)
    | Prediction(model: string, reason: string)

  /** `is_recoverable`: a missing battery, a bad configuration, a refused
      permission and a thermal condition are final. */
  predicate IsRecoverable(e: BatteryError) {
    !(e.BatteryNotFound? || e.Config? || e.Permission? || e.Thermal?)
  }

  /** `is_safety_critical`. */
  predicate IsSafetyCritical(e: BatteryError) {
    e.Thermal?
  }

  /** A safety-critical error is never retried on its own merits. */
  lemma SafetyCriticalNotRecoverable(e: BatteryError)
    requires IsSafetyCritical(e)
    ensures !IsRecoverable(e)
  {
  }

  /** `category`: the logging tag of each variant. */
  function Category(e: BatteryError): string {
    match e
    case Io(_) => "io"
    case BatteryNotFound(_) => "not_found"
    case Config(_, _) => "config"
    case Parse(_, _) => "parse"
    case Permission(_) => "permission"
    case Resource(_) => "resource"
    case Discovery(_) => "discovery"
    case Analytics(_, _) => "analytics"
    case Timeout(_, _) => "timeout"
    case InvalidState(_, _) => "state"
    case Service(_, _) => "service"
    case Thermal(_) => "thermal"
    case PowerManagement(_, _) => "power"
    case Health(_) => "health"
    case Prediction(_, _) => "prediction"
  }

  /** The position of a variant in the declaration. */
  function VariantIndex(e: BatteryError): nat {
    match e
    case Io(_) => 0
    case BatteryNotFound(_) => 1
    case Config(_, _) => 2
    case Parse(_, _) => 3
    case Permission(_) => 4
    case Resource(_) => 5
    case Discovery(_) => 6
    case Analytics(_, _) => 7
    case Timeout(_, _) => 8
    case InvalidState(_, _) => 9
    case Service(_, _) => 10
    case Thermal(_) => 11
    case PowerManagement(_, _) => 12
    case Health(_) => 13
    case Prediction(_, _) => 14
  }

  /** The variant a category tag names, if any. */
  function VariantOfCategory(tag: string): Option<nat> {
    if tag == "io" then Some(0)
    else if tag == "not_found" then Some(1)
    else if tag == "config" then Some(2)
    else if tag == "parse" then Some(3)
    else if tag == "permission" then Some(4)
    else if tag == "resource" then Some(5)
    else if tag == "discovery" then Some(6)
    else if tag == "analytics" then Some(7)
    else if tag == "timeout" then Some(8)
    else if tag == "state" then Some(9)
    else if tag == "service" then Some(10)
    else if tag == "thermal" then Some(11)
    else if tag == "power" then Some(12)
    else if tag == "health" then Some(13)
    else if tag == "prediction" then Some(14)
    else None
  }

  /** The tag identifies the variant: no two variants share a category. */
  lemma CategoryIdentifiesVariant(e: BatteryError)
    ensures VariantOfCategory(Category(e)) == Some(VariantIndex(e))
  {
    var tag := Category(e);
    assert VariantOfCategory(tag).Some?;
  }

  lemma CategoriesDistinct(a: BatteryError, b: BatteryError)
    requires Category(a) == Category(b)
    ensures VariantIndex(a) == VariantIndex(b)
  {
    CategoryIdentifiesVariant(a);
    CategoryIdentifiesVariant(b);
  }

  /** `retry_delay`: no delay for a final error; otherwise a per-variant
      pause in milliseconds. */
  function RetryDelay(e: BatteryError): (r: Option<nat>)
    ensures r.None? <==> !IsRecoverable(e)
    ensures r.Some? ==> r.value in {100, 250, 500, 1000, 2000}
    ensures e.Timeout? ==> r == Some(500)
    ensures e.Resource? ==> r == Some(1000)
    ensures e.Service? ==> r == Some(2000)
    ensures e.Analytics? ==> r == Some(100)
    ensures (IsRecoverable(e) && !(e.Timeout? || e.Resource? || e.Service? || e.Analytics?))
              ==> r == Some(250)
  {
    if !IsRecoverable(e) then None
    else if e.Timeout? then Some(500)
    else if e.Resource? then Some(1000)
    else if e.Service? then Some(2000)
    else if e.Analytics? then Some(100)
    else Some(250)
  }

  /** The `From` conversions: I/O failures keep their message; integer,
      float and JSON failures become `Parse` errors naming the data type. */
  function FromIo(message: string): BatteryError { Io(message) }
  function FromParseInt(message: string): BatteryError { Parse("integer", message) }
  function FromParseFloat(message: string): BatteryError { Parse("float", message) }
  function FromJson(message: string): BatteryError { Parse("json", message) }

  /** Every converted library error is retried after the default pause. */
  lemma ConversionsRetriedAfterDefault(message: string)
    ensures RetryDelay(FromIo(message)) == Some(250)
    ensures RetryDelay(FromParseInt(message)) == Some(250)
    ensures RetryDelay(FromParseFloat(message)) == Some(250)
    ensures RetryDelay(FromJson(message)) == Some(250)
    ensures Category(FromIo(message)) == "io"
    ensures Category(FromParseInt(message)) == "parse"
  {
  }

  /** `RecoveryStrategy`; delays are whole milliseconds. */
  datatype RecoveryStrategy = RecoveryStrategy(
    maxRetries: nat,
    baseDelayMs: nat,
    backoffMultiplier: real,
    maxDelayMs: nat,
    safetyCriticalHandling: bool)

  /** `RecoveryStrategy::default`: three retries from 200 ms, doubling, up to 10 s. */
  const DEFAULT_STRATEGY: RecoveryStrategy := RecoveryStrategy(3, 200, 2.0, 10000, true)

  /** `delay_for_attempt`. */
  function DelayForAttempt(s: RecoveryStrategy, attempt: nat): (r: nat)
    ensures attempt == 0 ==> r == s.baseDelayMs
    ensures attempt > 0 ==> r <= s.maxDelayMs
  {
    Backoff.DelayForAttempt(s.baseDelayMs, s.backoffMultiplier, s.maxDelayMs, attempt)
  }

  /** `should_retry`: never for a safety-critical error while safety handling
      is on; otherwise while attempts remain and the error is recoverable. */
  function ShouldRetry(s: RecoveryStrategy, attempt: nat, e: BatteryError): (r: bool)
    ensures r ==> attempt < s.maxRetries && IsRecoverable(e)
    ensures s.safetyCriticalHandling && IsSafetyCritical(e) ==> !r
    ensures !IsSafetyCritical(e) ==> (r <==> attempt < s.maxRetries && IsRecoverable(e))
  {
    if s.safetyCriticalHandling && IsSafetyCritical(e) then false
    else attempt < s.maxRetries && IsRecoverable(e)
  }

  /** The safety-critical switch changes nothing: the only safety-critical
      error is also unrecoverable, so it is refused either way. */
  lemma SafetyHandlingRedundant(s: RecoveryStrategy, attempt: nat, e: BatteryError)
    ensures ShouldRetry(s.(safetyCriticalHandling := true), attempt, e)
         == ShouldRetry(s.(safetyCriticalHandling := false), attempt, e)
  {
    if IsSafetyCritical(e) {
      SafetyCriticalNotRecoverable(e);
    }
  }

  /** A retry is granted only for an error that has a retry delay. */
  lemma RetriedErrorsHaveDelay(s: RecoveryStrategy, attempt: nat, e: BatteryError)
    requires ShouldRetry(s, attempt, e)
    ensures RetryDelay(e).Some?
  {
  }

  /** The default strategy: 200, 400, 800 ms, ..., capped at 10 s, and
      later attempts never wait less than earlier ones. */
  lemma DefaultStrategyDelays(a: nat, b: nat)
    requires 0 < a <= b
    ensures DelayForAttempt(DEFAULT_STRATEGY, 0) == 200
    ensures DelayForAttempt(DEFAULT_STRATEGY, 1) == 400
    ensures DelayForAttempt(DEFAULT_STRATEGY, 2) == 800
    ensures DelayForAttempt(DEFAULT_STRATEGY, a) <= DelayForAttempt(DEFAULT_STRATEGY, b)
  {
    assert Backoff.ExactDelay(200, 2.0, 1) == 400.0;
    assert Backoff.ExactDelay(200, 2.0, 2) == 800.0;
    Backoff.DelayMonotone(200, 2.0, 10000, a, b);
  }

  /** The behaviour the source's own tests pin down. */
  lemma SourceExamples()
    ensures Category(BatteryNotFound("BAT0")) == "not_found"
    ensures !IsRecoverable(BatteryNotFound("BAT0"))
    ensures IsSafetyCritical(Thermal("overheat")) && !IsRecoverable(Thermal("overheat"))
    ensures !IsSafetyCritical(Io("read")) && IsRecoverable(Io("read"))
    ensures ShouldRetry(DEFAULT_STRATEGY, 0, Io("read"))
    ensures !ShouldRetry(DEFAULT_STRATEGY, 0, Thermal("overheat"))
    ensures !ShouldRetry(DEFAULT_STRATEGY, 5, Io("read"))
    ensures DelayForAttempt(DEFAULT_STRATEGY, 2) > DelayForAttempt(DEFAULT_STRATEGY, 1)
  {
    DefaultStrategyDelays(1, 2);
  }
}
