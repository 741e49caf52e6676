/** The AMD GPU sensor's own error type and its conversion into the shared
    `SensorError`. */
module AmdGpuError {
  import opened Wrappers
  import opened CoreLib

  datatype GpuError =
    | MetricsFileError(path: string, reason: string)
    | MetricsParsingError(reason: string)
    | DiscoveryError(reason: string)
    | ThermalError(reason: string)
    | PerformanceError(reason: string)
    | HardwareError(reason: string)

  /** `From<GpuError> for SensorError`: file and discovery failures become
      permanent unavailability, parsing and analytics failures parse errors,
      thermal and hardware failures invalid data; the reason text is kept. */
  function ToSensorError(e: GpuError): (r: SensorError)
    ensures e.MetricsFileError? || e.DiscoveryError? ==> r == Unavailable(e.reason, false)
    ensures e.MetricsParsingError? || e.PerformanceError? ==> r == Parse(e.reason)
    ensures e.ThermalError? || e.HardwareError? ==> r == InvalidData(e.reason, None)
  {
    match e
    case MetricsFileError(_, reason) => UnavailableError(reason)
    case MetricsParsingError(reason) => Parse(reason)
    case DiscoveryError(reason) => UnavailableError(reason)
    case ThermalError(reason) => InvalidData(reason, None)
    case PerformanceError(reason) => Parse(reason)
    case HardwareError(reason) => InvalidData(reason, None)
  }

  /** No GPU error converts into an error the library calls temporary, and the
      file path of a metrics-file error is dropped. */
  lemma ConvertedErrorsArePermanent(e: GpuError)
    ensures !IsTemporary(ToSensorError(e))
    ensures e.MetricsFileError? ==> ToSensorError(e) == ToSensorError(MetricsFileError("", e.reason))
  {
  }
}
