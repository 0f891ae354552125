/**
 * The records a provider returns: `Provider::ResolutionDetails` (a Struct
 * whose unset members are nil) and the error-code and reason constants.
 */
module Resolution {
  import opened Wrappers
  import opened RubyValues

  /** The four flag types a provider resolves (`fetch_<type>_value`). */
  datatype FlagType = BooleanFlag | StringFlag | NumberFlag | ObjectFlag

  datatype ResolutionDetails = ResolutionDetails(
    value: Value,
    reason: Option<string>,
    variant: Option<string>,
    errorCode: Option<string>,
    errorMessage: Option<string>,
    flagMetadata: Value)

  /** `Provider::ErrorCode`. */
  const FlagNotFound := "FLAG_NOT_FOUND"
  const TypeMismatch := "TYPE_MISMATCH"
  const ProviderFatal := "PROVIDER_FATAL"

  /** `Provider::Reason`. */
  const StaticReason := "STATIC"
  const ErrorReason := "ERROR"

  /** `ResolutionDetails.new(value:, reason:, error_code:)`: every other member nil. */
  function Details(value: Value, reason: string, errorCode: Option<string>): ResolutionDetails {
    ResolutionDetails(value, Some(reason), None, errorCode, None, Nil)
  }
}
