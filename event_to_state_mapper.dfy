/**
 * `EventToStateMapper`: which provider state an event leads to. `None` means
 * "no state" (Ruby `nil`), returned for a configuration change and for an
 * unknown event.
 *
 * The test suite of the repository expects CONFIGURATION_CHANGED to map to
 * READY and an unknown event to NOT_READY; the code returns nil for both,
 * and this model follows the code.
 */
module EventToStateMapper {
  import opened Wrappers
  import opened RubyValues
  import opened ProviderEvents

  /** Event details: a Ruby Hash, or nil. */
  type Details = Option<map<Value, Value>>

  /** The only key consulted: the Symbol `:error_code`. */
  const ErrorCodeKey: Value := Sym("error_code")

  /** `Provider::ErrorCode::PROVIDER_FATAL`. */
  const ProviderFatalCode: Value := Str("PROVIDER_FATAL")

  /** True when the details carry `:error_code => "PROVIDER_FATAL"` (`event_details&.dig(:error_code)`). */
  predicate IsFatal(details: Details) {
    details.Some? && ErrorCodeKey in details.value && details.value[ErrorCodeKey] == ProviderFatalCode
  }

  function StateFromErrorEvent(details: Details): (s: ProviderState)
    ensures s == Fatal || s == Error
    ensures s == Fatal <==> IsFatal(details)
  {
    if IsFatal(details) then Fatal else Error
  }

  function StateFromEvent(e: ProviderEvent, details: Details): (r: Option<ProviderState>)
    ensures r.None? <==> e == ProviderConfigurationChanged || e.UnknownEvent?
    ensures r.Some? ==> r.value in AllStates && r.value != NotReady
    ensures r == Some(Ready) <==> e == ProviderReady
    ensures r == Some(Stale) <==> e == ProviderStale
    ensures r == Some(Fatal) <==> e == ProviderError && IsFatal(details)
    ensures r == Some(Error) <==> e == ProviderError && !IsFatal(details)
  {
    match e
    case ProviderReady => Some(Ready)
    case ProviderStale => Some(Stale)
    case ProviderError => Some(StateFromErrorEvent(details))
    case ProviderConfigurationChanged => None
    case UnknownEvent(_, _) => None
  }

  /** Only an error event looks at the details, and only at the `:error_code` entry. */
  lemma DetailsOnlyMatterForErrors(e: ProviderEvent, d1: Details, d2: Details)
    requires e != ProviderError || IsFatal(d1) == IsFatal(d2)
    ensures StateFromEvent(e, d1) == StateFromEvent(e, d2)
  {
  }

  /** A String key "error_code", or a Symbol value :PROVIDER_FATAL, does not make an error fatal. */
  lemma OnlySymbolKeyAndStringCodeAreFatal(others: map<Value, Value>)
    requires ErrorCodeKey !in others
    ensures StateFromEvent(ProviderError, Some(others[Str("error_code") := ProviderFatalCode])) == Some(Error)
    ensures StateFromEvent(ProviderError, Some(others[ErrorCodeKey := Sym("PROVIDER_FATAL")])) == Some(Error)
    ensures StateFromEvent(ProviderError, None) == Some(Error)
  {
  }
}
