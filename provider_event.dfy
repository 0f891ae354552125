/**
 * The provider lifecycle events and states (`ProviderEvent`, `ProviderState`).
 * In Ruby both are string constants; an event type outside `ALL_EVENTS`
 * (any other object) is `UnknownEvent`, told apart by an opaque token so that
 * it can never coincide with a known constant, and carrying its `to_s`.
 */
module ProviderEvents {

  datatype ProviderEvent =
    | ProviderReady
    | ProviderError
    | ProviderConfigurationChanged
    | ProviderStale
    | UnknownEvent(token: nat, display: string)
  {
    /** The constant's string value, for the four known events. */
    function Name(): string
      requires !UnknownEvent?
    {
      match this
      case ProviderReady => "PROVIDER_READY"
      case ProviderError => "PROVIDER_ERROR"
      case ProviderConfigurationChanged => "PROVIDER_CONFIGURATION_CHANGED"
      case ProviderStale => "PROVIDER_STALE"
    }
  }

  /** `event_type.to_s` as interpolated into an error message. */
  function ToS(e: ProviderEvent): string {
    if e.UnknownEvent? then e.display else e.Name()
  }

  /** `"Invalid event type: #{event_type}"`, shared by the three raisers. */
  function InvalidEventTypeMessage(e: ProviderEvent): string {
    "Invalid event type: " + ToS(e)
  }

  const AllEvents: seq<ProviderEvent> :=
    [ProviderReady, ProviderError, ProviderConfigurationChanged, ProviderStale]

  /** `ALL_EVENTS.include?(event_type)`. */
  predicate ValidEvent(e: ProviderEvent)
    ensures ValidEvent(e) <==> !e.UnknownEvent?
  {
    e in AllEvents
  }

  datatype ProviderState = NotReady | Ready | Error | Stale | Fatal

  const AllStates: seq<ProviderState> := [NotReady, Ready, Error, Stale, Fatal]
}
