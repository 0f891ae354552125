/**
 * `Provider::EventAwareNoOpProvider`: a NoOpProvider that includes the
 * `EventHandler` mixin (here the `events` object, owned by this provider)
 * and announces PROVIDER_READY from `init`.
 */
module EventAwareNoOpProvider {
  import opened Wrappers
  import opened RubyValues
  import opened ProviderEvents
  import opened Resolution
  import opened EvaluationContexts
  import opened Dispatch
  import opened ProviderEventHandler
  import NoOp = NoOpProvider

  const MessageKey: Value := Sym("message")
  const ErrorCodeKey: Value := Sym("error_code")
  const ReadyMessage := "NoOp provider initialized"
  const InitializationError := "INITIALIZATION_ERROR"

  /** The details of the PROVIDER_READY event `init` emits. */
  const ReadyDetails: Details := map[MessageKey := Str(ReadyMessage)]

  /** The details of the PROVIDER_ERROR event emitted when announcing readiness raised `e`. */
  function FailureDetails(e: Error): (d: Details)
    ensures d.Keys == {MessageKey, ErrorCodeKey}
    ensures MessageKey in d && d[MessageKey] == Str("Failed to initialize: " + e.message)
    ensures ErrorCodeKey in d && d[ErrorCodeKey] == Str(InitializationError)
  {
    map[MessageKey := Str("Failed to initialize: " + e.message), ErrorCodeKey := Str(InitializationError)]
  }

  class EventAwareNoOpProvider {
    /** The `EventHandler` state of this provider; its owner is this provider. */
    const events: EventHandler

    constructor (id: ObjectId)
      ensures fresh(events) && events.owner == id && events.eventDispatcher == null
    {
      events := new EventHandler(id);
    }

    /**
     * `init(evaluation_context)`: emits PROVIDER_READY. If that raises, it
     * emits PROVIDER_ERROR describing the error and re-raises the original
     * error; an error raised by that second emit replaces it.
     */
    method Init(evaluationContext: Value) returns (r: Outcome<Error>)
      modifies events.eventDispatcher
      ensures events.eventDispatcher == old(events.eventDispatcher)
      ensures events.eventDispatcher == null ==> r == Pass
      ensures events.eventDispatcher != null ==>
        var sink := events.eventDispatcher;
        var id := events.owner;
        var ready := DispatchCall(id, ProviderReady, WithProvider(ReadyDetails, id));
        if ProviderReady !in sink.rejects then
          sink.received == old(sink.received) + [ready] && r == Pass
        else
          var failed := ExternalError(sink.failureMessage);
          && sink.received == old(sink.received) + [ready, DispatchCall(id, ProviderError, WithProvider(FailureDetails(failed), id))]
          && r == Fail(failed)
    {
      r := events.EmitEvent(ProviderReady, ReadyDetails);
      if r.Fail? {
        ghost var afterReady := events.eventDispatcher.received;
        var again := events.EmitEvent(ProviderError, FailureDetails(r.error));
        assert events.eventDispatcher.received == afterReady + [events.eventDispatcher.received[|afterReady|]];
        if again.Fail? {
          r := again;
        }
      }
    }

    /** `shutdown`: nothing to release. */
    method Shutdown()
      ensures unchanged(this)
    {
    }

    /** The inherited `fetch_<type>_value`. */
    function Fetch(flagType: FlagType, flagKey: Value, defaultValue: Value, evaluationContext: Option<EvaluationContext> := None): (r: ResolutionDetails)
      ensures r.value == defaultValue && r.reason == Some(NoOp.ReasonNoOp) && r.errorCode.None?
    {
      NoOp.Fetch(flagType, flagKey, defaultValue, evaluationContext)
    }
  }
}
