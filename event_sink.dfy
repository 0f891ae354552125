/**
 * The object a provider forwards its events to: the dispatcher attached to
 * an `EventHandler` provider (`dispatch_event`), or the configuration
 * attached to a `Provider::EventEmitter` provider (`dispatch_provider_event`).
 * Its own behaviour lies outside the model; it records what it receives and
 * raises on the event types in `rejects`.
 */
module Dispatch {
  import opened Wrappers
  import opened RubyValues
  import opened ProviderEvents

  type Details = map<Value, Value>

  /** One forwarded event: the emitting provider, the event type and the details. */
  datatype DispatchCall = DispatchCall(provider: ObjectId, event: ProviderEvent, details: Details)

  class EventSink {
    var received: seq<DispatchCall>
    const rejects: set<ProviderEvent>
    const failureMessage: string

    constructor (rejects: set<ProviderEvent>, failureMessage: string)
      ensures received == [] && this.rejects == rejects && this.failureMessage == failureMessage
    {
      received := [];
      this.rejects := rejects;
      this.failureMessage := failureMessage;
    }

    method Dispatch(call: DispatchCall) returns (r: Outcome<Error>)
      modifies this
      ensures received == old(received) + [call]
      ensures r == if call.event in rejects then Fail(ExternalError(failureMessage)) else Pass
    {
      received := received + [call];
      r := if call.event in rejects then Fail(ExternalError(failureMessage)) else Pass;
    }
  }
}
