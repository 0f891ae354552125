/**
 * `Provider::EventEmitter`: the mixin a provider includes to forward its
 * events to an attached configuration (`dispatch_provider_event`). The
 * `Configuration` class of this repository has no `dispatch_provider_event`
 * method, so a real configuration attached here would raise NoMethodError on
 * every valid emit; that behaviour is the sink's `rejects` set.
 */
module ProviderEventEmitter {
  import opened Wrappers
  import opened RubyValues
  import opened ProviderEvents
  import opened Dispatch


  class EventEmitter {
    const owner: ObjectId
    var configuration: EventSink?

    constructor (owner: ObjectId)
      ensures this.owner == owner && configuration == null
    {
      this.owner := owner;
      configuration := null;
    }

    method Attach(configuration: EventSink)
      modifies this
      ensures this.configuration == configuration && ConfigurationAttached()
    {
      this.configuration := configuration;
    }

    method Detach()
      modifies this
      ensures configuration == null && !ConfigurationAttached()
    {
      configuration := null;
    }

    /** `configuration_attached?`. */
    function ConfigurationAttached(): (b: bool)
      reads this
      ensures b <==> configuration != null
    {
      configuration != null
    }

    /**
     * `emit_event(event_type, details = {})`: nothing without a configuration;
     * ArgumentError before any dispatch for an invalid event type; otherwise
     * exactly one forward of `(self, event_type, details)`, details unchanged.
     */
    method EmitEvent(e: ProviderEvent, details: Details := map[]) returns (r: Outcome<Error>)
      modifies configuration
      ensures configuration == old(configuration)
      ensures configuration == null ==> r == Pass
      ensures configuration != null && !ValidEvent(e) ==>
        r == Fail(ArgumentError(InvalidEventTypeMessage(e))) && configuration.received == old(configuration.received)
      ensures configuration != null && ValidEvent(e) ==>
        && configuration.received == old(configuration.received) + [DispatchCall(owner, e, details)]
        && r == (if e in configuration.rejects then Fail(ExternalError(configuration.failureMessage)) else Pass)
    {
      var config := configuration;
      if config == null {
        return Pass;
      }
      if !ValidEvent(e) {
        return Fail(ArgumentError(InvalidEventTypeMessage(e)));
      }
      r := config.Dispatch(DispatchCall(owner, e, details));
    }
  }
}
