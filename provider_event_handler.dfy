/**
 * `Provider::EventHandler`: the mixin a provider includes to emit lifecycle
 * events through an attached dispatcher. `owner` is the including provider
 * (`self`), by its object id.
 *
 * The repository's tests expect the dispatched details to be the caller's
 * details unchanged; the code adds `provider: self` to them, and this model
 * follows the code.
 */
module ProviderEventHandler {
  import opened Wrappers
  import opened RubyValues
  import opened ProviderEvents
  import opened Dispatch

  const ProviderKey: Value := Sym("provider")

  /** `details.merge(provider: self)`. */
  function WithProvider(details: Details, owner: ObjectId): (r: Details)
    ensures r.Keys == details.Keys + {ProviderKey} && r[ProviderKey] == Obj(owner)
    ensures forall k :: k in details && k != ProviderKey ==> r[k] == details[k]
  {
    details[ProviderKey := Obj(owner)]
  }

  class EventHandler {
    const owner: ObjectId
    var eventDispatcher: EventSink?

    constructor (owner: ObjectId)
      ensures this.owner == owner && eventDispatcher == null
    {
      this.owner := owner;
      eventDispatcher := null;
    }

    method Attach(dispatcher: EventSink)
      modifies this
      ensures eventDispatcher == dispatcher && EventDispatcherAttached()
    {
      eventDispatcher := dispatcher;
    }

    method Detach()
      modifies this
      ensures eventDispatcher == null && !EventDispatcherAttached()
    {
      eventDispatcher := null;
    }

    /** `event_dispatcher_attached?`. */
    function EventDispatcherAttached(): (b: bool)
      reads this
      ensures b <==> eventDispatcher != null
    {
      eventDispatcher != null
    }

    /**
     * `emit_event(event_type, details = {})`: without a dispatcher it returns
     * at once, even for an invalid event type; with one, an invalid type
     * raises ArgumentError and nothing is dispatched, and a valid one is
     * dispatched exactly once, with `provider: self` added to the details.
     * An error the dispatcher raises propagates.
     */
    method EmitEvent(e: ProviderEvent, details: Details := map[]) returns (r: Outcome<Error>)
      modifies eventDispatcher
      ensures eventDispatcher == old(eventDispatcher)
      ensures eventDispatcher == null ==> r == Pass
      ensures eventDispatcher != null && !ValidEvent(e) ==>
        r == Fail(ArgumentError(InvalidEventTypeMessage(e))) && eventDispatcher.received == old(eventDispatcher.received)
      ensures eventDispatcher != null && ValidEvent(e) ==>
        && eventDispatcher.received == old(eventDispatcher.received) + [DispatchCall(owner, e, WithProvider(details, owner))]
        && r == (if e in eventDispatcher.rejects then Fail(ExternalError(eventDispatcher.failureMessage)) else Pass)
    {
      var dispatcher := eventDispatcher;
      if dispatcher == null {
        return Pass;
      }
      if !ValidEvent(e) {
        return Fail(ArgumentError(InvalidEventTypeMessage(e)));
      }
      r := dispatcher.Dispatch(DispatchCall(owner, e, WithProvider(details, owner)));
    }
  }
}
