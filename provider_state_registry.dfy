/**
 * `ProviderStateRegistry`: the current state of each provider, keyed by the
 * provider's `object_id`. A nil provider is `None`. A stored `None` is the
 * `nil` that `update_state_from_event` writes for an event with no state.
 */
module StateRegistry {
  import opened Wrappers
  import opened RubyValues
  import opened ProviderEvents
  import EventToStateMapper

  type States = map<ObjectId, Option<ProviderState>>

  /** `@states[provider.object_id] || NOT_READY`, and NOT_READY for a nil provider. */
  function StateOf(states: States, provider: Option<ObjectId>): (s: ProviderState)
    ensures s == NotReady <==>
      provider.None? || provider.value !in states || states[provider.value] in {None, Some(NotReady)}
    ensures s != NotReady ==> states[provider.value] == Some(s)
  {
    if provider.None? then NotReady
    else if provider.value in states && states[provider.value].Some? then states[provider.value].value
    else NotReady
  }

  /**
   * A configuration change, or an unknown event, overwrites the stored state
   * with nil, so the provider reads as NOT_READY afterwards whatever it was
   * before. The repository's tests expect the old state to be kept; the code
   * does not keep it.
   */
  lemma NoStateEventResetsToNotReady(states: States, p: ObjectId, e: ProviderEvent, details: EventToStateMapper.Details)
    requires e == ProviderConfigurationChanged || e.UnknownEvent?
    ensures StateOf(states[p := EventToStateMapper.StateFromEvent(e, details)], Some(p)) == NotReady
  {
  }

  class ProviderStateRegistry {
    var states: States

    constructor ()
      ensures states == map[]
    {
      states := map[];
    }

    /** `set_initial_state(provider, state = NOT_READY)`: nothing happens for a nil provider. */
    method SetInitialState(provider: Option<ObjectId>, state: ProviderState := NotReady)
      modifies this
      ensures provider.None? ==> states == old(states)
      ensures provider.Some? ==> states == old(states)[provider.value := Some(state)]
      ensures GetState(provider) == (if provider.None? then NotReady else state)
    {
      if provider.None? {
        return;
      }
      states := states[provider.value := Some(state)];
    }

    /**
     * `update_state_from_event`: stores the mapper's result for the provider,
     * whatever it is, and returns it; NOT_READY and no write for a nil provider.
     */
    method UpdateStateFromEvent(provider: Option<ObjectId>, e: ProviderEvent, details: EventToStateMapper.Details := None)
      returns (r: Option<ProviderState>)
      modifies this
      ensures provider.None? ==> r == Some(NotReady) && states == old(states)
      ensures provider.Some? ==> r == EventToStateMapper.StateFromEvent(e, details)
      ensures provider.Some? ==> states == old(states)[provider.value := r]
      ensures forall q :: q != provider ==> GetState(q) == StateOf(old(states), q)
    {
      if provider.None? {
        return Some(NotReady);
      }
      r := EventToStateMapper.StateFromEvent(e, details);
      states := states[provider.value := r];
    }

    /** `get_state`: the stored state, NOT_READY for a nil, unknown or nil-stored provider. */
    function GetState(provider: Option<ObjectId>): (s: ProviderState)
      reads this
      ensures s == NotReady <==>
        provider.None? || provider.value !in states || states[provider.value] in {None, Some(NotReady)}
      ensures s != NotReady ==> states[provider.value] == Some(s)
    {
      StateOf(states, provider)
    }

    method RemoveProvider(provider: Option<ObjectId>)
      modifies this
      ensures provider.None? ==> states == old(states)
      ensures provider.Some? ==> states == old(states) - {provider.value}
      ensures GetState(provider) == NotReady
      ensures forall q :: q != provider ==> GetState(q) == StateOf(old(states), q)
    {
      if provider.None? {
        return;
      }
      states := states - {provider.value};
    }

    /** `ready?`. */
    predicate IsReady(provider: Option<ObjectId>)
      reads this
      ensures IsReady(provider) <==> provider.Some? && provider.value in states && states[provider.value] == Some(Ready)
    {
      GetState(provider) == Ready
    }

    /** `error?`: ERROR or FATAL. */
    predicate IsError(provider: Option<ObjectId>)
      reads this
      ensures IsError(provider) <==>
        provider.Some? && provider.value in states && states[provider.value] in {Some(Error), Some(Fatal)}
    {
      GetState(provider) in {Error, Fatal}
    }

    method Clear()
      modifies this
      ensures states == map[]
      ensures forall q :: GetState(q) == NotReady
    {
      states := map[];
    }
  }

  /** After an event, `ready?` holds exactly for PROVIDER_READY and `error?` exactly for PROVIDER_ERROR. */
  lemma ReadinessAfterEvent(states: States, p: ObjectId, e: ProviderEvent, details: EventToStateMapper.Details)
    ensures var s := StateOf(states[p := EventToStateMapper.StateFromEvent(e, details)], Some(p));
      && (s == Ready <==> e == ProviderReady)
      && (s in {Error, Fatal} <==> e == ProviderError)
  {
  }
}
