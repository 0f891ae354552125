# OpenFeature Ruby SDK — provider lifecycle, events, flag resolution and evaluation context in Dafny

This project models the core of the OpenFeature Ruby SDK:

- the **event plumbing**: the SDK-side `EventEmitter` (handler lists per
  event type, triggered with snapshot semantics and a rescue that only
  catches `StandardError`), the `EventToStateMapper`, the
  `ProviderStateRegistry` keyed by provider `object_id`, and the two
  provider-side mixins (`Provider::EventHandler` and `Provider::EventEmitter`)
  that forward events to an attached dispatcher or configuration;
- the **provider lifecycle**: `Configuration#set_provider` (shutdown of the
  old provider, `init` of the new one, then the store), `API#configuration`,
  `API#configure` and `API#build_client`, and the `EventAwareNoOpProvider`
  whose `init` emits PROVIDER_READY, or PROVIDER_ERROR and re-raises;
- **flag resolution**: `NoOpProvider`, `InMemoryProvider` (type check by
  exact class, FLAG_NOT_FOUND and TYPE_MISMATCH), `ResolutionDetails`,
  `EvaluationDetails` and the client's generated `fetch_<type>_value` /
  `fetch_<type>_details` methods;
- the **evaluation-context algebra**: `EvaluationContext.new(**fields)`,
  `field`, `targeting_key`, `merge`, `==`, and `EvaluationContextBuilder#call`
  with its API < client < invocation precedence;
- **hook hints** (`Hooks::Hints`: key and value validation, frozen copy) and
  provider **metadata** equality;
- the **legacy `lib/openfeature` pieces**: `Evaluation::Context` (including the
  worklist `deep_freeze`), `Metadata`, the legacy `NoOpProvider` and the
  boolean and number resolvers.

Ruby objects are the datatype `RubyValues.Value`; Floats and Times are opaque
tokens. Objects the source mutates in place are classes: the Hash behind an
`InMemoryProvider` or a legacy context (`RubyValues.RubyHash`, with its
frozen flag and default value), the emitter, the registry, the
configuration, hints and the event sinks. Code outside the model becomes a
parameter: a handler's behaviour when called (`TriggerEvent`'s `outcome`), a
dispatcher's or configuration's response to an event (`Dispatch.EventSink`'s
`rejects`), a provider's capabilities (`FeatureProviders.FeatureProvider`:
its `fetch_<type>_value` methods, whether it has `shutdown`/`init`, the
arity of `init`, and what they raise), and whether `ClientMetadata.new`
raises.

Where the repository's tests and the code disagree, the model follows the
code: `EventToStateMapper` returns nil for CONFIGURATION_CHANGED and for an
unknown event (the tests expect READY and NOT_READY);
`ProviderStateRegistry#update_state_from_event` then stores that nil, so the
provider reads as NOT_READY (`StateRegistry.NoStateEventResetsToNotReady`);
and `Provider::EventHandler#emit_event` adds `provider: self` to the details
(the tests expect them unchanged).

## Model

| member | source | states |
|---|---|---|
| Emitter.DeleteRemovesEveryOccurrence | lib/open_feature/sdk/event_emitter.rb:34-40 | `Array#delete` removes every occurrence of the handler and keeps every other handler with its multiplicity |
| Emitter.DeleteAbsentIsNoOp | lib/open_feature/sdk/event_emitter.rb:34-40 | removing a handler that is not registered leaves the list unchanged |
| Emitter.DeleteIdempotent | lib/open_feature/sdk/event_emitter.rb:34-40 | removing the same handler twice equals removing it once |
| Emitter.Delete | lib/open_feature/sdk/event_emitter.rb:38 | `Array#delete` never lengthens the list and keeps exactly the other handlers |
| Emitter.EventEmitter.constructor | lib/open_feature/sdk/event_emitter.rb:11-15 | one empty handler list for each of the four event types and none other |
| Emitter.EventEmitter.AddHandler | lib/open_feature/sdk/event_emitter.rb:21-28 | ArgumentError "Invalid event type: …" for an unknown type, then "Handler must respond to call" for a non-callable handler, nothing stored on either; otherwise the handler is appended to that type's list and its count grows by one |
| Emitter.EventEmitter.HandlerCount | lib/open_feature/sdk/event_emitter.rb:80-86 | the number of handlers registered for a known event type, 0 for an unknown one |
| Emitter.EventEmitter.RemoveHandler | lib/open_feature/sdk/event_emitter.rb:34-40 | unknown type or absent handler: no change; otherwise every occurrence is removed from that type's list only, and the handler is gone afterwards |
| Emitter.EventEmitter.RemoveAllHandlers | lib/open_feature/sdk/event_emitter.rb:45-51 | empties the list of a known type, touches nothing for an unknown type |
| Emitter.EventEmitter.ClearAllHandlers | lib/open_feature/sdk/event_emitter.rb:89-93 | every list becomes empty and the set of event types is kept |
| Emitter.EventEmitter.TriggerEvent | lib/open_feature/sdk/event_emitter.rb:57-74 | handlers of a snapshot are called in registration order with the same details; a StandardError is rescued and the loop goes on; a non-StandardError stops the loop at that handler and escapes; unknown type calls nothing; with no escape every handler is called once |
| ProviderEvents.ValidEvent | lib/open_feature/sdk/event_emitter.rb:97-99 | `valid_event?` holds exactly for the four ProviderEvent constants |
| EventToStateMapper.StateFromErrorEvent | lib/open_feature/sdk/event_to_state_mapper.rb:26-33 | FATAL exactly when the details carry `:error_code => "PROVIDER_FATAL"`, ERROR otherwise (nil details included) |
| EventToStateMapper.StateFromEvent | lib/open_feature/sdk/event_to_state_mapper.rb:11-24 | READY iff PROVIDER_READY, STALE iff PROVIDER_STALE, FATAL/ERROR iff PROVIDER_ERROR with/without the fatal code, nil iff CONFIGURATION_CHANGED or an unknown event; never NOT_READY |
| EventToStateMapper.DetailsOnlyMatterForErrors | lib/open_feature/sdk/event_to_state_mapper.rb:11-33 | details change the state only for an error event, and only through the fatal check |
| EventToStateMapper.OnlySymbolKeyAndStringCodeAreFatal | lib/open_feature/sdk/event_to_state_mapper.rb:26-33 | a String key "error_code", a Symbol code, or nil details do not make an error fatal |
| StateRegistry.StateOf | lib/open_feature/sdk/provider_state_registry.rb:36-42 | NOT_READY iff the provider is nil, unknown, or stored as nil/NOT_READY; any other state is the stored one |
| StateRegistry.ProviderStateRegistry.GetState | lib/open_feature/sdk/provider_state_registry.rb:36-42 | the stored state; NOT_READY for a nil provider, an unknown one, or one stored as nil |
| StateRegistry.ProviderStateRegistry.IsReady | lib/open_feature/sdk/provider_state_registry.rb:52-54 | `ready?` iff the provider is stored as READY |
| StateRegistry.ProviderStateRegistry.IsError | lib/open_feature/sdk/provider_state_registry.rb:56-59 | `error?` iff the provider is stored as ERROR or FATAL |
| StateRegistry.NoStateEventResetsToNotReady | lib/open_feature/sdk/provider_state_registry.rb:24-34 | after CONFIGURATION_CHANGED or an unknown event the provider reads NOT_READY whatever it was before |
| StateRegistry.ProviderStateRegistry.SetInitialState | lib/open_feature/sdk/provider_state_registry.rb:16-22 | stores the state (NOT_READY by default) for a provider and reads it back; a nil provider changes nothing |
| StateRegistry.ProviderStateRegistry.UpdateStateFromEvent | lib/open_feature/sdk/provider_state_registry.rb:24-34 | nil provider: returns NOT_READY, no write; otherwise stores and returns the mapper's result; no other provider's state changes |
| StateRegistry.ProviderStateRegistry.RemoveProvider | lib/open_feature/sdk/provider_state_registry.rb:44-50 | the provider reads NOT_READY afterwards, the others are unchanged |
| StateRegistry.ProviderStateRegistry.Clear | lib/open_feature/sdk/provider_state_registry.rb:61-65 | every provider reads NOT_READY afterwards |
| StateRegistry.ReadinessAfterEvent | lib/open_feature/sdk/provider_state_registry.rb:52-59 | after an event, `ready?` holds iff it was PROVIDER_READY and `error?` iff it was PROVIDER_ERROR |
| Dispatch.EventSink.Dispatch | lib/open_feature/sdk/provider/event_handler.rb:54 | the sink records the forwarded call and raises exactly for the event types it rejects |
| ProviderEventHandler.WithProvider | lib/open_feature/sdk/provider/event_handler.rb:52 | the dispatched details are the caller's plus `:provider => self`, every other entry kept |
| ProviderEventHandler.EventHandler.Attach | lib/open_feature/sdk/provider/event_handler.rb:29-31 | the dispatcher is attached and `event_dispatcher_attached?` holds |
| ProviderEventHandler.EventHandler.Detach | lib/open_feature/sdk/provider/event_handler.rb:35-37 | the dispatcher is removed and `event_dispatcher_attached?` fails |
| ProviderEventHandler.EventHandler.EventDispatcherAttached | lib/open_feature/sdk/provider/event_handler.rb:60-62 | `event_dispatcher_attached?` holds exactly while a dispatcher is set |
| ProviderEventHandler.EventHandler.EmitEvent | lib/open_feature/sdk/provider/event_handler.rb:43-55 | no dispatcher: returns, even for an invalid type; invalid type: ArgumentError and nothing dispatched; valid type: exactly one dispatch of (self, type, details + provider), whose error propagates |
| ProviderEventEmitter.EventEmitter.Attach | lib/open_feature/sdk/provider/event_emitter.rb:27-29 | the configuration is attached and `configuration_attached?` holds |
| ProviderEventEmitter.EventEmitter.Detach | lib/open_feature/sdk/provider/event_emitter.rb:31-33 | the configuration is removed and `configuration_attached?` fails |
| ProviderEventEmitter.EventEmitter.ConfigurationAttached | lib/open_feature/sdk/provider/event_emitter.rb:21-23 | `configuration_attached?` holds exactly while a configuration is set |
| ProviderEventEmitter.EventEmitter.EmitEvent | lib/open_feature/sdk/provider/event_emitter.rb:10-19 | no configuration: nothing; invalid type: ArgumentError before any forward; valid type: exactly one forward of (self, type, details) with the details unchanged, whose error propagates |
| EvaluationContexts.NormalizeKeys | lib/open_feature/sdk/evaluation_context.rb:8-10 | `transform_keys(&:to_s)`: a field exists iff some keyword argument's key stringifies to it |
| EvaluationContexts.NormalizeLastWins | lib/open_feature/sdk/evaluation_context.rb:8-10 | when two keys stringify alike, the later argument's value is kept |
| EvaluationContexts.Normalize | lib/open_feature/sdk/evaluation_context.rb:9 | the String keys are exactly the `to_s` of the keyword keys |
| EvaluationContexts.New | lib/open_feature/sdk/evaluation_context.rb:8-10 | a new context has one field per distinct printed keyword key |
| EvaluationContexts.EvaluationContext.TargetingKeyValue | lib/open_feature/sdk/evaluation_context.rb:12-14 | the `"targeting_key"` field, nil when absent |
| EvaluationContexts.EvaluationContext.Field | lib/open_feature/sdk/evaluation_context.rb:16-18 | `field` looks the key up as given: a String key yields its stored value, and any key not stored, in particular every Symbol key, yields nil |
| EvaluationContexts.EvaluationContext.Merge | lib/open_feature/sdk/evaluation_context.rb:20-25 | the merged keys are both sides' keys plus `targeting_key`; every overriding field wins and every other base field is kept |
| EvaluationContexts.EvaluationContext.Equals | lib/open_feature/sdk/evaluation_context.rb:27-29 | `==` holds iff both contexts have the same keys with the same values |
| EvaluationContexts.MergeFields | lib/open_feature/sdk/evaluation_context.rb:20-25 | a merged context holds every field of either side, the overriding side winning, plus `targeting_key` |
| EvaluationContexts.MergeTargetingKey | lib/open_feature/sdk/evaluation_context.rb:20-25 | a truthy overriding targeting key wins; with none in the overriding context the base's (or nil) is kept |
| EvaluationContexts.MergeFalsyTargetingKey | lib/open_feature/sdk/evaluation_context.rb:20-25 | for any base, an overriding context that holds `targeting_key` as nil or false passes that value on and erases the base's key, because the fields splat comes after the explicit keyword |
| EvaluationContexts.MergeIntoEmpty | lib/open_feature/sdk/evaluation_context.rb:20-25 | merging a context into `EvaluationContext.new` yields that context with its targeting key entry added (nil when missing), so the result is the same context iff it already had one |
| EvaluationContextBuilder.Available | lib/open_feature/sdk/evaluation_context_builder.rb:6 | `compact` keeps the given contexts in API, client, invocation order and drops exactly the nil ones; empty iff all three are nil |
| EvaluationContextBuilder.Values | lib/open_feature/sdk/evaluation_context_builder.rb:6 | one element for a given context, none for nil |
| EvaluationContextBuilder.MergeAll | lib/open_feature/sdk/evaluation_context_builder.rb:10-12 | the `reduce` result has a field iff the start or some merged context has it, plus `targeting_key` after at least one merge |
| EvaluationContextBuilder.Build | lib/open_feature/sdk/evaluation_context_builder.rb:5-13 | nil iff all three contexts are nil |
| EvaluationContextBuilder.MergeAllKeeps | lib/open_feature/sdk/evaluation_context_builder.rb:10-12 | the reduce keeps a field that no later context holds |
| EvaluationContextBuilder.MergeAllPresent | lib/open_feature/sdk/evaluation_context_builder.rb:10-12 | a field present before stays present, and `targeting_key` is always present after one merge |
| EvaluationContextBuilder.MergeAllLastWins | lib/open_feature/sdk/evaluation_context_builder.rb:10-12 | a field takes the value of the last context that holds it |
| EvaluationContextBuilder.MergeAllNilTargetingKey | lib/open_feature/sdk/evaluation_context_builder.rb:10-12 | with no context holding a targeting key the result holds `targeting_key => nil` |
| EvaluationContextBuilder.BuildPrecedence | lib/open_feature/sdk/evaluation_context_builder.rb:5-13 | a field comes from the invocation context if it holds it, else from the client's, else from the API's |
| EvaluationContextBuilder.BuildTargetingKey | lib/open_feature/sdk/evaluation_context_builder.rb:5-13 | a built context always has a `targeting_key` field, nil when no context provides one |
| EvaluationContextBuilder.BuildSingleWithTargetingKey | lib/open_feature/sdk/evaluation_context_builder.rb:5-13 | a single context that has a targeting key is returned equal to itself |
| EvaluationContextBuilder.BuildSingleWithoutTargetingKey | lib/open_feature/sdk/evaluation_context_builder.rb:5-13 | a single context without one comes back with `targeting_key => nil` added, so not `==` to the input |
| ProviderMetadata.EqualsAsWritten | lib/open_feature/sdk/metadata.rb:31-35 | as written: NoMethodError for a non-Metadata argument, a boolean otherwise |
| ProviderMetadata.Equals | lib/open_feature/sdk/metadata.rb:31-35 | ArgumentError iff the argument is not a Metadata; otherwise true iff name and version are equal |
| ProviderMetadata.EqualsAsWrittenRaisesNoMethodError | lib/open_feature/sdk/metadata.rb:32 | comparing with a non-Metadata raises NoMethodError as written, ArgumentError as intended |
| ProviderMetadata.EqualsAgreeOnMetadata | lib/open_feature/sdk/metadata.rb:31-35 | the two definitions agree on every Metadata argument |
| ProviderMetadata.EqualityIgnoresDomain | lib/open_feature/sdk/metadata.rb:25-35 | metadata differing only in domain are equal |
| ProviderMetadata.EqualsReflexiveSymmetric | lib/open_feature/sdk/metadata.rb:31-35 | equality is reflexive and symmetric |
| NoOpProvider.Fetch | lib/open_feature/sdk/provider/no_op_provider.rb:37-57 | every fetch returns the default value with reason "No-op", no error code, variant or message |
| NoOpProvider.FetchIgnoresKeyTypeAndContext | lib/open_feature/sdk/provider/no_op_provider.rb:37-51 | the answer depends on the default value only |
| InMemoryProvider.Resolve | lib/open_feature/sdk/provider/in_memory_provider.rb:48-60 | a stored value of an allowed class is served with reason STATIC; nil gives FLAG_NOT_FOUND and any other class TYPE_MISMATCH, both with the default and reason ERROR |
| InMemoryProvider.ServedValueHasRequestedType | lib/open_feature/sdk/provider/in_memory_provider.rb:28-42 | a value served without an error code is of a class allowed for the requested type, and one served with an error code is the default |
| InMemoryProvider.AtMostOneTypeAccepts | lib/open_feature/sdk/provider/in_memory_provider.rb:28-42 | no stored value is served without error for two different flag types |
| InMemoryProvider.FetchAfterAddFlag | lib/open_feature/sdk/provider/in_memory_provider.rb:23-26 | after `add_flag(k, v)` fetching `k` resolves `v`, and every other key resolves as before |
| InMemoryProvider.InMemoryProvider.constructor | lib/open_feature/sdk/provider/in_memory_provider.rb:10-13 | keeps the caller's Hash (shared, not copied) and names itself "In-memory Provider" |
| InMemoryProvider.InMemoryProvider.Empty | lib/open_feature/sdk/provider/in_memory_provider.rb:10 | without an argument the flags are a new empty Hash |
| InMemoryProvider.InMemoryProvider.AddFlag | lib/open_feature/sdk/provider/in_memory_provider.rb:23-26 | stores the value under the key; raises FrozenError and changes nothing when the Hash is frozen |
| InMemoryProvider.InMemoryProvider.Fetch | lib/open_feature/sdk/provider/in_memory_provider.rb:28-60 | looks the key up in the shared Hash (its default value for a missing key) and resolves it as above |
| RubyValues.RubyHash.Get | lib/open_feature/sdk/provider/in_memory_provider.rb:49 | `hash[key]`: the stored value, the Hash's default for a missing key |
| RubyValues.RubyHash.Store | lib/open_feature/sdk/provider/in_memory_provider.rb:24 | `hash[key] = value` stores and reads back; FrozenError and no change on a frozen Hash |
| RubyValues.RubyHash.Freeze | lib/openfeature/sdk/evaluation/context.rb:17 | freezing keeps the entries |
| EventAwareNoOpProvider.FailureDetails | lib/open_feature/sdk/provider/event_aware_no_op_provider.rb:28-30 | the error event's details: message "Failed to initialize: …" and error code INITIALIZATION_ERROR, nothing else |
| EventAwareNoOpProvider.EventAwareNoOpProvider.Init | lib/open_feature/sdk/provider/event_aware_no_op_provider.rb:23-32 | no dispatcher: passes silently; READY accepted: one READY dispatch and success; READY raises: READY then ERROR dispatched and the error re-raised |
| EventAwareNoOpProvider.EventAwareNoOpProvider.Fetch | lib/open_feature/sdk/provider/event_aware_no_op_provider.rb:19 | inherits NoOpProvider's answers: the default value, reason "No-op", no error |
| EventAwareNoOpProvider.EventAwareNoOpProvider.Shutdown | lib/open_feature/sdk/provider/event_aware_no_op_provider.rb:34-37 | `shutdown` releases nothing and changes no state |
| Configurations.Lookup | lib/open_feature/sdk/configuration.rb:25-27 | `@providers[domain]`: the stored entry for a domain that has one, nil for any other, and a provider is found only under exactly its domain |
| Configurations.InitError | lib/open_feature/sdk/configuration.rb:36 | the zero-argument `init` call raises only for a provider that has `init`, and always for a one-argument `init` |
| Configurations.SetProviderStep | lib/open_feature/sdk/configuration.rb:33-39 | passes iff neither the old provider's shutdown nor the new one's init raises; on success the domain maps to the new provider, on failure the map is unchanged; on failure the error is the one raised by the old provider's shutdown, else by the new provider's init; the calls are exactly shutdown (when the old provider responds) followed by init (when shutdown did not raise and the new provider responds) |
| Configurations.Configuration.constructor | lib/open_feature/sdk/configuration.rb:20-23 | no hooks, no providers |
| Configurations.Configuration.Provider | lib/open_feature/sdk/configuration.rb:25-27 | the stored entry for a domain that has one (a provider or nil), nil for one never set, with no fallback to the default domain |
| Configurations.Configuration.Metadata | lib/open_feature/sdk/configuration.rb:18 | the default provider's metadata; NoMethodError when there is no default provider |
| Configurations.Configuration.EvaluationContextAsWritten | lib/open_feature/sdk/configuration.rb:16 | the configuration defines `context` but no `evaluation_context`, so that call raises NoMethodError |
| Configurations.Configuration.SetProvider | lib/open_feature/sdk/configuration.rb:33-39 | result, new provider map and lifecycle calls are those of `SetProviderStep`; context and hooks untouched |
| Configurations.SetThenGet | lib/open_feature/sdk/configuration.rb:33-39 | after a successful set the domain yields the new provider and every other domain is unchanged |
| Configurations.InitFailureAfterShutdown | lib/open_feature/sdk/configuration.rb:34-38 | when the new provider's init raises, the old provider has been shut down yet stays stored |
| Configurations.ContextInitProviderIsRefused | lib/open_feature/sdk/configuration.rb:36 | a provider whose `init` takes the context cannot be set: ArgumentError and the map is unchanged |
| Configurations.SetNilProvider | lib/open_feature/sdk/configuration.rb:33-39 | `set_provider(nil)` succeeds and the domain then yields nil |
| Api.API.GetConfiguration | lib/open_feature/sdk/api.rb:37-39 | the configuration is created once, empty, and the same object is returned afterwards |
| Api.API.Configure | lib/open_feature/sdk/api.rb:41-45 | without a block nothing happens; with one the block receives the (memoised) configuration |
| Api.API.BuildClient | lib/open_feature/sdk/api.rb:47-53 | the client holds the domain's provider, or a fresh NoOpProvider when there is none, with the domain and context; when building raises, a NoOp client with the context and no domain |
| Api.API.EvaluationContextAsWritten | lib/open_feature/sdk/api.rb:35 | as written, the forwarded `evaluation_context` raises NoMethodError |
| Api.API.GlobalContext | lib/open_feature/sdk/api.rb:35 | corrected, the global context is the configuration's `context` |
| Api.API.FetchDetailsAsWritten | lib/open_feature/sdk/client.rb:29 | as written, a client fetch raises NoMethodError before its provider is asked |
| Api.API.FetchDetails | lib/open_feature/sdk/client.rb:28-33 | corrected, a client fetch returns the details built over the configuration's `context` |
| Clients.NewClient | lib/open_feature/sdk/client.rb:15-20 | a client keeps its provider, domain and context and starts with no hooks |
| Clients.EvaluationDetails.Value | lib/open_feature/sdk/evaluation_details.rb:3-7 | `value` is the resolution details' value |
| Clients.ResolverOf | lib/open_feature/sdk/client.rb:30 | the client asks its own provider: a fresh NoOpProvider's fetch, or the configured provider's fetch |
| Clients.FetchDetails | lib/open_feature/sdk/client.rb:28-33 | when reading the API context raises, that error propagates and the provider is not asked; otherwise the client's provider is asked with the context built from API, client and invocation contexts, and the details carry the flag key |
| Clients.FetchValue | lib/open_feature/sdk/client.rb:32 | the value form fails exactly when the details form does, with the same error, and otherwise is the value of the details |
| Clients.FetchRaisesAsWritten | lib/open_feature/sdk/client.rb:29 | as written, every fetch of every client raises NoMethodError from reading `OpenFeature::SDK.evaluation_context` |
| Clients.GlobalContextReachesProvider | lib/open_feature/sdk/client.rb:29-30 | corrected, the provider sees the API context's value for a key neither the client nor the invocation context holds |
| Clients.NoOpClientServesDefault | lib/open_feature/sdk/client.rb:28-33 | a client holding a fresh NoOpProvider answers every fetch with the default and reason "No-op" |
| Clients.ClientDoesNoTypeChecking | lib/open_feature/sdk/client.rb:28-33 | whatever a configured provider answers, of whatever class and error code, is served unchanged |
| Clients.ProviderSeesInvocationContextFirst | lib/open_feature/sdk/client.rb:29-30 | the client's provider sees the invocation context's value for every key it holds |
| HookHints.Validate | lib/open_feature/sdk/hooks/hints.rb:10-13 | passes iff every key is a String or Symbol and every value of an allowed class; otherwise raises the error of the first bad entry, the key checked before the value |
| HookHints.AllowedKey | lib/open_feature/sdk/hooks/hints.rb:21-23 | `assert_allowed_key` accepts exactly instances of String and Symbol |
| HookHints.AllowedValue | lib/open_feature/sdk/hooks/hints.rb:25-28 | `assert_allowed_value` accepts an instance of any of String, Symbol, Numeric, TrueClass, FalseClass, Time, Hash, Array, so of every modelled class but NilClass and plain objects |
| HookHints.ToMapHoldsEntries | lib/open_feature/sdk/hooks/hints.rb:14 | the copy holds exactly the given entries |
| HookHints.Hints.constructor | lib/open_feature/sdk/hooks/hints.rb:15-16 | hints start frozen over the given entries |
| HookHints.Hints.Get | lib/open_feature/sdk/hooks/hints.rb:6 | `[]` on the delegated Hash: the stored value, or the default value `hash.dup` kept from the caller's Hash when absent |
| HookHints.Hints.Store | lib/open_feature/sdk/hooks/hints.rb:16 | a frozen Hints refuses `[]=` with FrozenError and keeps its entries |
| HookHints.Hints.Delete | lib/open_feature/sdk/hooks/hints.rb:16 | a frozen Hints refuses `delete` with FrozenError and keeps its entries |
| HookHints.New | lib/open_feature/sdk/hooks/hints.rb:9-17 | raises exactly the validation error; otherwise new frozen hints holding a copy of the entries and the Hash's default value |
| HookHints.FrozenHintsRefuseChanges | lib/open_feature/sdk/hooks/hints.rb:9-17 | any successfully built Hints refuses both a store and a delete |
| LegacyMetadata.New | lib/openfeature/sdk/metadata.rb:32-35 | keeps name and version (nil by default) |
| LegacyMetadata.Equals | lib/openfeature/sdk/metadata.rb:38-40 | `==` holds exactly when name and version are both equal, i.e. for equal metadata values |
| LegacyMetadata.EqualsIffSameArguments | lib/openfeature/sdk/metadata.rb:38-40 | two metadata are `==` iff built with equal name and version |
| LegacyMetadata.SameNameIsEqual | lib/openfeature/sdk/metadata.rb:18-21 | two metadata with the same name only are equal, as the class comment promises |
| LegacyNoOpProvider.Fetch | lib/openfeature/sdk/provider/no_op_provider.rb:40-82 | every fetch returns the default value with reason "No-op", no error code, variant or message |
| LegacyNoOpProvider.FetchIgnoresKeyAndContext | lib/openfeature/sdk/provider/no_op_provider.rb:40-75 | the answer depends on the default value only |
| LegacyNoOpProvider.MetadataIsNamed | lib/openfeature/sdk/provider/no_op_provider.rb:27-31 | its metadata is named "No-op Provider" with no version |
| LegacyResolvers.CallWithOptions | lib/openfeature/sdk/resolver/boolean_resolver.rb:38 | passing `evaluation_options:` to a provider fetch that does not take it raises ArgumentError (unknown keyword) |
| LegacyResolvers.Served | lib/openfeature/sdk/resolver/boolean_resolver.rb:39 | the provider's value when `correct_type?` holds, the default otherwise |
| LegacyResolvers.CorrectType | lib/openfeature/sdk/resolver/boolean_resolver.rb:57-59 | `correct_type?`: the boolean resolver accepts exactly true and false, the number resolver exactly Integer and Float |
| LegacyResolvers.FetchValueAsWritten | lib/openfeature/sdk/resolver/number_resolver.rb:38-41 | as written: ArgumentError for every provider without `evaluation_options:`; otherwise a well-typed value or the default |
| LegacyResolvers.FetchDetailedValueAsWritten | lib/openfeature/sdk/resolver/number_resolver.rb:51-53 | as written: ArgumentError for every provider without `evaluation_options:`; otherwise the provider's details unchanged |
| LegacyResolvers.FetchValue | lib/openfeature/sdk/resolver/boolean_resolver.rb:37-40 | corrected: the provider's value if of the resolver's type (true/false, or Integer/Float), else the default |
| LegacyResolvers.FetchDetailedValue | lib/openfeature/sdk/resolver/boolean_resolver.rb:50-52 | corrected: the provider's details unchanged, with no type check |
| LegacyResolvers.ServedValueIsWellTyped | lib/openfeature/sdk/resolver/number_resolver.rb:57-59 | with a well-typed default, `fetch_value` always yields a value of the resolver's type |
| LegacyResolvers.NoOpProviderRejectsResolverAsWritten | lib/openfeature/sdk/provider/provider.rb:35 | as written, both resolver methods raise ArgumentError over the legacy NoOpProvider |
| LegacyResolvers.NoOpProviderServesDefault | lib/openfeature/sdk/resolver/boolean_resolver.rb:37-52 | corrected, the resolvers over the legacy NoOpProvider serve the default and its No-op details |
| LegacyResolvers.AsWrittenAgreesWhenOptionsAccepted | lib/openfeature/sdk/resolver/boolean_resolver.rb:37-52 | for a provider that takes `evaluation_options:` the as-written and corrected resolvers agree |
| LegacyEvaluationContext.AtExtend | lib/openfeature/sdk/evaluation/context.rb:38-41 | following one more key from a nested Hash reaches that Hash's entry |
| LegacyEvaluationContext.AtInPaths | lib/openfeature/sdk/evaluation/context.rb:33-44 | every reachable position is one of the finitely many paths that bound the worklist |
| LegacyEvaluationContext.Context.Wrap | lib/openfeature/sdk/evaluation/context.rb:13 | the delegator wraps the Hash itself, nothing frozen yet |
| LegacyEvaluationContext.Context.Store | lib/openfeature/sdk/evaluation/context.rb:7 | `[]=` stores through the delegated Hash; FrozenError and no change once frozen |
| LegacyEvaluationContext.Context.TargetingKey | lib/openfeature/sdk/evaluation/context.rb:21-23 | `self[:targeting_key]`: the stored entry, or the Hash's default value when absent |
| LegacyEvaluationContext.Context.SetTargetingKey | lib/openfeature/sdk/evaluation/context.rb:25-29 | ArgumentError for a non-String; otherwise stored under `:targeting_key` and read back, FrozenError once frozen |
| LegacyEvaluationContext.Context.Freeze | lib/openfeature/sdk/evaluation/context.rb:16-19 | the Hash is frozen with its entries unchanged, and afterwards exactly the positions `deep_freeze` reaches are frozen: every Hash among the top-level values, and every key and value inside such a Hash, transitively |
| LegacyEvaluationContext.Context.FreezeEntries | lib/openfeature/sdk/evaluation/context.rb:38-42 | one `hash.each` step freezes every key and value of that Hash and pushes exactly its Hash-valued children |
| LegacyEvaluationContext.TopLevelHashes | lib/openfeature/sdk/evaluation/context.rb:34 | the worklist starts with exactly the top-level Hash values |
| LegacyEvaluationContext.New | lib/openfeature/sdk/evaluation/context.rb:9-14 | a non-Hash raises "context must be a Hash"; a `Concurrent::Hash` is shared; any other Hash is copied and loses its default; with no argument `targeting_key` is `{}` |
| LegacyEvaluationContext.DeepFreezeExample | lib/openfeature/sdk/evaluation/context.rb:33-44 | freezing `{a: {b: {c: 1}}, d: "s"}` freezes the nested Hashes, the Integer and the inner keys, not the top-level String or keys |
| LegacyEvaluationContext.DeepFreezeSkipsTopLevelScalars | lib/openfeature/sdk/evaluation/context.rb:34 | a top-level non-Hash value, and a top-level key, are never frozen by `deep_freeze` |

## Left out

- Mutexes and threads: every emitter and registry operation is one atomic step; a handler that re-enters the emitter during `trigger_event` is not modelled (handlers never touch the emitter here).
- `Provider::ContextAwareStateHandler`, the asynchronous `set_provider_and_wait` paths, hooks execution and logging (`warn`) are outside the modelled files.
- `lib/open_feature/sdk.rb` is not part of this model; `OpenFeature::SDK.evaluation_context` is taken to reach `API#evaluation_context`, and the client fetch is modelled as a method of `Api.API` for that reason.
- `ProviderMetadata` (used by `InMemoryProvider`) is not part of this model; it is modelled with the current `Metadata`.
- `ClientMetadata` is not part of this model; whether `ClientMetadata.new` raises is the `metadataRaises` parameter of `Api.API.BuildClient`.
- Api.API.BuildClient: the `ClientMetadata.new` inside the rescue (api.rb:52) is taken to succeed, so an error it raised, which would leave `build_client`, is not modelled.
- Sorbet `sig` runtime type checks in `lib/openfeature` are not modelled; arguments are taken as the Ruby values given.
- The legacy `NoOpProvider#no_op` signature (lib/openfeature/sdk/provider/no_op_provider.rb:79-80) declares a `variant` parameter the method does not take, which sorbet-runtime may reject at the first call; `LegacyNoOpProvider.Fetch` assumes no sig validation.
- `LegacyEvaluationContext.Context.Freeze`: values are finite trees, so a Hash that contains itself cannot be expressed; on such a Hash `deep_freeze` pushes it again on every visit and never ends.
- The legacy object resolver, legacy API singleton, legacy client and hook interfaces are outside the modelled files.
- `InMemoryProvider#init` and `#shutdown` are no-ops and have no member; `EventAwareNoOpProvider.EventAwareNoOpProvider.Shutdown` is modelled as a method that changes nothing.
- A provider's `fetch_<type>_value` is a total function in `FeatureProviders.FeatureProvider`, so a fetch that raises cannot be expressed in `Clients.FetchDetails`; and event details are an optional Hash in `EventToStateMapper`, so non-Hash details, on which `dig` raises NoMethodError, are outside the model.
- Floats and Times are opaque tokens; Ruby's `1 == 1.0` and numeric class hierarchy beyond Integer/Float are not modelled.
- Hash insertion order: Hashes are maps, so `LegacyEvaluationContext.Context.Freeze` still pops its worklist as a stack, but the order in which one Hash's entries are visited and its Hash-valued children pushed is an arbitrary choice rather than insertion order; hints keep no order either. The set of frozen objects does not depend on that order.
- Frozen objects of a legacy context are recorded as paths, so two positions holding the same Ruby object are tracked separately.
- `EvaluationContext#==` with a non-context argument (NoMethodError on `fields`) is not modelled; both sides are contexts.
- Error messages raised by Ruby itself (FrozenError, NoMethodError, ArgumentError for a bad keyword) are kept by kind; their exact text is approximate.
- `HookHints.New`: Hashes are given as lists of distinct keys, so the caller must pass distinct keys, as every Ruby Hash has.
- `Provider::EventEmitter#attach`/`#detach` are private in Ruby; the model exposes them as methods.

## Findings

| source | as written | input that shows it | evidently intended | confidence | as-written member | corrected member |
|---|---|---|---|---|---|---|
| lib/open_feature/sdk/metadata.rb:32 | `raise ArgumentError("...")` calls a method named `ArgumentError`, which does not exist, so NoMethodError is raised | `Metadata.new(name: "a") == "a"` | `raise ArgumentError, "Expected comparison to be between Metadata object"` | not executed; Ruby resolves `Const(...)` as a method call | ProviderMetadata.EqualsAsWrittenRaisesNoMethodError | ProviderMetadata.Equals |
| lib/openfeature/sdk/resolver/boolean_resolver.rb:38 | the boolean and number resolvers call `fetch_*_value(..., evaluation_options:)`, a keyword the provider interface (lib/openfeature/sdk/provider/provider.rb:35) and the legacy NoOpProvider do not take, so every call raises ArgumentError | `BooleanResolver.new(NoOpProvider.new).fetch_value(flag_key: "f", default_value: true)` | call the provider with `flag_key:, default_value:, evaluation_context:` only | not executed; Ruby rejects unknown keywords | LegacyResolvers.NoOpProviderRejectsResolverAsWritten | LegacyResolvers.NoOpProviderServesDefault |
| lib/open_feature/sdk/api.rb:35 | `def_delegators :configuration, ..., :evaluation_context` forwards to a method Configuration does not define (it has only `attr_accessor :context, :hooks`, configuration.rb:16), so `OpenFeature::SDK.evaluation_context`, read by every client fetch at client.rb:29, raises NoMethodError before the provider is asked | `client.fetch_boolean_value(flag_key: "f", default_value: false)` on any client | forward `evaluation_context` to the configuration's `context` | not executed; Forwardable calls the method on the target, which lacks it | Clients.FetchRaisesAsWritten | Clients.GlobalContextReachesProvider |
