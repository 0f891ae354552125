/**
 * `OpenFeature::SDK::Configuration`: the providers bound to domains (the
 * nil domain is the default), the hooks and the global context. Switching
 * the provider of a domain shuts the current one down, initialises the new one
 * and only then stores it.
 */
module Configurations {
  import opened Wrappers
  import opened RubyValues
  import opened EvaluationContexts
  import opened ProviderMetadata
  import opened FeatureProviders

  /** A domain name; `Nil` is the default domain. */
  type Domain = Value

  /** `@providers`: a stored entry may itself be nil (`set_provider(nil)`). */
  type Providers = map<Domain, Option<FeatureProvider>>

  /** A lifecycle method called on a provider, by provider identity. */
  datatype LifecycleCall = ShutdownCalled(provider: ObjectId) | InitCalled(provider: ObjectId)

  /** The effect of one `set_provider`: what it returns or raises, the new map, the calls made. */
  datatype SetResult = SetResult(outcome: Outcome<Error>, providers: Providers, calls: seq<LifecycleCall>)

  /** The error a zero-argument call to a one-argument `init` raises. */
  const InitArityMessage := "wrong number of arguments (given 0, expected 1)"

  const NilMetadataMessage := "undefined method 'metadata' for nil"

  const NoEvaluationContextMessage := "undefined method 'evaluation_context' for an instance of OpenFeature::SDK::Configuration"

  /** `@providers[domain]`: nil for a domain never set. */
  function Lookup(providers: Providers, domain: Domain): (p: Option<FeatureProvider>)
    ensures domain in providers ==> p == providers[domain]
    ensures p.Some? ==> domain in providers && providers[domain] == p
  {
    if domain in providers then providers[domain] else None
  }

  /** Whether the current provider's `shutdown` raises. */
  predicate ShutdownRaises(current: Option<FeatureProvider>) {
    RespondsToShutdown(current) && current.value.shutdown.raises.Some?
  }

  /** The error, if any, raised by calling `provider.init` with no argument. */
  function InitError(provider: Option<FeatureProvider>): (e: Option<Error>)
    ensures e.Some? ==> RespondsToInit(provider)
    ensures provider.Some? && provider.value.init.ContextInit? ==> e == Some(ArgumentError(InitArityMessage))
  {
    if provider.None? then None
    else match provider.value.init
      case NoInit => None
      case ZeroArgInit(raises) => raises
      case ContextInit => Some(ArgumentError(InitArityMessage))
  }

  /**
   * `set_provider(provider, domain:)`: shutdown of the provider stored for
   * the domain (if it responds to shutdown), then `init` of the new one (if
   * it responds to init), then the store. An error raised by either call
   * propagates and stops the rest.
   */
  function SetProviderStep(providers: Providers, provider: Option<FeatureProvider>, domain: Domain): (s: SetResult)
    ensures var current := Lookup(providers, domain);
      && (s.outcome.Pass? <==> !ShutdownRaises(current) && InitError(provider).None?)
      && (s.outcome.Pass? ==> s.providers == providers[domain := provider])
      && (s.outcome.Fail? ==> s.providers == providers)
      && (s.outcome.Fail? ==>
            s.outcome.error == if ShutdownRaises(current) then current.value.shutdown.raises.value else InitError(provider).value)
      && s.calls ==
            (if RespondsToShutdown(current) then [ShutdownCalled(current.value.id)] else [])
            + (if !ShutdownRaises(current) && RespondsToInit(provider) then [InitCalled(provider.value.id)] else [])
      && |s.calls| <= 2
  {
    var current := Lookup(providers, domain);
    var shutdownCalls := if RespondsToShutdown(current) then [ShutdownCalled(current.value.id)] else [];
    if ShutdownRaises(current) then
      SetResult(Fail(current.value.shutdown.raises.value), providers, shutdownCalls)
    else
      var calls := shutdownCalls + if RespondsToInit(provider) then [InitCalled(provider.value.id)] else [];
      match InitError(provider)
      case Some(e) => SetResult(Fail(e), providers, calls)
      case None => SetResult(Pass, providers[domain := provider], calls)
  }

  class Configuration {
    var context: Option<EvaluationContext>
    var hooks: seq<Value>
    var providers: Providers
    /** The `shutdown`/`init` calls made on providers so far, in order. */
    ghost var lifecycle: seq<LifecycleCall>

    constructor ()
      ensures hooks == [] && providers == map[] && context.None? && lifecycle == []
    {
      context := None;
      hooks := [];
      providers := map[];
      lifecycle := [];
    }

    /** `provider(domain: nil)`: exactly the entry for that domain, with no fallback. */
    function Provider(domain: Domain := Nil): (p: Option<FeatureProvider>)
      reads this
      ensures domain in providers ==> p == providers[domain]
      ensures p.Some? ==> domain in providers && providers[domain] == p
      ensures domain !in providers ==> p.None?
    {
      Lookup(providers, domain)
    }

    /** `metadata`, delegated to the default provider: NoMethodError when there is none. */
    function Metadata(): (r: Result<Metadata, Error>)
      reads this
      ensures r.Ok? <==> Provider().Some?
      ensures r.Ok? ==> r.value == Provider().value.metadata
    {
      match Provider()
      case None => Err(NoMethodError(NilMetadataMessage))
      case Some(p) => Ok(p.metadata)
    }

    /**
     * `evaluation_context` sent to a configuration, as `API` forwards it:
     * the class defines the `context` accessor but no `evaluation_context`,
     * so the call raises NoMethodError whatever the context holds.
     */
    function EvaluationContextAsWritten(): (r: Result<Option<EvaluationContext>, Error>)
      reads this
      ensures r.Err? && r.error.NoMethodError?
    {
      Err(NoMethodError(NoEvaluationContextMessage))
    }

    method SetProvider(provider: Option<FeatureProvider>, domain: Domain := Nil) returns (r: Outcome<Error>)
      modifies this
      ensures var s := SetProviderStep(old(providers), provider, domain);
        r == s.outcome && providers == s.providers && lifecycle == old(lifecycle) + s.calls
      ensures context == old(context) && hooks == old(hooks)
    {
      var current := Provider(domain);
      if RespondsToShutdown(current) {
        lifecycle := lifecycle + [ShutdownCalled(current.value.id)];
        if current.value.shutdown.raises.Some? {
          return Fail(current.value.shutdown.raises.value);
        }
      }
      if RespondsToInit(provider) {
        lifecycle := lifecycle + [InitCalled(provider.value.id)];
        var e := InitError(provider);
        if e.Some? {
          return Fail(e.value);
        }
      }
      providers := providers[domain := provider];
      r := Pass;
    }
  }

  /** After a successful set, the domain's provider is the one set, and no other domain changed. */
  lemma SetThenGet(providers: Providers, provider: Option<FeatureProvider>, domain: Domain, other: Domain)
    requires SetProviderStep(providers, provider, domain).outcome.Pass?
    requires other != domain
    ensures Lookup(SetProviderStep(providers, provider, domain).providers, domain) == provider
    ensures Lookup(SetProviderStep(providers, provider, domain).providers, other) == Lookup(providers, other)
  {
  }

  /** When the new provider's `init` raises, the old provider has already been shut down, yet stays stored. */
  lemma InitFailureAfterShutdown(providers: Providers, provider: Option<FeatureProvider>, domain: Domain)
    requires RespondsToShutdown(Lookup(providers, domain)) && !ShutdownRaises(Lookup(providers, domain))
    requires InitError(provider).Some?
    ensures var s := SetProviderStep(providers, provider, domain);
      && s.outcome == Fail(InitError(provider).value)
      && s.calls == [ShutdownCalled(Lookup(providers, domain).value.id), InitCalled(provider.value.id)]
      && Lookup(s.providers, domain) == Lookup(providers, domain)
  {
  }

  /**
   * A provider whose `init` takes the evaluation context cannot be set: the
   * zero-argument call raises ArgumentError and the domain keeps its old provider.
   */
  lemma ContextInitProviderIsRefused(providers: Providers, provider: FeatureProvider, domain: Domain)
    requires provider.init.ContextInit?
    requires !ShutdownRaises(Lookup(providers, domain))
    ensures SetProviderStep(providers, Some(provider), domain).outcome == Fail(ArgumentError(InitArityMessage))
    ensures SetProviderStep(providers, Some(provider), domain).providers == providers
  {
  }

  /** Setting nil stores nil: `provider(domain:)` is nil afterwards, as for a domain never set. */
  lemma SetNilProvider(providers: Providers, domain: Domain)
    requires !ShutdownRaises(Lookup(providers, domain))
    ensures SetProviderStep(providers, None, domain).outcome.Pass?
    ensures Lookup(SetProviderStep(providers, None, domain).providers, domain).None?
  {
  }
}
