/**
 * `OpenFeature::SDK::Client`: the generated `fetch_<type>_details` and
 * `fetch_<type>_value` methods read the API's evaluation context, build the
 * evaluation context from the API, client and invocation contexts, ask the
 * client's provider, and wrap its answer with the flag key. The client does
 * no type checking of its own.
 *
 * Reading the API context is a call that can raise: as written it always
 * raises NoMethodError (see `Configurations.Configuration.EvaluationContextAsWritten`),
 * so the fetches take its outcome as a `Result`.
 */
module Clients {
  import opened Wrappers
  import opened RubyValues
  import opened Resolution
  import opened EvaluationContexts
  import opened EvaluationContextBuilder
  import opened FeatureProviders
  import opened Configurations
  import NoOp = NoOpProvider

  /** `ClientMetadata.new(domain:)`. */
  datatype ClientMetadata = ClientMetadata(domain: Value)

  /** The provider a client holds: one taken from the configuration, or a NoOpProvider made for it. */
  datatype ProviderRef = Configured(provider: FeatureProvider) | FreshNoOp

  datatype Client = Client(
    provider: ProviderRef,
    metadata: ClientMetadata,
    evaluationContext: Option<EvaluationContext>,
    hooks: seq<Value>)

  /** `Client.new(provider:, domain: nil, evaluation_context: nil)`. */
  function NewClient(provider: ProviderRef, domain: Value := Nil, evaluationContext: Option<EvaluationContext> := None): (c: Client)
    ensures c.hooks == [] && c.metadata.domain == domain
    ensures c.provider == provider && c.evaluationContext == evaluationContext
  {
    Client(provider, ClientMetadata(domain), evaluationContext, [])
  }

  /** `EvaluationDetails`: the flag key and the provider's resolution details. */
  datatype EvaluationDetails = EvaluationDetails(flagKey: Value, resolutionDetails: ResolutionDetails) {
    /** `value`, delegated to the resolution details. */
    function Value(): (v: Value)
      ensures v == resolutionDetails.value
    {
      resolutionDetails.value
    }
  }

  /** The provider's fetch: a NoOpProvider's for a fresh one, the provider's own otherwise. */
  function ResolverOf(provider: ProviderRef): (f: Fetch)
    ensures provider.Configured? ==> f == provider.provider.fetch
  {
    match provider
    case FreshNoOp => (t: FlagType, k: Value, d: Value, c: Option<EvaluationContext>) => NoOp.Fetch(t, k, d, c)
    case Configured(p) => p.fetch
  }

  /**
   * `fetch_<type>_details(flag_key:, default_value:, evaluation_context: nil)`.
   * `apiContext` is the outcome of reading `OpenFeature::SDK.evaluation_context`:
   * when that raises, the error propagates and the provider is not asked.
   */
  function FetchDetails(client: Client, apiContext: Result<Option<EvaluationContext>, Error>,
                        flagType: FlagType, flagKey: Value, defaultValue: Value,
                        invocationContext: Option<EvaluationContext> := None): (r: Result<EvaluationDetails, Error>)
    ensures apiContext.Err? ==> r == Err(apiContext.error)
    ensures apiContext.Ok? ==> r.Ok? && r.value.flagKey == flagKey
    ensures apiContext.Ok? ==>
      r.value.resolutionDetails == ResolverOf(client.provider)(flagType, flagKey, defaultValue, Build(apiContext.value, client.evaluationContext, invocationContext))
  {
    match apiContext
    case Err(e) => Err(e)
    case Ok(api) =>
      var builtContext := Build(api, client.evaluationContext, invocationContext);
      Ok(EvaluationDetails(flagKey, ResolverOf(client.provider)(flagType, flagKey, defaultValue, builtContext)))
  }

  /** `fetch_<type>_value`: the value of the details. */
  function FetchValue(client: Client, apiContext: Result<Option<EvaluationContext>, Error>,
                      flagType: FlagType, flagKey: Value, defaultValue: Value,
                      invocationContext: Option<EvaluationContext> := None): (r: Result<Value, Error>)
    ensures r.Ok? <==> apiContext.Ok?
    ensures r.Err? ==> r.error == apiContext.error
    ensures r.Ok? ==> r.value == FetchDetails(client, apiContext, flagType, flagKey, defaultValue, invocationContext).value.Value()
  {
    match FetchDetails(client, apiContext, flagType, flagKey, defaultValue, invocationContext)
    case Err(e) => Err(e)
    case Ok(details) => Ok(details.Value())
  }

  /**
   * As written, every fetch raises NoMethodError before the provider is
   * asked, whatever the client, its provider and the configuration hold.
   */
  lemma FetchRaisesAsWritten(config: Configuration, client: Client, flagType: FlagType, flagKey: Value, defaultValue: Value,
                             invocationContext: Option<EvaluationContext>)
    ensures FetchDetails(client, config.EvaluationContextAsWritten(), flagType, flagKey, defaultValue, invocationContext)
         == Err(NoMethodError(NoEvaluationContextMessage))
    ensures FetchValue(client, config.EvaluationContextAsWritten(), flagType, flagKey, defaultValue, invocationContext)
         == Err(NoMethodError(NoEvaluationContextMessage))
  {
  }

  /**
   * Corrected (the API context read from the configuration's `context`):
   * the provider sees the API context's value for a key that neither the
   * client nor the invocation context holds.
   */
  lemma GlobalContextReachesProvider(client: Client, context: EvaluationContext, flagType: FlagType, flagKey: Value,
                                     defaultValue: Value, invocation: Option<EvaluationContext>, key: string)
    requires key in context.fields
    requires client.evaluationContext.None? || key !in client.evaluationContext.value.fields
    requires invocation.None? || key !in invocation.value.fields
    ensures var built := Build(Some(context), client.evaluationContext, invocation);
      && built.Some? && key in built.value.fields && built.value.fields[key] == context.fields[key]
      && FetchDetails(client, Ok(Some(context)), flagType, flagKey, defaultValue, invocation)
         == Ok(EvaluationDetails(flagKey, ResolverOf(client.provider)(flagType, flagKey, defaultValue, built)))
  {
    BuildPrecedence(Some(context), client.evaluationContext, invocation, key);
  }

  /** A client holding a fresh NoOpProvider answers every fetch with the default and reason "No-op". */
  lemma NoOpClientServesDefault(client: Client, apiContext: Option<EvaluationContext>, flagType: FlagType,
                                flagKey: Value, defaultValue: Value, invocationContext: Option<EvaluationContext>)
    requires client.provider == FreshNoOp
    ensures FetchValue(client, Ok(apiContext), flagType, flagKey, defaultValue, invocationContext) == Ok(defaultValue)
    ensures FetchDetails(client, Ok(apiContext), flagType, flagKey, defaultValue, invocationContext).value.resolutionDetails.reason
         == Some(NoOp.ReasonNoOp)
  {
  }

  /**
   * No type checking: whatever a configured provider answers, of whatever
   * class, is served as is, error code included.
   */
  lemma ClientDoesNoTypeChecking(client: Client, apiContext: Option<EvaluationContext>, flagType: FlagType,
                                 flagKey: Value, defaultValue: Value, invocationContext: Option<EvaluationContext>)
    requires client.provider.Configured?
    ensures var answer := client.provider.provider.fetch(flagType, flagKey, defaultValue,
                                                         Build(apiContext, client.evaluationContext, invocationContext));
      && FetchValue(client, Ok(apiContext), flagType, flagKey, defaultValue, invocationContext) == Ok(answer.value)
      && FetchDetails(client, Ok(apiContext), flagType, flagKey, defaultValue, invocationContext).value.resolutionDetails == answer
  {
  }

  /**
   * The provider sees the invocation context's value for a key it holds,
   * over the client's and the API's.
   */
  lemma ProviderSeesInvocationContextFirst(client: Client, apiContext: Option<EvaluationContext>,
                                          flagType: FlagType, flagKey: Value, defaultValue: Value,
                                          invocation: EvaluationContext, key: string)
    requires key in invocation.fields
    ensures var built := Build(apiContext, client.evaluationContext, Some(invocation));
      && built.Some? && key in built.value.fields && built.value.fields[key] == invocation.fields[key]
      && FetchDetails(client, Ok(apiContext), flagType, flagKey, defaultValue, Some(invocation))
         == Ok(EvaluationDetails(flagKey, ResolverOf(client.provider)(flagType, flagKey, defaultValue, built)))
  {
    BuildPrecedence(apiContext, client.evaluationContext, Some(invocation), key);
  }
}
