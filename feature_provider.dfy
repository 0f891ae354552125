/**
 * What the configuration, the API and a client need to know about a
 * provider object: its identity, its metadata, its `fetch_<type>_value`
 * methods, and whether it responds to `shutdown` and `init` (and whether
 * those raise). The `init(evaluation_context)` of a provider written
 * against the newer interface takes one argument.
 */
module FeatureProviders {
  import opened Wrappers
  import opened RubyValues
  import opened Resolution
  import opened EvaluationContexts
  import opened ProviderMetadata

  /** A provider's `fetch_<type>_value(flag_key:, default_value:, evaluation_context:)`. */
  type Fetch = (FlagType, Value, Value, Option<EvaluationContext>) -> ResolutionDetails

  datatype ShutdownCapability = NoShutdown | HasShutdown(raises: Option<Error>)

  datatype InitCapability =
    | NoInit
    | ZeroArgInit(raises: Option<Error>)
    | ContextInit

  datatype FeatureProvider = FeatureProvider(
    id: ObjectId,
    metadata: Metadata,
    fetch: Fetch,
    shutdown: ShutdownCapability,
    init: InitCapability)

  /** `provider.respond_to?(:shutdown)`; nil responds to neither method. */
  predicate RespondsToShutdown(p: Option<FeatureProvider>) {
    p.Some? && p.value.shutdown.HasShutdown?
  }

  /** `provider.respond_to?(:init)`. */
  predicate RespondsToInit(p: Option<FeatureProvider>) {
    p.Some? && !p.value.init.NoInit?
  }
}
