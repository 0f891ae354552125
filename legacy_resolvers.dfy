/**
 * `Resolver::BooleanResolver` and `Resolver::NumberResolver`: they ask the
 * provider for a value and serve it only if its exact class fits, falling
 * back to the default value otherwise.
 *
 * As written, both pass `evaluation_options:` to the provider's
 * `fetch_<type>_value`, a keyword the provider interface does not declare;
 * a provider that follows the interface (such as the no-op provider)
 * rejects the call with ArgumentError. The members suffixed `AsWritten`
 * model that call; the others pass only the declared keywords.
 */
module LegacyResolvers {
  import opened Wrappers
  import opened RubyValues
  import opened Resolution
  import LegacyNoOp = LegacyNoOpProvider

  datatype ResolverKind = BooleanResolver | NumberResolver

  /**
   * A provider: its `fetch_<type>_value` with the declared keywords (which
   * may raise), and whether it also accepts an `evaluation_options:` keyword.
   */
  datatype LegacyProvider = LegacyProvider(
    fetch: (FlagType, Value, Value, Option<Value>) -> Result<ResolutionDetails, Error>,
    acceptsOptions: bool)

  const UnknownKeywordMessage := "unknown keyword: :evaluation_options"

  /** The earlier no-op provider: declared keywords only. */
  function NoOpProvider(): LegacyProvider {
    LegacyProvider((t: FlagType, k: Value, d: Value, c: Option<Value>) => Ok(LegacyNoOp.Fetch(t, k, d, c)), false)
  }

  function FlagTypeOf(kind: ResolverKind): FlagType {
    match kind
    case BooleanResolver => BooleanFlag
    case NumberResolver => NumberFlag
  }

  /** `correct_type?`: the exact class is TrueClass or FalseClass, resp. Float or Integer. */
  function CorrectType(kind: ResolverKind, value: Value): (b: bool)
    ensures kind.BooleanResolver? ==> (b <==> value.Bool?)
    ensures kind.NumberResolver? ==> (b <==> IsNumeric(value))
  {
    match kind
    case BooleanResolver => ClassOf(value) in {TrueClass, FalseClass}
    case NumberResolver => ClassOf(value) in {FloatClass, IntegerClass}
  }

  /** The call `@provider.fetch_<type>_value(..., evaluation_options:)`, the keyword always passed. */
  function CallWithOptions(provider: LegacyProvider, flagType: FlagType, flagKey: Value, defaultValue: Value,
                           evaluationContext: Option<Value>, evaluationOptions: Option<Value>): (r: Result<ResolutionDetails, Error>)
    ensures !provider.acceptsOptions ==> r == Err(ArgumentError(UnknownKeywordMessage))
    ensures provider.acceptsOptions ==> r == provider.fetch(flagType, flagKey, defaultValue, evaluationContext)
  {
    if provider.acceptsOptions then provider.fetch(flagType, flagKey, defaultValue, evaluationContext)
    else Err(ArgumentError(UnknownKeywordMessage))
  }

  /** The served value of a provider's answer. */
  function Served(kind: ResolverKind, details: ResolutionDetails, defaultValue: Value): (v: Value)
    ensures CorrectType(kind, details.value) ==> v == details.value
    ensures !CorrectType(kind, details.value) ==> v == defaultValue
  {
    if CorrectType(kind, details.value) then details.value else defaultValue
  }

  /** `fetch_value` as written. */
  function FetchValueAsWritten(kind: ResolverKind, provider: LegacyProvider, flagKey: Value, defaultValue: Value,
                               evaluationContext: Option<Value> := None, evaluationOptions: Option<Value> := None): (r: Result<Value, Error>)
    ensures !provider.acceptsOptions ==> r == Err(ArgumentError(UnknownKeywordMessage))
    ensures r.Ok? ==> CorrectType(kind, r.value) || r.value == defaultValue
  {
    match CallWithOptions(provider, FlagTypeOf(kind), flagKey, defaultValue, evaluationContext, evaluationOptions)
    case Err(e) => Err(e)
    case Ok(details) => Ok(Served(kind, details, defaultValue))
  }

  /** `fetch_detailed_value` as written: the provider's details, unchanged. */
  function FetchDetailedValueAsWritten(kind: ResolverKind, provider: LegacyProvider, flagKey: Value, defaultValue: Value,
                                       evaluationContext: Option<Value> := None, evaluationOptions: Option<Value> := None): (r: Result<ResolutionDetails, Error>)
    ensures !provider.acceptsOptions ==> r == Err(ArgumentError(UnknownKeywordMessage))
    ensures provider.acceptsOptions ==> r == provider.fetch(FlagTypeOf(kind), flagKey, defaultValue, evaluationContext)
  {
    CallWithOptions(provider, FlagTypeOf(kind), flagKey, defaultValue, evaluationContext, evaluationOptions)
  }

  /** `fetch_value`, calling the provider with the declared keywords only. */
  function FetchValue(kind: ResolverKind, provider: LegacyProvider, flagKey: Value, defaultValue: Value,
                      evaluationContext: Option<Value> := None): (r: Result<Value, Error>)
    ensures var answer := provider.fetch(FlagTypeOf(kind), flagKey, defaultValue, evaluationContext);
      && (r.Err? <==> answer.Err?)
      && (r.Err? ==> r.error == answer.error)
      && (answer.Ok? && CorrectType(kind, answer.value.value) ==> r == Ok(answer.value.value))
      && (answer.Ok? && !CorrectType(kind, answer.value.value) ==> r == Ok(defaultValue))
  {
    match provider.fetch(FlagTypeOf(kind), flagKey, defaultValue, evaluationContext)
    case Err(e) => Err(e)
    case Ok(details) => Ok(Served(kind, details, defaultValue))
  }

  /** `fetch_detailed_value`, calling the provider with the declared keywords only. */
  function FetchDetailedValue(kind: ResolverKind, provider: LegacyProvider, flagKey: Value, defaultValue: Value,
                              evaluationContext: Option<Value> := None): (r: Result<ResolutionDetails, Error>)
    ensures r == provider.fetch(FlagTypeOf(kind), flagKey, defaultValue, evaluationContext)
  {
    provider.fetch(FlagTypeOf(kind), flagKey, defaultValue, evaluationContext)
  }

  /** A well-typed default always yields a well-typed value. */
  lemma ServedValueIsWellTyped(kind: ResolverKind, provider: LegacyProvider, flagKey: Value, defaultValue: Value,
                               evaluationContext: Option<Value>)
    requires CorrectType(kind, defaultValue)
    ensures var r := FetchValue(kind, provider, flagKey, defaultValue, evaluationContext);
      r.Ok? ==> CorrectType(kind, r.value)
  {
  }

  /** As written, resolving through the no-op provider raises ArgumentError. */
  lemma NoOpProviderRejectsResolverAsWritten(kind: ResolverKind, flagKey: Value, defaultValue: Value)
    ensures FetchValueAsWritten(kind, NoOpProvider(), flagKey, defaultValue) == Err(ArgumentError(UnknownKeywordMessage))
    ensures FetchDetailedValueAsWritten(kind, NoOpProvider(), flagKey, defaultValue) == Err(ArgumentError(UnknownKeywordMessage))
  {
  }

  /** Resolving through the no-op provider serves the default value and passes its "No-op" details on. */
  lemma NoOpProviderServesDefault(kind: ResolverKind, flagKey: Value, defaultValue: Value)
    requires CorrectType(kind, defaultValue)
    ensures FetchValue(kind, NoOpProvider(), flagKey, defaultValue) == Ok(defaultValue)
    ensures FetchDetailedValue(kind, NoOpProvider(), flagKey, defaultValue) == Ok(LegacyNoOp.Fetch(FlagTypeOf(kind), flagKey, defaultValue))
  {
  }

  /** The two agree on every provider that accepts the extra keyword. */
  lemma AsWrittenAgreesWhenOptionsAccepted(kind: ResolverKind, provider: LegacyProvider, flagKey: Value, defaultValue: Value,
                                           evaluationContext: Option<Value>, evaluationOptions: Option<Value>)
    requires provider.acceptsOptions
    ensures FetchValueAsWritten(kind, provider, flagKey, defaultValue, evaluationContext, evaluationOptions)
         == FetchValue(kind, provider, flagKey, defaultValue, evaluationContext)
  {
  }
}
