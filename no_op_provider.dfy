/**
 * `Provider::NoOpProvider`: every fetch answers with the caller's default
 * value and the reason "No-op".
 */
module NoOpProvider {
  import opened Wrappers
  import opened RubyValues
  import opened Resolution
  import opened EvaluationContexts
  import opened ProviderMetadata

  const ReasonNoOp := "No-op"
  const Name := "No-op Provider"

  /** `metadata`: frozen, named "No-op Provider", no version or domain. */
  const NoOpMetadata: Metadata := Metadata(Str(Name))

  /**
   * `fetch_<type>_value(flag_key:, default_value:, evaluation_context: nil)`,
   * which is `no_op(default_value)` for every type.
   */
  function Fetch(flagType: FlagType, flagKey: Value, defaultValue: Value, evaluationContext: Option<EvaluationContext> := None): (r: ResolutionDetails)
    ensures r.value == defaultValue
    ensures r.reason == Some(ReasonNoOp)
    ensures r.errorCode.None? && r.variant.None? && r.errorMessage.None?
  {
    Details(defaultValue, ReasonNoOp, None)
  }

  /** The answer depends on the default value alone. */
  lemma FetchIgnoresKeyTypeAndContext(t1: FlagType, t2: FlagType, k1: Value, k2: Value, d: Value,
                                      c1: Option<EvaluationContext>, c2: Option<EvaluationContext>)
    ensures Fetch(t1, k1, d, c1) == Fetch(t2, k2, d, c2)
  {
  }
}
