/**
 * The earlier `Provider::NoOpProvider` (under `lib/openfeature`): every
 * fetch answers with the default value and the reason "No-op". Its fetch
 * methods take `flag_key:`, `default_value:` and `evaluation_context:` and no
 * other keyword.
 */
module LegacyNoOpProvider {
  import opened Wrappers
  import opened RubyValues
  import opened Resolution
  import LegacyMetadata

  const ReasonNoOp := "No-op"
  const Name := "No-op Provider"

  /** `@metadata`: frozen, named "No-op Provider", without version. */
  const NoOpMetadata: LegacyMetadata.Metadata := LegacyMetadata.New(Name)

  /** `fetch_<type>_value(flag_key:, default_value:, evaluation_context: nil)` = `no_op(default_value)`. */
  function Fetch(flagType: FlagType, flagKey: Value, defaultValue: Value, evaluationContext: Option<Value> := None): (r: ResolutionDetails)
    ensures r.value == defaultValue
    ensures r.reason == Some(ReasonNoOp)
    ensures r.errorCode.None? && r.variant.None? && r.errorMessage.None?
  {
    Details(defaultValue, ReasonNoOp, None)
  }

  /** The answer depends on the default value alone. */
  lemma FetchIgnoresKeyAndContext(t1: FlagType, t2: FlagType, k1: Value, k2: Value, d: Value, c1: Option<Value>, c2: Option<Value>)
    ensures Fetch(t1, k1, d, c1) == Fetch(t2, k2, d, c2)
  {
  }

  /** The metadata carries the provider's name and no version. */
  lemma MetadataIsNamed()
    ensures NoOpMetadata.name == Name && NoOpMetadata.version.None?
  {
  }
}
