/**
 * The earlier `OpenFeature::SDK::Metadata` (under `lib/openfeature`): a name
 * and an optional version, both copied at construction, compared by value.
 */
module LegacyMetadata {
  import opened Wrappers

  datatype Metadata = Metadata(name: string, version: Option<string>)

  /**
   * `Metadata.new(name:, version: nil)`: `name.dup` and `version.dup` are
   * copies, so later changes to the caller's strings do not reach the
   * metadata; as values, the stored strings equal the arguments.
   */
  function New(name: string, version: Option<string> := None): (m: Metadata)
    ensures m.name == name && m.version == version
  {
    Metadata(name, version)
  }

  /** `==`: names and versions both equal. */
  function Equals(self: Metadata, other: Metadata): (b: bool)
    ensures b <==> self == other
  {
    self.name == other.name && self.version == other.version
  }

  /** `==` holds exactly for metadata built from the same arguments. */
  lemma EqualsIffSameArguments(n1: string, v1: Option<string>, n2: string, v2: Option<string>)
    ensures Equals(New(n1, v1), New(n2, v2)) <==> n1 == n2 && v1 == v2
  {
  }

  /** Two instances built from the same name alone are equal. */
  lemma SameNameIsEqual(name: string)
    ensures Equals(New(name), New(name))
  {
  }
}
