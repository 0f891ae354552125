/**
 * `OpenFeature::SDK::Metadata`: name, version and domain of a provider or
 * client. Equality compares name and version only.
 */
module ProviderMetadata {
  import opened Wrappers
  import opened RubyValues

  /** `Metadata.new(name:, version: nil, domain: nil)` stores its arguments as given. */
  datatype Metadata = Metadata(name: Value, version: Value := Nil, domain: Value := Nil)

  /** The right-hand side of `==`: a Metadata, or an object of another class. */
  datatype Comparand = MetadataValue(m: Metadata) | OtherObject(v: Value)

  const NotMetadataMessage := "Expected comparison to be between Metadata object"

  /**
   * `==` as written: the guard calls `ArgumentError(...)` as a method, and
   * no such method exists, so a non-Metadata operand raises NoMethodError.
   */
  function EqualsAsWritten(self: Metadata, other: Comparand): (r: Result<bool, Error>)
    ensures other.OtherObject? ==> r.Err? && r.error.NoMethodError?
    ensures other.MetadataValue? ==> r.Ok?
  {
    match other
    case OtherObject(_) => Err(NoMethodError("undefined method 'ArgumentError'"))
    case MetadataValue(m) => Ok(self.name == m.name && self.version == m.version)
  }

  /** `==` as intended: a non-Metadata operand raises ArgumentError. */
  function Equals(self: Metadata, other: Comparand): (r: Result<bool, Error>)
    ensures r.Err? <==> other.OtherObject?
    ensures r.Err? ==> r.error == ArgumentError(NotMetadataMessage)
    ensures other.MetadataValue? ==>
      r == Ok(self.name == other.m.name && self.version == other.m.version)
  {
    match other
    case OtherObject(_) => Err(ArgumentError(NotMetadataMessage))
    case MetadataValue(m) => Ok(self.name == m.name && self.version == m.version)
  }

  /** The guard as written raises the wrong error: comparing with a String. */
  lemma EqualsAsWrittenRaisesNoMethodError()
    ensures EqualsAsWritten(Metadata(Str("a")), OtherObject(Str("a"))).error.NoMethodError?
    ensures Equals(Metadata(Str("a")), OtherObject(Str("a"))) == Err(ArgumentError(NotMetadataMessage))
  {
  }

  /** Both versions agree whenever the operand is a Metadata. */
  lemma EqualsAgreeOnMetadata(self: Metadata, other: Metadata)
    ensures EqualsAsWritten(self, MetadataValue(other)) == Equals(self, MetadataValue(other))
  {
  }

  /** The domain plays no part in equality. */
  lemma EqualityIgnoresDomain(a: Metadata, b: Metadata)
    requires a.name == b.name && a.version == b.version && a.domain != b.domain
    ensures Equals(a, MetadataValue(b)) == Ok(true)
  {
  }

  /** `==` over Metadata values is reflexive and symmetric. */
  lemma EqualsReflexiveSymmetric(a: Metadata, b: Metadata)
    ensures Equals(a, MetadataValue(a)) == Ok(true)
    ensures Equals(a, MetadataValue(b)) == Equals(b, MetadataValue(a))
  {
  }
}
