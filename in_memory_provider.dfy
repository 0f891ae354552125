/**
 * `Provider::InMemoryProvider`: flags live in a Hash the caller hands over
 * (it is not copied, so `add_flag` writes into the caller's Hash); a fetch
 * looks the key up and checks the exact class of what it finds.
 */
module InMemoryProvider {
  import opened Wrappers
  import opened RubyValues
  import opened Resolution
  import opened EvaluationContexts
  import opened ProviderMetadata

  const Name := "In-memory Provider"

  /** The classes each `fetch_<type>_value` accepts. */
  function AllowedClasses(flagType: FlagType): set<RubyClass> {
    match flagType
    case BooleanFlag => {TrueClass, FalseClass}
    case StringFlag => {StringClass}
    case NumberFlag => {IntegerClass, FloatClass}
    case ObjectFlag => {ArrayClass, HashClass}
  }

  /**
   * `fetch_value` once `flags[flag_key]` has been read: nil means the flag
   * is not found, a value of an allowed class is served as is, any other
   * value is a type mismatch. In both error cases the default is served.
   */
  function Resolve(stored: Value, flagType: FlagType, defaultValue: Value): (r: ResolutionDetails)
    ensures r.errorCode.None? <==> !stored.Nil? && ClassOf(stored) in AllowedClasses(flagType)
    ensures r.errorCode.None? ==> r.value == stored && r.reason == Some(StaticReason)
    ensures r.errorCode.Some? ==>
      && r.value == defaultValue
      && r.reason == Some(ErrorReason)
      && r.errorCode == Some(if stored.Nil? then FlagNotFound else TypeMismatch)
    ensures r.variant.None? && r.errorMessage.None? && r.flagMetadata == Nil
  {
    if stored.Nil? then Details(defaultValue, ErrorReason, Some(FlagNotFound))
    else if ClassOf(stored) in AllowedClasses(flagType) then Details(stored, StaticReason, None)
    else Details(defaultValue, ErrorReason, Some(TypeMismatch))
  }

  /** A fetch without an error code serves a value of the requested type; with one, the default. */
  lemma ServedValueHasRequestedType(stored: Value, flagType: FlagType, defaultValue: Value)
    ensures var r := Resolve(stored, flagType, defaultValue);
      r.errorCode.None? ==> ClassOf(r.value) in AllowedClasses(flagType)
    ensures var r := Resolve(stored, flagType, defaultValue);
      r.errorCode.Some? ==> r.value == defaultValue
  {
  }

  /** The same stored value is served to exactly one of the four types, if any. */
  lemma AtMostOneTypeAccepts(stored: Value, t1: FlagType, t2: FlagType, d: Value)
    requires t1 != t2
    ensures Resolve(stored, t1, d).errorCode.None? ==> Resolve(stored, t2, d).errorCode.Some?
  {
  }

  /** `fetch_value` over a Hash's entries and default value. */
  function FetchFrom(entries: map<Value, Value>, hashDefault: Value, flagType: FlagType, flagKey: Value, defaultValue: Value): ResolutionDetails
  {
    Resolve(if flagKey in entries then entries[flagKey] else hashDefault, flagType, defaultValue)
  }

  /** After `add_flag(k, v)` a fetch of k sees v, and a fetch of any other key is unchanged. */
  lemma FetchAfterAddFlag(entries: map<Value, Value>, hashDefault: Value, k: Value, v: Value,
                          other: Value, flagType: FlagType, defaultValue: Value)
    requires other != k
    ensures FetchFrom(entries[k := v], hashDefault, flagType, k, defaultValue) == Resolve(v, flagType, defaultValue)
    ensures FetchFrom(entries[k := v], hashDefault, flagType, other, defaultValue)
         == FetchFrom(entries, hashDefault, flagType, other, defaultValue)
  {
  }

  class InMemoryProvider {
    /** `@flags`: the caller's Hash itself. */
    const flags: RubyHash
    const metadata: Metadata

    /** `InMemoryProvider.new(flags)`: keeps a reference to `flags`. */
    constructor (flags: RubyHash)
      ensures this.flags == flags && metadata == Metadata(Str(Name))
    {
      this.flags := flags;
      metadata := Metadata(Str(Name));
    }

    /** `InMemoryProvider.new`: a fresh empty Hash. */
    constructor Empty()
      ensures fresh(flags) && flags.entries == map[] && flags.defaultValue == Nil && !flags.frozen
      ensures metadata == Metadata(Str(Name))
    {
      flags := new RubyHash(map[], Nil, false);
      metadata := Metadata(Str(Name));
    }

    /**
     * `add_flag(flag_key:, value:)`: writes into the shared Hash, so the
     * caller's Hash changes too; raises FrozenError if that Hash is frozen.
     */
    method AddFlag(flagKey: Value, value: Value) returns (r: Outcome<Error>)
      modifies flags
      ensures r.Fail? <==> old(flags.frozen)
      ensures r.Pass? ==> flags.entries == old(flags.entries)[flagKey := value]
      ensures r.Fail? ==> flags.entries == old(flags.entries)
      ensures flags.frozen == old(flags.frozen)
    {
      r := flags.Store(flagKey, value);
    }

    /** `fetch_<type>_value`: reads the Hash and changes nothing. */
    function Fetch(flagType: FlagType, flagKey: Value, defaultValue: Value, evaluationContext: Option<EvaluationContext> := None): (r: ResolutionDetails)
      reads this, flags
      ensures r == FetchFrom(flags.entries, flags.defaultValue, flagType, flagKey, defaultValue)
    {
      Resolve(flags.Get(flagKey), flagType, defaultValue)
    }
  }
}
