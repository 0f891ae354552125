/**
 * `Hooks::Hints`: a frozen Hash of hook hints. Construction checks every
 * entry of the given Hash, in order, before copying it; keys must be
 * Strings or Symbols and values of one of the allowed classes.
 */
module HookHints {
  import opened Wrappers
  import opened RubyValues

  const KeyMessage := "Only String or Symbol are allowed as keys."
  const ValueMessage := "Only String, Symbol, Numeric, TrueClass, FalseClass, Time, Hash, Array are allowed as values."

  /** The entries of a Ruby Hash in insertion order. */
  type Entries = seq<(Value, Value)>

  predicate DistinctKeys(entries: Entries) {
    forall i, j :: 0 <= i < j < |entries| ==> entries[i].0 != entries[j].0
  }

  /** `assert_allowed_key`: `key.is_a?(String) || key.is_a?(Symbol)`. */
  function AllowedKey(key: Value): (b: bool)
    ensures b <==> ClassOf(key) in {StringClass, SymbolClass}
  {
    key.Str? || key.Sym?
  }

  /** `assert_allowed_value`: an instance of one of `ALLOWED_TYPES`. */
  function AllowedValue(value: Value): (b: bool)
    ensures b <==> ClassOf(value) !in {NilClass, ObjectClass}
  {
    value.Str? || value.Sym? || IsNumeric(value) || value.Bool? || value.Time? || value.Hsh? || value.Arr?
  }

  predicate AllowedEntry(entry: (Value, Value)) {
    AllowedKey(entry.0) && AllowedValue(entry.1)
  }

  /** The error `assert_allowed_key` or `assert_allowed_value` raises for one entry; the key is checked first. */
  function EntryError(entry: (Value, Value)): Error
    requires !AllowedEntry(entry)
  {
    if !AllowedKey(entry.0) then ArgumentError(KeyMessage) else ArgumentError(ValueMessage)
  }

  /**
   * The validation pass `hash.each { assert_allowed_key; assert_allowed_value }`:
   * it passes iff every entry is allowed, and otherwise raises the error of
   * the first entry that is not.
   */
  function Validate(entries: Entries): (r: Outcome<Error>)
    ensures r.Pass? <==> forall i :: 0 <= i < |entries| ==> AllowedEntry(entries[i])
    ensures r.Fail? ==> exists i ::
      && 0 <= i < |entries|
      && !AllowedEntry(entries[i])
      && (forall j :: 0 <= j < i ==> AllowedEntry(entries[j]))
      && r.error == EntryError(entries[i])
  {
    if entries == [] then Pass
    else if !AllowedEntry(entries[0]) then Fail(EntryError(entries[0]))
    else
      var rest := Validate(entries[1..]);
      assert forall i :: 1 <= i < |entries| ==> entries[i] == entries[1..][i - 1];
      if rest.Fail? then
        var i :| 0 <= i < |entries[1..]| && !AllowedEntry(entries[1..][i])
          && (forall j :: 0 <= j < i ==> AllowedEntry(entries[1..][j])) && rest.error == EntryError(entries[1..][i]);
        assert !AllowedEntry(entries[i + 1]) && forall j :: 0 <= j < i + 1 ==> AllowedEntry(entries[j]);
        rest
      else
        rest
  }

  /** `hash.dup`: the entries as a map. */
  function ToMap(entries: Entries): map<Value, Value> {
    if entries == [] then map[]
    else ToMap(entries[..|entries| - 1])[entries[|entries| - 1].0 := entries[|entries| - 1].1]
  }

  /** A Hash with distinct keys copies to a map holding exactly its entries. */
  lemma {:induction false} ToMapHoldsEntries(entries: Entries)
    requires DistinctKeys(entries)
    ensures forall k :: k in ToMap(entries) <==> exists i :: 0 <= i < |entries| && entries[i].0 == k
    ensures forall i :: 0 <= i < |entries| ==> ToMap(entries)[entries[i].0] == entries[i].1
  {
    if entries != [] {
      var n := |entries| - 1;
      var front := entries[..n];
      assert forall i :: 0 <= i < n ==> front[i] == entries[i];
      ToMapHoldsEntries(front);
      forall k | k in ToMap(entries)
        ensures exists i :: 0 <= i < |entries| && entries[i].0 == k
      {
        if k != entries[n].0 {
          var i :| 0 <= i < |front| && front[i].0 == k;
          assert entries[i].0 == k;
        }
      }
    }
  }

  class Hints {
    var entries: map<Value, Value>
    var frozen: bool
    /** The default value `hash.dup` keeps from the caller's Hash. */
    const hashDefault: Value

    constructor (entries: map<Value, Value>, hashDefault: Value)
      ensures this.entries == entries && this.hashDefault == hashDefault && frozen
    {
      this.entries := entries;
      this.hashDefault := hashDefault;
      frozen := true;
    }

    /** `[]` on the delegated Hash: a missing key reads as the kept default. */
    function Get(key: Value): (v: Value)
      reads this
      ensures key in entries ==> v == entries[key]
      ensures key !in entries ==> v == hashDefault
    {
      if key in entries then entries[key] else hashDefault
    }

    /** `[]=` on the delegated Hash: a frozen Hints refuses it. */
    method Store(key: Value, value: Value) returns (r: Outcome<Error>)
      modifies this
      ensures frozen == old(frozen)
      ensures old(frozen) ==> r.Fail? && r.error.FrozenError? && entries == old(entries)
      ensures !old(frozen) ==> r.Pass? && entries == old(entries)[key := value]
    {
      if frozen {
        return Fail(FrozenError("can't modify frozen Hints"));
      }
      entries := entries[key := value];
      r := Pass;
    }

    /** `delete` on the delegated Hash: a frozen Hints refuses it. */
    method Delete(key: Value) returns (r: Outcome<Error>)
      modifies this
      ensures frozen == old(frozen)
      ensures old(frozen) ==> r.Fail? && r.error.FrozenError? && entries == old(entries)
      ensures !old(frozen) ==> r.Pass? && entries == old(entries) - {key}
    {
      if frozen {
        return Fail(FrozenError("can't modify frozen Hints"));
      }
      entries := entries - {key};
      r := Pass;
    }
  }

  /**
   * `Hints.new(hash = {})`: validates every entry, then builds frozen hints
   * over a copy of the Hash, default value included; the caller's Hash is
   * not frozen.
   */
  method New(hash: Entries, hashDefault: Value := Nil) returns (r: Result<Hints, Error>)
    requires DistinctKeys(hash)
    ensures r.Err? <==> Validate(hash).Fail?
    ensures r.Err? ==> r.error == Validate(hash).error
    ensures r.Ok? ==> fresh(r.value) && r.value.frozen && r.value.entries == ToMap(hash)
    ensures r.Ok? ==> r.value.hashDefault == hashDefault
  {
    var check := Validate(hash);
    if check.Fail? {
      return Err(check.error);
    }
    var hints := new Hints(ToMap(hash), hashDefault);
    r := Ok(hints);
  }

  /** Frozen hints accept neither a new key nor a deletion, whatever the key. */
  method FrozenHintsRefuseChanges(hash: Entries, key: Value, value: Value) returns (stored: Outcome<Error>, deleted: Outcome<Error>)
    requires DistinctKeys(hash)
    requires Validate(hash).Pass?
    ensures stored.Fail? && stored.error.FrozenError?
    ensures deleted.Fail? && deleted.error.FrozenError?
  {
    var r := New(hash);
    var hints := r.value;
    stored := hints.Store(key, value);
    deleted := hints.Delete(key);
  }
}
