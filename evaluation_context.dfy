/**
 * `EvaluationContext`: a map from String keys to values. The constructor
 * takes keyword arguments and turns every key into a String (`to_s`).
 */
module EvaluationContexts {
  import opened RubyValues

  /** `TARGETING_KEY`. */
  const TargetingKey := "targeting_key"

  /** A key of the keyword arguments: a Symbol, a String, or another object shown by its `to_s`. */
  datatype KeywordKey = SymbolKey(name: string) | StringKey(s: string) | OtherKey(display: string)

  function KeyToS(k: KeywordKey): string {
    match k
    case SymbolKey(n) => n
    case StringKey(s) => s
    case OtherKey(d) => d
  }

  /** `transform_keys(&:to_s)` over arguments in order: when two keys print the same, the later wins. */
  function Normalize(args: seq<(KeywordKey, Value)>): (r: map<string, Value>)
    ensures r.Keys == set i | 0 <= i < |args| :: KeyToS(args[i].0)
  {
    if args == [] then map[]
    else Normalize(args[..|args| - 1])[KeyToS(args[|args| - 1].0) := args[|args| - 1].1]
  }

  /** A key is present exactly when some argument's key prints as it. */
  lemma {:induction false} NormalizeKeys(args: seq<(KeywordKey, Value)>, k: string)
    ensures k in Normalize(args) <==> exists i :: 0 <= i < |args| && KeyToS(args[i].0) == k
  {
    if args != [] {
      var n := |args| - 1;
      NormalizeKeys(args[..n], k);
      if k in Normalize(args[..n]) {
        var i :| 0 <= i < n && KeyToS(args[..n][i].0) == k;
        assert KeyToS(args[i].0) == k;
      }
      if i :| 0 <= i < n && KeyToS(args[i].0) == k {
        assert KeyToS(args[..n][i].0) == k;
      }
    }
  }

  /** The value stored under a key is that of the last argument naming it. */
  lemma {:induction false} NormalizeLastWins(args: seq<(KeywordKey, Value)>, i: nat)
    requires i < |args|
    requires forall j :: i < j < |args| ==> KeyToS(args[j].0) != KeyToS(args[i].0)
    ensures KeyToS(args[i].0) in Normalize(args)
    ensures Normalize(args)[KeyToS(args[i].0)] == args[i].1
  {
    var n := |args| - 1;
    if i < n {
      var front := args[..n];
      assert front[i] == args[i];
      forall j | i < j < |front|
        ensures KeyToS(front[j].0) != KeyToS(front[i].0)
      {
        assert front[j] == args[j];
      }
      NormalizeLastWins(front, i);
    }
  }

  datatype EvaluationContext = EvaluationContext(fields: map<string, Value>) {

    /** `targeting_key`: nil when absent. */
    function TargetingKeyValue(): (v: Value)
      ensures TargetingKey in fields ==> v == fields[TargetingKey]
      ensures TargetingKey !in fields ==> v == Nil
    {
      if TargetingKey in fields then fields[TargetingKey] else Nil
    }

    /** `field(key)`: the stored keys are Strings, so a Symbol key is never found. */
    function Field(key: Value): (v: Value)
      ensures key.Str? && key.s in fields ==> v == fields[key.s]
      ensures !(key.Str? && key.s in fields) ==> v == Nil
      ensures key.Sym? ==> v == Nil
    {
      if key.Str? && key.s in fields then fields[key.s] else Nil
    }

    /**
     * `merge(overriding_context)`: `EvaluationContext.new(targeting_key: t,
     * **fields.merge(overriding_context.fields))` with
     * `t = overriding_context.targeting_key || targeting_key`. The splatted
     * fields come after the `targeting_key:` keyword, so once both are made
     * Strings a "targeting_key" entry of either context wins over `t`.
     */
    function Merge(overriding: EvaluationContext): (r: EvaluationContext)
      ensures r.fields.Keys == fields.Keys + overriding.fields.Keys + {TargetingKey}
      ensures forall k :: k in overriding.fields ==> r.fields[k] == overriding.fields[k]
      ensures forall k :: k in fields && k !in overriding.fields ==> r.fields[k] == fields[k]
    {
      var t := if Truthy(overriding.TargetingKeyValue()) then overriding.TargetingKeyValue() else TargetingKeyValue();
      EvaluationContext(map[TargetingKey := t] + (fields + overriding.fields))
    }

    /** `==`: the same keys, each with the same value. */
    predicate Equals(other: EvaluationContext)
      ensures Equals(other) <==>
        fields.Keys == other.fields.Keys && forall k :: k in fields ==> fields[k] == other.fields[k]
    {
      fields == other.fields
    }
  }

  /** `EvaluationContext.new(**args)`: one String-keyed field per distinct printed key. */
  function New(args: seq<(KeywordKey, Value)>): (c: EvaluationContext)
    ensures c.fields.Keys == set i | 0 <= i < |args| :: KeyToS(args[i].0)
  {
    EvaluationContext(Normalize(args))
  }

  const Empty: EvaluationContext := EvaluationContext(map[])

  /**
   * Merging: every key of either context survives, the overriding value wins,
   * and the result always has a targeting key entry (nil when neither has one).
   */
  lemma MergeFields(base: EvaluationContext, overriding: EvaluationContext)
    ensures var r := base.Merge(overriding);
      && r.fields.Keys == base.fields.Keys + overriding.fields.Keys + {TargetingKey}
      && (forall k :: k in overriding.fields ==> r.fields[k] == overriding.fields[k])
      && (forall k :: k in base.fields && k !in overriding.fields ==> r.fields[k] == base.fields[k])
      && (TargetingKey !in base.fields && TargetingKey !in overriding.fields ==> r.fields[TargetingKey] == Nil)
  {
  }

  /** The merged targeting key is the overriding one when set, and otherwise the base one. */
  lemma MergeTargetingKey(base: EvaluationContext, overriding: EvaluationContext)
    ensures Truthy(overriding.TargetingKeyValue()) ==>
      base.Merge(overriding).TargetingKeyValue() == overriding.TargetingKeyValue()
    ensures TargetingKey !in overriding.fields ==>
      base.Merge(overriding).TargetingKeyValue() == base.TargetingKeyValue()
  {
  }

  /**
   * An overriding context that holds a targeting key entry that is nil or
   * false wipes out the base one: the `|| targeting_key` fallback picks the
   * base key, but the splatted fields override it.
   */
  lemma MergeFalsyTargetingKey(base: EvaluationContext, overriding: EvaluationContext)
    requires TargetingKey in overriding.fields && !Truthy(overriding.fields[TargetingKey])
    ensures base.Merge(overriding).TargetingKeyValue() == overriding.fields[TargetingKey]
  {
  }

  /**
   * Merging into `EvaluationContext.new` (the builder's starting point) keeps
   * a context as it is, except that a missing targeting key is added as nil.
   */
  lemma {:induction false} MergeIntoEmpty(c: EvaluationContext)
    ensures Empty.Merge(c).fields == c.fields[TargetingKey := c.TargetingKeyValue()]
    ensures Empty.Merge(c) == c <==> TargetingKey in c.fields
  {
    var r := Empty.Merge(c);
    assert r.fields == c.fields[TargetingKey := c.TargetingKeyValue()];
    if TargetingKey !in c.fields {
      assert TargetingKey in r.fields.Keys - c.fields.Keys;
    }
  }
}
