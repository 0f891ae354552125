/**
 * `EvaluationContextBuilder#call`: the API, client and invocation contexts
 * that are given are merged left to right, starting from an empty context;
 * when none is given the result is nil.
 */
module EvaluationContextBuilder {
  import opened Wrappers
  import opened RubyValues
  import opened EvaluationContexts

  /** `[api_context, client_context, invocation_context].compact`. */
  function Available(api: Option<EvaluationContext>, client: Option<EvaluationContext>, invocation: Option<EvaluationContext>): (r: seq<EvaluationContext>)
    ensures |r| <= 3
    ensures r == [] <==> api.None? && client.None? && invocation.None?
    ensures r == Values(api) + Values(client) + Values(invocation)
  {
    (if api.Some? then [api.value] else [])
      + (if client.Some? then [client.value] else [])
      + (if invocation.Some? then [invocation.value] else [])
  }

  /** The context an option holds, as a sequence of zero or one element. */
  function Values(c: Option<EvaluationContext>): (r: seq<EvaluationContext>)
    ensures c.None? <==> r == []
    ensures c.Some? ==> r == [c.value]
  {
    if c.Some? then [c.value] else []
  }

  /** `reduce(acc) { |built, context| built.merge(context) }`. */
  function MergeAll(acc: EvaluationContext, cs: seq<EvaluationContext>): (r: EvaluationContext)
    ensures forall k :: k in r.fields <==>
      k in acc.fields || (cs != [] && k == TargetingKey) || exists i :: 0 <= i < |cs| && k in cs[i].fields
    decreases |cs|
  {
    if cs == [] then acc
    else
      var r := MergeAll(acc.Merge(cs[0]), cs[1..]);
      assert forall i :: 1 <= i < |cs| ==> cs[i] == cs[1..][i - 1];
      r
  }

  /** `call(api_context:, client_context:, invocation_context:)`. */
  function Build(api: Option<EvaluationContext>, client: Option<EvaluationContext>, invocation: Option<EvaluationContext>): (r: Option<EvaluationContext>)
    ensures r.None? <==> api.None? && client.None? && invocation.None?
  {
    var available := Available(api, client, invocation);
    if available == [] then None else Some(MergeAll(Empty, available))
  }

  /** A key that no later context has keeps its value through the remaining merges. */
  lemma {:induction false} MergeAllKeeps(acc: EvaluationContext, cs: seq<EvaluationContext>, k: string)
    requires k in acc.fields
    requires forall c :: c in cs ==> k !in c.fields
    ensures k in MergeAll(acc, cs).fields
    ensures MergeAll(acc, cs).fields[k] == acc.fields[k]
    decreases |cs|
  {
    if cs != [] {
      MergeFields(acc, cs[0]);
      MergeAllKeeps(acc.Merge(cs[0]), cs[1..], k);
    }
  }

  /** A key the accumulator has stays present through every merge. */
  lemma {:induction false} MergeAllPresent(acc: EvaluationContext, cs: seq<EvaluationContext>, k: string)
    requires k in acc.fields || (k == TargetingKey && cs != [])
    ensures k in MergeAll(acc, cs).fields
    decreases |cs|
  {
    if cs != [] {
      MergeFields(acc, cs[0]);
      MergeAllPresent(acc.Merge(cs[0]), cs[1..], k);
    }
  }

  /** The value under a key comes from the last context that has the key. */
  lemma {:induction false} MergeAllLastWins(acc: EvaluationContext, cs: seq<EvaluationContext>, i: nat, k: string)
    requires i < |cs| && k in cs[i].fields
    requires forall j :: i < j < |cs| ==> k !in cs[j].fields
    ensures k in MergeAll(acc, cs).fields
    ensures MergeAll(acc, cs).fields[k] == cs[i].fields[k]
    decreases |cs|
  {
    MergeFields(acc, cs[0]);
    if i == 0 {
      forall c | c in cs[1..] ensures k !in c.fields {
        var j :| 0 <= j < |cs[1..]| && cs[1..][j] == c;
        assert cs[j + 1] == c;
      }
      MergeAllKeeps(acc.Merge(cs[0]), cs[1..], k);
    } else {
      MergeAllLastWins(acc.Merge(cs[0]), cs[1..], i - 1, k);
    }
  }

  /** With no context holding a targeting key, the built one holds an explicit nil. */
  lemma {:induction false} MergeAllNilTargetingKey(acc: EvaluationContext, cs: seq<EvaluationContext>)
    requires cs != []
    requires TargetingKey in acc.fields ==> acc.fields[TargetingKey] == Nil
    requires forall c :: c in cs ==> TargetingKey !in c.fields
    ensures TargetingKey in MergeAll(acc, cs).fields
    ensures MergeAll(acc, cs).fields[TargetingKey] == Nil
    decreases |cs|
  {
    MergeFields(acc, cs[0]);
    var next := acc.Merge(cs[0]);
    if cs[1..] == [] {
    } else {
      forall c | c in cs[1..] ensures TargetingKey !in c.fields {
        assert c in cs;
      }
      MergeAllNilTargetingKey(next, cs[1..]);
    }
  }

  /**
   * Precedence: the invocation context wins over the client context, which
   * wins over the API context, key by key.
   */
  lemma BuildPrecedence(api: Option<EvaluationContext>, client: Option<EvaluationContext>, invocation: Option<EvaluationContext>, k: string)
    requires Build(api, client, invocation).Some?
    ensures var r := Build(api, client, invocation).value;
      && (invocation.Some? && k in invocation.value.fields ==>
            k in r.fields && r.fields[k] == invocation.value.fields[k])
      && (client.Some? && k in client.value.fields && (invocation.None? || k !in invocation.value.fields) ==>
            k in r.fields && r.fields[k] == client.value.fields[k])
      && (api.Some? && k in api.value.fields && (client.None? || k !in client.value.fields)
            && (invocation.None? || k !in invocation.value.fields) ==>
            k in r.fields && r.fields[k] == api.value.fields[k])
  {
    var cs := Available(api, client, invocation);
    if invocation.Some? && k in invocation.value.fields {
      MergeAllLastWins(Empty, cs, |cs| - 1, k);
    } else if client.Some? && k in client.value.fields {
      var i := if api.Some? then 1 else 0;
      assert cs[i] == client.value;
      MergeAllLastWins(Empty, cs, i, k);
    } else if api.Some? && k in api.value.fields {
      assert cs[0] == api.value;
      MergeAllLastWins(Empty, cs, 0, k);
    }
  }

  /** A built context always holds a targeting key entry, nil when no source context has one. */
  lemma BuildTargetingKey(api: Option<EvaluationContext>, client: Option<EvaluationContext>, invocation: Option<EvaluationContext>)
    requires Build(api, client, invocation).Some?
    ensures TargetingKey in Build(api, client, invocation).value.fields
    ensures ((api.None? || TargetingKey !in api.value.fields) && (client.None? || TargetingKey !in client.value.fields)
      && (invocation.None? || TargetingKey !in invocation.value.fields)) ==>
      Build(api, client, invocation).value.fields[TargetingKey] == Nil
  {
    var cs := Available(api, client, invocation);
    MergeAllPresent(Empty, cs, TargetingKey);
    if (api.None? || TargetingKey !in api.value.fields) && (client.None? || TargetingKey !in client.value.fields)
      && (invocation.None? || TargetingKey !in invocation.value.fields)
    {
      MergeAllNilTargetingKey(Empty, cs);
    }
  }

  /** A single context that has a targeting key is returned unchanged. */
  lemma BuildSingleWithTargetingKey(c: EvaluationContext)
    requires TargetingKey in c.fields
    ensures Build(Some(c), None, None) == Some(c)
    ensures Build(None, Some(c), None) == Some(c)
    ensures Build(None, None, Some(c)) == Some(c)
  {
    assert Available(Some(c), None, None) == [c];
    assert Available(None, Some(c), None) == [c];
    assert Available(None, None, Some(c)) == [c];
    assert Empty.Merge(c).fields == c.fields;
    assert MergeAll(Empty, [c]) == Empty.Merge(c) == c;
  }

  /** A single context without a targeting key comes back with an explicit nil one, so not equal. */
  lemma BuildSingleWithoutTargetingKey(c: EvaluationContext)
    requires TargetingKey !in c.fields
    ensures Build(None, None, Some(c)) == Some(EvaluationContext(c.fields[TargetingKey := Nil]))
    ensures !Build(None, None, Some(c)).value.Equals(c)
  {
    assert Available(None, None, Some(c)) == [c];
    assert Empty.Merge(c).fields == c.fields[TargetingKey := Nil];
  }
}
