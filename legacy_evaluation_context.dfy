/**
 * `Evaluation::Context` (under `lib/openfeature`): a SimpleDelegator over a
 * `Concurrent::Hash`. `freeze` freezes that Hash and then, with a worklist,
 * every Hash nested in its values together with the keys and values inside
 * those nested Hashes.
 *
 * Nested Hashes are values here, so where their objects are frozen is
 * recorded as paths: the keys that lead from the context's Hash to the
 * object. `frozenValues` holds the paths of frozen nested values,
 * `frozenKeys` the paths whose last key object is frozen.
 */
module LegacyEvaluationContext {
  import opened Wrappers
  import opened RubyValues

  type Path = seq<Value>

  const TargetingKeySymbol: Value := Sym("targeting_key")
  const NotHashMessage := "context must be a Hash"
  const NotStringMessage := "targeting_key must be a String"

  /** The value reached from `v` by following `path` through nested Hashes. */
  function At(v: Value, path: Path): Option<Value>
    decreases |path|
  {
    if path == [] then Some(v)
    else if v.Hsh? && path[0] in v.entries then At(v.entries[path[0]], path[1..])
    else None
  }

  /** Every path that leads somewhere from `v`; finite, so it can bound the worklist. */
  function Paths(v: Value): set<Path>
    decreases v
  {
    {[]} + if v.Hsh? then (set k, q | k in v.entries && q in Paths(v.entries[k]) :: [k] + q) else {}
  }

  lemma {:induction false} AtExtend(v: Value, path: Path, k: Value)
    ensures var w := At(v, path);
      At(v, path + [k]) == if w.Some? && w.value.Hsh? && k in w.value.entries then Some(w.value.entries[k]) else None
    decreases |path|
  {
    if path != [] {
      assert (path + [k])[0] == path[0];
      assert (path + [k])[1..] == path[1..] + [k];
      if v.Hsh? && path[0] in v.entries {
        AtExtend(v.entries[path[0]], path[1..], k);
      }
    } else {
      assert [] + [k] == [k];
      assert [k][1..] == [];
    }
  }

  lemma {:induction false} AtInPaths(v: Value, path: Path)
    requires At(v, path).Some?
    ensures path in Paths(v)
    decreases |path|
  {
    if path != [] {
      AtInPaths(v.entries[path[0]], path[1..]);
      assert path == [path[0]] + path[1..];
    }
  }

  /** A Hash sits at `path` inside the Hash with entries `m`. */
  predicate IsHashAt(m: map<Value, Value>, path: Path) {
    var w := At(Hsh(m), path);
    w.Some? && w.value.Hsh?
  }

  /** The entries of the Hash at `path`. */
  function EntriesAt(m: map<Value, Value>, path: Path): map<Value, Value> {
    var w := At(Hsh(m), path);
    if w.Some? && w.value.Hsh? then w.value.entries else map[]
  }

  /**
   * The values `deep_freeze` freezes: the top-level values that are
   * Hashes, and every value inside a Hash reached through Hashes.
   */
  predicate DeepFrozenValue(m: map<Value, Value>, path: Path) {
    || (|path| == 1 && IsHashAt(m, path))
    || (|path| >= 2 && At(Hsh(m), path).Some?)
  }

  /** The keys `deep_freeze` freezes: every key inside a nested Hash. */
  predicate DeepFrozenKey(m: map<Value, Value>, path: Path) {
    |path| >= 2 && At(Hsh(m), path).Some?
  }

  /** The argument of `Context.new`: none, a Hash object, or any other value written out. */
  datatype ContextArg = NoArg | HashObject(h: RubyHash) | Literal(v: Value)

  class Context {
    /** The delegated `Concurrent::Hash`. */
    const hash: RubyHash
    var frozenValues: set<Path>
    var frozenKeys: set<Path>

    constructor Wrap(h: RubyHash)
      ensures hash == h && frozenValues == {} && frozenKeys == {}
    {
      hash := h;
      frozenValues := {};
      frozenKeys := {};
    }

    /**
     * `targeting_key`: `self[:targeting_key]`, which for a missing key is
     * the Hash's default value.
     */
    function TargetingKey(): (v: Value)
      reads this, hash
      ensures TargetingKeySymbol in hash.entries ==> v == hash.entries[TargetingKeySymbol]
      ensures TargetingKeySymbol !in hash.entries ==> v == hash.defaultValue
    {
      hash.Get(TargetingKeySymbol)
    }

    /** `to_h`. */
    function ToH(): map<Value, Value>
      reads this, hash
    {
      hash.entries
    }

    /** `self[key] = value`, delegated to the Hash. */
    method Store(key: Value, value: Value) returns (r: Outcome<Error>)
      modifies hash
      ensures r.Fail? <==> old(hash.frozen)
      ensures r.Pass? ==> ToH() == old(ToH())[key := value]
      ensures r.Fail? ==> r.error.FrozenError? && ToH() == old(ToH())
      ensures hash.frozen == old(hash.frozen)
    {
      r := hash.Store(key, value);
    }

    /**
     * `targeting_key = value`: a non-String raises ArgumentError and changes
     * nothing; otherwise the value is stored under `:targeting_key`.
     */
    method SetTargetingKey(value: Value) returns (r: Outcome<Error>)
      modifies hash
      ensures !value.Str? ==> r == Fail(ArgumentError(NotStringMessage)) && ToH() == old(ToH())
      ensures value.Str? ==> (r.Fail? <==> old(hash.frozen))
      ensures value.Str? && r.Pass? ==> ToH() == old(ToH())[TargetingKeySymbol := value] && TargetingKey() == value
      ensures r.Fail? ==> ToH() == old(ToH())
      ensures hash.frozen == old(hash.frozen)
    {
      if !value.Str? {
        return Fail(ArgumentError(NotStringMessage));
      }
      r := hash.Store(TargetingKeySymbol, value);
    }

    /**
     * `freeze`: freezes the delegated Hash, then `deep_freeze` works through
     * a stack of nested Hashes. Each Hash popped is frozen, the keys and
     * values inside it are frozen, and the values that are Hashes are pushed.
     */
    method Freeze()
      modifies this, hash
      ensures hash.frozen && ToH() == old(ToH())
      ensures forall p :: p in frozenValues <==> p in old(frozenValues) || DeepFrozenValue(ToH(), p)
      ensures forall p :: p in frozenKeys <==> p in old(frozenKeys) || DeepFrozenKey(ToH(), p)
    {
      hash.Freeze();
      var m := hash.entries;
      var hashes := TopLevelHashes(m);
      ghost var done: set<Path> := {};
      while hashes != []
        invariant hash.entries == m && hash.frozen
        invariant StackOk(m, hashes, done)
        invariant DoneOk(m, done, frozenValues)
        invariant Covered(m, hashes, done, frozenValues, frozenKeys)
        invariant Sound(m, frozenValues, frozenKeys, old(frozenValues), old(frozenKeys))
        invariant old(frozenValues) <= frozenValues && old(frozenKeys) <= frozenKeys
        decreases Paths(Hsh(m)) - done
      {
        var p := hashes[|hashes| - 1];
        var rest := hashes[..|hashes| - 1];
        ghost var valuesBefore, keysBefore := frozenValues, frozenKeys;
        AtInPaths(Hsh(m), p);
        // hash.freeze unless hash.frozen?
        frozenValues := frozenValues + {p};
        var children := FreezeEntries(m, p);
        StepKeepsStack(m, hashes, done, children);
        StepKeepsDone(m, hashes, done, valuesBefore, frozenValues);
        StepKeepsCovered(m, hashes, done, valuesBefore, keysBefore, frozenValues, frozenKeys, children);
        StepKeepsSound(m, p, valuesBefore, keysBefore, frozenValues, frozenKeys, old(frozenValues), old(frozenKeys));
        hashes := rest + children;
        done := done + {p};
      }
      EmptyStackCoversAll(m, done, frozenValues, frozenKeys);
    }

    /**
     * The body of `hash.each` in `deep_freeze` for the Hash at `p`: every key
     * and value inside it is frozen, and the values that are Hashes are
     * returned to be pushed.
     */
    method FreezeEntries(m: map<Value, Value>, p: Path) returns (children: seq<Path>)
      requires |p| >= 1 && IsHashAt(m, p)
      modifies this
      ensures frozenValues == old(frozenValues) + ChildPaths(m, p)
      ensures frozenKeys == old(frozenKeys) + ChildPaths(m, p)
      ensures ChildrenOf(m, p, children)
    {
      var e := EntriesAt(m, p);
      var rest := e.Keys;
      children := [];
      while rest != {}
        invariant rest <= e.Keys
        invariant frozenValues == old(frozenValues) + (set k | k in e && k !in rest :: p + [k])
        invariant frozenKeys == old(frozenKeys) + (set k | k in e && k !in rest :: p + [k])
        invariant forall i :: 0 <= i < |children| ==>
          && |children[i]| == |p| + 1 && children[i][..|p|] == p
          && children[i][|p|] in e && children[i][|p|] !in rest && IsHashAt(m, children[i])
        invariant forall i, j :: 0 <= i < j < |children| ==> children[i] != children[j]
        invariant forall k :: k in e && k !in rest && e[k].Hsh? ==> p + [k] in children
        decreases rest
      {
        var k :| k in rest;
        var child := p + [k];
        AtExtend(Hsh(m), p, k);
        assert child[..|p|] == p && child[|p|] == k;
        // key.freeze unless key.frozen?; value.freeze unless value.frozen?
        frozenKeys := frozenKeys + {child};
        frozenValues := frozenValues + {child};
        // hashes << value if value.is_a?(Hash)
        if e[k].Hsh? {
          children := children + [child];
        }
        rest := rest - {k};
      }
      assert (set k | k in e && k !in rest :: p + [k]) == ChildPaths(m, p);
    }
  }

  /**
   * `Context.new(context = Concurrent::Hash.new({}))`. A non-Hash raises
   * ArgumentError. A `Concurrent::Hash` is wrapped as is, so the caller
   * shares it; any other Hash is copied into a new `Concurrent::Hash`, which
   * does not keep its default value. Without an argument, the new Hash
   * answers `{}` for a missing key, so even `targeting_key` is `{}`.
   */
  method New(arg: ContextArg) returns (r: Result<Context, Error>)
    ensures arg.Literal? && !arg.v.Hsh? ==> r == Err(ArgumentError(NotHashMessage))
    ensures !(arg.Literal? && !arg.v.Hsh?) ==>
      && r.Ok? && fresh(r.value)
      && r.value.frozenValues == {} && r.value.frozenKeys == {} && r.value.hash.concurrent
    ensures arg.NoArg? ==>
      && r.Ok? && fresh(r.value.hash) && r.value.ToH() == map[]
      && !r.value.hash.frozen && r.value.TargetingKey() == Hsh(map[])
    ensures arg.HashObject? && arg.h.concurrent ==> r.Ok? && r.value.hash == arg.h
    ensures arg.HashObject? && !arg.h.concurrent ==>
      && r.Ok? && fresh(r.value.hash)
      && r.value.ToH() == arg.h.entries && r.value.hash.defaultValue == Nil && !r.value.hash.frozen
    ensures arg.Literal? && arg.v.Hsh? ==>
      && r.Ok? && fresh(r.value.hash)
      && r.value.ToH() == arg.v.entries && r.value.hash.defaultValue == Nil && !r.value.hash.frozen
  {
    var h: RubyHash;
    if arg.NoArg? {
      h := new RubyHash(map[], Hsh(map[]), true);
    } else if arg.HashObject? {
      if arg.h.concurrent {
        h := arg.h;
      } else {
        h := new RubyHash(arg.h.entries, Nil, true);
      }
    } else {
      if !arg.v.Hsh? {
        return Err(ArgumentError(NotHashMessage));
      }
      h := new RubyHash(arg.v.entries, Nil, true);
    }
    var context := new Context.Wrap(h);
    r := Ok(context);
  }

  /**
   * An example: freezing `{a: {b: {c: 1}}, d: "s"}` freezes the Hash under
   * `a`, the one under `a, b`, the Integer under `a, b, c` and the keys `b`
   * and `c`, but not the top-level String under `d`.
   */
  lemma DeepFreezeExample()
    ensures var m := map[Sym("a") := Hsh(map[Sym("b") := Hsh(map[Sym("c") := Int(1)])]), Sym("d") := Str("s")];
      && DeepFrozenValue(m, [Sym("a")])
      && DeepFrozenValue(m, [Sym("a"), Sym("b")])
      && DeepFrozenValue(m, [Sym("a"), Sym("b"), Sym("c")])
      && DeepFrozenKey(m, [Sym("a"), Sym("b"), Sym("c")])
      && !DeepFrozenKey(m, [Sym("a")])
      && !DeepFrozenValue(m, [Sym("d")])
  {
    var inner := map[Sym("c") := Int(1)];
    var middle := map[Sym("b") := Hsh(inner)];
    var m := map[Sym("a") := Hsh(middle), Sym("d") := Str("s")];
    assert [Sym("a"), Sym("b"), Sym("c")][1..] == [Sym("b"), Sym("c")];
    assert [Sym("b"), Sym("c")][1..] == [Sym("c")];
    assert [Sym("a"), Sym("b")][1..] == [Sym("b")];
    assert At(Hsh(m), [Sym("a")]) == At(Hsh(middle), []);
    assert At(Hsh(m), [Sym("a"), Sym("b")]) == At(Hsh(inner), []);
    assert At(Hsh(m), [Sym("a"), Sym("b"), Sym("c")]) == At(Int(1), []);
    assert At(Hsh(m), [Sym("d")]) == At(Str("s"), []);
  }

  /** A top-level value that is not a Hash is never frozen by `deep_freeze`, nor is a top-level key. */
  lemma DeepFreezeSkipsTopLevelScalars(m: map<Value, Value>, k: Value)
    requires k in m && !m[k].Hsh?
    ensures !DeepFrozenValue(m, [k]) && !DeepFrozenKey(m, [k])
  {
    assert [k][1..] == [];
    assert At(Hsh(m), [k]) == At(m[k], []);
  }

  /** The paths of the keys and values inside the Hash at `p`. */
  function ChildPaths(m: map<Value, Value>, p: Path): set<Path> {
    set k | k in EntriesAt(m, p) :: p + [k]
  }

  /** `children` lists, once each, the paths of the Hashes inside the Hash at `p`. */
  predicate ChildrenOf(m: map<Value, Value>, p: Path, children: seq<Path>) {
    && (forall i :: 0 <= i < |children| ==>
          |children[i]| == |p| + 1 && children[i][..|p|] == p && IsHashAt(m, children[i]))
    && (forall i, j :: 0 <= i < j < |children| ==> children[i] != children[j])
    && (forall k :: k in EntriesAt(m, p) && EntriesAt(m, p)[k].Hsh? ==> p + [k] in children)
  }

  /** The stack holds distinct nested Hashes not yet popped, each hanging off a popped one or top-level. */
  predicate StackOk(m: map<Value, Value>, hashes: seq<Path>, done: set<Path>) {
    && (forall i :: 0 <= i < |hashes| ==> |hashes[i]| >= 1 && IsHashAt(m, hashes[i]) && hashes[i] !in done)
    && (forall i, j :: 0 <= i < j < |hashes| ==> hashes[i] != hashes[j])
    && (forall i :: 0 <= i < |hashes| && |hashes[i]| >= 2 ==> hashes[i][..|hashes[i]| - 1] in done)
  }

  /** The popped Hashes are nested Hashes, frozen, whose parents were popped before them. */
  predicate DoneOk(m: map<Value, Value>, done: set<Path>, frozenValues: set<Path>) {
    && (forall p :: p in done ==> |p| >= 1 && IsHashAt(m, p) && p in frozenValues)
    && (forall p :: p in done && |p| >= 2 ==> p[..|p| - 1] in done)
  }

  /**
   * Every top-level Hash is popped or on the stack, and inside every popped
   * Hash each key and value is frozen and each Hash is popped or on the stack.
   */
  predicate Covered(m: map<Value, Value>, hashes: seq<Path>, done: set<Path>, frozenValues: set<Path>, frozenKeys: set<Path>) {
    && (forall k :: k in m && m[k].Hsh? ==> [k] in done || [k] in hashes)
    && (forall p, k :: p in done && k in EntriesAt(m, p) ==>
          && p + [k] in frozenValues && p + [k] in frozenKeys
          && (EntriesAt(m, p)[k].Hsh? ==> p + [k] in done || p + [k] in hashes))
  }

  /** Nothing is frozen that `deep_freeze` does not freeze. */
  predicate Sound(m: map<Value, Value>, frozenValues: set<Path>, frozenKeys: set<Path>, values0: set<Path>, keys0: set<Path>) {
    && (forall p :: p in frozenValues ==> p in values0 || DeepFrozenValue(m, p))
    && (forall p :: p in frozenKeys ==> p in keys0 || DeepFrozenKey(m, p))
  }

  lemma StepKeepsStack(m: map<Value, Value>, hashes: seq<Path>, done: set<Path>, children: seq<Path>)
    requires hashes != [] && StackOk(m, hashes, done)
    requires forall q :: q in done && |q| >= 2 ==> q[..|q| - 1] in done
    requires ChildrenOf(m, hashes[|hashes| - 1], children)
    ensures StackOk(m, hashes[..|hashes| - 1] + children, done + {hashes[|hashes| - 1]})
  {
    var p := hashes[|hashes| - 1];
    var rest := hashes[..|hashes| - 1];
    var next := rest + children;
    forall i | 0 <= i < |children|
      ensures children[i] !in done + {p} && children[i][..|children[i]| - 1] == p
    {
      assert |children[i]| - 1 == |p|;
    }
    forall i, j | 0 <= i < |rest| && 0 <= j < |children|
      ensures rest[i] != children[j]
    {
      assert |children[j]| - 1 == |p|;
      if |rest[i]| >= 2 {
        assert rest[i] == hashes[i];
      }
    }
    forall i | 0 <= i < |next|
      ensures |next[i]| >= 1 && IsHashAt(m, next[i]) && next[i] !in done + {p}
      ensures |next[i]| >= 2 ==> next[i][..|next[i]| - 1] in done + {p}
    {
      if i < |rest| {
        assert next[i] == hashes[i];
        assert hashes[i] != p;
      } else {
        assert next[i] == children[i - |rest|];
      }
    }
    forall i, j | 0 <= i < j < |next|
      ensures next[i] != next[j]
    {
      if j < |rest| {
        assert next[i] == hashes[i] && next[j] == hashes[j];
      } else if i >= |rest| {
        assert next[i] == children[i - |rest|] && next[j] == children[j - |rest|];
      } else {
        assert next[i] == rest[i] && next[j] == children[j - |rest|];
      }
    }
  }

  /** `values.select { |value| value.is_a?(Hash) }`, as paths of length one. */
  method TopLevelHashes(m: map<Value, Value>) returns (hashes: seq<Path>)
    ensures forall i :: 0 <= i < |hashes| ==> |hashes[i]| == 1 && IsHashAt(m, hashes[i])
    ensures forall i, j :: 0 <= i < j < |hashes| ==> hashes[i] != hashes[j]
    ensures forall k :: k in m && m[k].Hsh? ==> [k] in hashes
  {
    hashes := [];
    var keys := m.Keys;
    while keys != {}
      invariant keys <= m.Keys
      invariant forall i :: 0 <= i < |hashes| ==> |hashes[i]| == 1 && hashes[i][0] in m && hashes[i][0] !in keys && m[hashes[i][0]].Hsh?
      invariant forall i, j :: 0 <= i < j < |hashes| ==> hashes[i] != hashes[j]
      invariant forall k :: k in m && k !in keys && m[k].Hsh? ==> [k] in hashes
      decreases keys
    {
      var k :| k in keys;
      if m[k].Hsh? {
        hashes := hashes + [[k]];
      }
      keys := keys - {k};
    }
    forall i | 0 <= i < |hashes|
      ensures IsHashAt(m, hashes[i])
    {
      assert hashes[i] == [hashes[i][0]];
      assert At(Hsh(m), hashes[i]) == At(m[hashes[i][0]], []);
    }
  }

  lemma StepKeepsDone(m: map<Value, Value>, hashes: seq<Path>, done: set<Path>, valuesBefore: set<Path>, valuesAfter: set<Path>)
    requires hashes != [] && StackOk(m, hashes, done) && DoneOk(m, done, valuesBefore)
    requires valuesAfter == valuesBefore + {hashes[|hashes| - 1]} + ChildPaths(m, hashes[|hashes| - 1])
    ensures DoneOk(m, done + {hashes[|hashes| - 1]}, valuesAfter)
  {
  }

  lemma StepKeepsCovered(m: map<Value, Value>, hashes: seq<Path>, done: set<Path>,
                         valuesBefore: set<Path>, keysBefore: set<Path>,
                         valuesAfter: set<Path>, keysAfter: set<Path>, children: seq<Path>)
    requires hashes != [] && Covered(m, hashes, done, valuesBefore, keysBefore)
    requires valuesAfter == valuesBefore + {hashes[|hashes| - 1]} + ChildPaths(m, hashes[|hashes| - 1])
    requires keysAfter == keysBefore + ChildPaths(m, hashes[|hashes| - 1])
    requires ChildrenOf(m, hashes[|hashes| - 1], children)
    ensures Covered(m, hashes[..|hashes| - 1] + children, done + {hashes[|hashes| - 1]}, valuesAfter, keysAfter)
  {
    var p := hashes[|hashes| - 1];
    var rest := hashes[..|hashes| - 1];
    var next := rest + children;
    assert forall q :: q in hashes ==> q == p || q in rest by {
      assert hashes == rest + [p];
    }
    forall k | k in m && m[k].Hsh?
      ensures [k] in done + {p} || [k] in next
    {
    }
    forall q, k | q in done + {p} && k in EntriesAt(m, q)
      ensures q + [k] in valuesAfter && q + [k] in keysAfter
      ensures EntriesAt(m, q)[k].Hsh? ==> q + [k] in done + {p} || q + [k] in next
    {
      if q == p {
        assert q + [k] in ChildPaths(m, p);
      }
    }
  }

  lemma StepKeepsSound(m: map<Value, Value>, p: Path, valuesBefore: set<Path>, keysBefore: set<Path>,
                       valuesAfter: set<Path>, keysAfter: set<Path>, values0: set<Path>, keys0: set<Path>)
    requires Sound(m, valuesBefore, keysBefore, values0, keys0)
    requires |p| >= 1 && IsHashAt(m, p)
    requires valuesAfter == valuesBefore + {p} + ChildPaths(m, p)
    requires keysAfter == keysBefore + ChildPaths(m, p)
    ensures Sound(m, valuesAfter, keysAfter, values0, keys0)
  {
    forall q | q in ChildPaths(m, p)
      ensures DeepFrozenValue(m, q) && DeepFrozenKey(m, q)
    {
      var k :| k in EntriesAt(m, p) && q == p + [k];
      AtExtend(Hsh(m), p, k);
    }
  }

  /** With the stack empty, everything `deep_freeze` should freeze is frozen. */
  lemma EmptyStackCoversAll(m: map<Value, Value>, done: set<Path>, frozenValues: set<Path>, frozenKeys: set<Path>)
    requires Covered(m, [], done, frozenValues, frozenKeys) && DoneOk(m, done, frozenValues)
    ensures forall q :: DeepFrozenValue(m, q) ==> q in frozenValues
    ensures forall q :: DeepFrozenKey(m, q) ==> q in frozenKeys
  {
    forall q | DeepFrozenValue(m, q) ensures q in frozenValues {
      ReachedHashesDone(m, done, q);
      if |q| >= 2 {
        ParentOf(m, q);
        ReachedHashesDone(m, done, q[..|q| - 1]);
        assert q == q[..|q| - 1] + [q[|q| - 1]];
      }
    }
    forall q | DeepFrozenKey(m, q) ensures q in frozenKeys {
      ParentOf(m, q);
      ReachedHashesDone(m, done, q[..|q| - 1]);
      assert q == q[..|q| - 1] + [q[|q| - 1]];
    }
  }

  /** A path that leads somewhere and has length two or more hangs off a Hash at its parent path. */
  lemma ParentOf(m: map<Value, Value>, q: Path)
    requires |q| >= 2 && At(Hsh(m), q).Some?
    ensures |q[..|q| - 1]| >= 1 && IsHashAt(m, q[..|q| - 1]) && q[|q| - 1] in EntriesAt(m, q[..|q| - 1])
  {
    assert q == q[..|q| - 1] + [q[|q| - 1]];
    AtExtend(Hsh(m), q[..|q| - 1], q[|q| - 1]);
  }

  /** Once the stack is empty, every Hash reachable through Hashes has been popped. */
  lemma {:induction false} ReachedHashesDone(m: map<Value, Value>, done: set<Path>, q: Path)
    requires forall k :: k in m && m[k].Hsh? ==> [k] in done
    requires forall p, k :: p in done && k in EntriesAt(m, p) && EntriesAt(m, p)[k].Hsh? ==> p + [k] in done
    ensures |q| >= 1 && IsHashAt(m, q) ==> q in done
    decreases |q|
  {
    if |q| == 1 && IsHashAt(m, q) {
      assert q == [q[0]] && q[1..] == [];
      assert At(Hsh(m), q) == At(m[q[0]], []);
    } else if |q| >= 2 && IsHashAt(m, q) {
      var parent := q[..|q| - 1];
      ParentOf(m, q);
      ReachedHashesDone(m, done, parent);
      AtExtend(Hsh(m), parent, q[|q| - 1]);
      assert q == parent + [q[|q| - 1]];
    }
  }
}
