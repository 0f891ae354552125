/**
 * Ruby values as the SDK sees them. Only the class of a Float or a Time
 * matters anywhere in the SDK, so both are opaque tokens here; an object of
 * any other class is `Obj`, identified by its `object_id`.
 */
module RubyValues {
  import opened Wrappers

  type ObjectId = nat

  datatype Value =
    | Nil
    | Bool(b: bool)
    | Int(i: int)
    | Flt(token: nat)
    | Str(s: string)
    | Sym(name: string)
    | Time(token: nat)
    | Arr(elems: seq<Value>)
    | Hsh(entries: map<Value, Value>)
    | Obj(objectId: ObjectId)

  /** The exact class of a value (`value.class`). */
  datatype RubyClass =
    | NilClass | TrueClass | FalseClass | IntegerClass | FloatClass
    | StringClass | SymbolClass | TimeClass | ArrayClass | HashClass | ObjectClass

  function ClassOf(v: Value): RubyClass {
    match v
    case Nil => NilClass
    case Bool(b) => if b then TrueClass else FalseClass
    case Int(_) => IntegerClass
    case Flt(_) => FloatClass
    case Str(_) => StringClass
    case Sym(_) => SymbolClass
    case Time(_) => TimeClass
    case Arr(_) => ArrayClass
    case Hsh(_) => HashClass
    case Obj(_) => ObjectClass
  }

  /** `value.is_a?(Numeric)`: Integer and Float are the Numeric classes modelled. */
  predicate IsNumeric(v: Value) {
    v.Int? || v.Flt?
  }

  /** Ruby truthiness: everything except `nil` and `false`. */
  predicate Truthy(v: Value) {
    !v.Nil? && v != Bool(false)
  }

  /** The exceptions the modelled code raises, or lets through from code outside the model. */
  datatype Error =
    | ArgumentError(message: string)
    | NoMethodError(message: string)
    | FrozenError(message: string)
    | ExternalError(message: string)

  /**
   * A Ruby Hash object: its entries, whether it is frozen, the value `[]`
   * yields for a missing key (`Hash.new(default)`), and whether it is a
   * `Concurrent::Hash`. A class, because the SDK shares and mutates such
   * hashes in place.
   */
  class RubyHash {
    var entries: map<Value, Value>
    var frozen: bool
    const defaultValue: Value
    const concurrent: bool

    constructor (entries: map<Value, Value>, defaultValue: Value, concurrent: bool)
      ensures this.entries == entries && !frozen
      ensures this.defaultValue == defaultValue && this.concurrent == concurrent
    {
      this.entries := entries;
      this.frozen := false;
      this.defaultValue := defaultValue;
      this.concurrent := concurrent;
    }

    /** `hash[key]`. */
    function Get(key: Value): (v: Value)
      reads this
      ensures key in entries ==> v == entries[key]
      ensures key !in entries ==> v == defaultValue
    {
      if key in entries then entries[key] else defaultValue
    }

    /** `hash[key] = value`: raises FrozenError on a frozen hash. */
    method Store(key: Value, value: Value) returns (r: Outcome<Error>)
      modifies this
      ensures frozen == old(frozen)
      ensures r.Fail? <==> old(frozen)
      ensures r.Fail? ==> r.error.FrozenError? && entries == old(entries)
      ensures r.Pass? ==> entries == old(entries)[key := value] && Get(key) == value
    {
      if frozen {
        r := Fail(FrozenError("can't modify frozen Hash"));
      } else {
        entries := entries[key := value];
        r := Pass;
      }
    }

    method Freeze()
      modifies this
      ensures frozen && entries == old(entries)
    {
      frozen := true;
    }
  }
}
