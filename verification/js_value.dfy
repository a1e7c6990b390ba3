/** The fragment of JavaScript's value model that the event helpers observe:
    primitives, plain objects as finite maps from keys to values, truthiness,
    property reads and the value-returning `&&` / `||` operators. */
module JsValue {

  /** A JavaScript value. Numbers are modelled as integers (NaN, fractions
      and -0 do not occur in the event shapes this model is about); a plain
      object is its own enumerable properties. */
  datatype Value =
    | Undefined
    | Null
    | Bool(b: bool)
    | Num(n: int)
    | Str(s: string)
    | Obj(fields: map<string, Value>)

  /** The result of an expression that may throw a TypeError. */
  datatype Outcome<T> = Ok(value: T) | TypeError

  /** `v == null` in JavaScript: the two values whose property reads throw. */
  predicate Nullish(v: Value) {
    v.Undefined? || v.Null?
  }

  /** JavaScript's ToBoolean: `undefined`, `null`, `false`, `0` and `""` are
      falsy; every object is truthy. */
  predicate Truthy(v: Value) {
    match v
    case Undefined => false
    case Null => false
    case Bool(b) => b
    case Num(n) => n != 0
    case Str(s) => s != ""
    case Obj(_) => true
  }

  /** The property read `v[k]`: throws on `undefined` and `null`; a missing
      own property reads as `undefined`. */
  function Prop(v: Value, k: string): (r: Outcome<Value>)
    ensures r.TypeError? <==> Nullish(v)
    ensures r.Ok? && r.value != Undefined ==> v.Obj? && k in v.fields && r.value == v.fields[k]
    ensures v.Obj? && k in v.fields ==> r == Ok(v.fields[k])
    ensures v.Obj? && k !in v.fields ==> r == Ok(Undefined)
  {
    match v
    case Undefined => TypeError
    case Null => TypeError
    case Obj(m) => if k in m then Ok(m[k]) else Ok(Undefined)
    case _ => Ok(Undefined)
  }

  /** A property read on a value that cannot throw. */
  function Get(v: Value, k: string): (r: Value)
    requires !Nullish(v)
    ensures Prop(v, k) == Ok(r)
  {
    Prop(v, k).value
  }

  /** `a || b`: the first operand when it is truthy, otherwise the second. */
  function Or(a: Value, b: Value): (r: Value)
    ensures Truthy(r) <==> Truthy(a) || Truthy(b)
    ensures r == a || r == b
  {
    if Truthy(a) then a else b
  }
}
