/**
 The JavaScript values the handler and the dataset loader touch, with the
 truthiness rule that every `x ? a : b`, `!x` and `a || b` in the handler
 relies on.
 */
module Js {

  /** A JSON-like JavaScript value. `Undefined` is what reading a missing
      property yields. NaN, arrays and functions are not modelled. */
  datatype Value =
    | Undefined
    | Null
    | Bool(b: bool)
    | Num(n: real)
    | Str(s: string)
    | Obj(props: Object)

  /** A plain object: its own enumerable properties. */
  type Object = map<string, Value>

  /** JavaScript's ToBoolean: `undefined`, `null`, `false`, `0` and `""` are
      falsy; every object, even an empty one, is truthy. */
  predicate Truthy(v: Value)
  {
    match v
    case Undefined => false
    case Null => false
    case Bool(b) => b
    case Num(n) => n != 0.0
    case Str(s) => s != ""
    case Obj(_) => true
  }

  /** `o.key` on an object: `undefined` when the property is missing. */
  function Get(o: Object, key: string): (r: Value)
    ensures key !in o ==> r == Undefined
    ensures key in o ==> r == o[key]
  {
    if key in o then o[key] else Undefined
  }

  /** `v.key` on any value that is neither `null` nor `undefined` (reading a
      property of those throws a TypeError, so the caller must rule them out).
      Numbers, booleans and strings have no own data properties of the names
      this program reads, so the read yields `undefined`. */
  function Prop(v: Value, key: string): (r: Value)
    requires !v.Undefined? && !v.Null?
    ensures r != Undefined ==> v.Obj? && key in v.props && r == v.props[key]
  {
    match v
    case Obj(o) => Get(o, key)
    case _ => Undefined
  }
}
