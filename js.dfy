/// The few JavaScript semantics the logging façade relies on: the values it
/// inspects, the truthiness test behind `if`, `&&` and `||`, and property
/// lookup with the TypeError raised on `undefined` and `null`.
module Js {

  datatype Option<T> = None | Some(value: T)

  /** A JavaScript value as far as configuration objects go. Numbers are
      integers (no NaN, no -0); functions and symbols do not occur. */
  datatype Value =
    | Undefined
    | Null
    | Bool(b: bool)
    | Num(n: int)
    | Str(s: string)
    | Obj(props: map<string, Value>)

  /** The outcome of evaluating an expression that may throw. */
  datatype Completion = Normal(value: Value) | TypeError

  /** ToBoolean: the test made by `if (v)`, `v && w` and `v || w`. */
  predicate Truthy(v: Value) {
    match v
    case Undefined => false
    case Null => false
    case Bool(b) => b
    case Num(n) => n != 0
    case Str(s) => s != ""
    case Obj(_) => true
  }

  /** `a || b` once both sides are evaluated. */
  function Or(a: Value, b: Value): Value {
    if Truthy(a) then a else b
  }

  /** The own property `key` of an object, or `undefined`. Only objects have
      properties here: a string's `length` and index properties, and every
      property inherited from a prototype, are not modelled. */
  function Prop(v: Value, key: string): Value {
    match v
    case Obj(p) => if key in p then p[key] else Undefined
    case _ => Undefined
  }

  /** `v[key]`: a TypeError on `undefined` and `null`, the own property otherwise. */
  function Member(v: Value, key: string): Completion {
    if v.Undefined? || v.Null? then TypeError else Normal(Prop(v, key))
  }
}
