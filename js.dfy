/** The slice of JavaScript values the detection code reads from the global
    scope. A property that is missing is JavaScript's `undefined`, written
    `None` where a lookup may fail. */
module Js {

  datatype Option<+T> = None | Some(value: T)

  datatype Value =
    | Obj(fields: map<string, Value>)
    | Str(s: string)
    | Num(n: int)
    | Null

  /** JavaScript truthiness of a possibly-undefined value: `undefined`, `null`,
      `""` and `0` are falsy, every object is truthy. */
  predicate Truthy(v: Option<Value>)
  {
    match v
    case None => false
    case Some(Null) => false
    case Some(Str(s)) => s != ""
    case Some(Num(n)) => n != 0
    case Some(Obj(_)) => true
  }

  /** `current?.[key]`: `undefined` and `null` short-circuit to `undefined`;
      an object yields its property or `undefined`. */
  function Step(current: Option<Value>, key: string): (r: Option<Value>)
    ensures r.Some? ==> current.Some? && current.value.Obj? && key in current.value.fields
  {
    match current
    case Some(Obj(m)) => if key in m then Some(m[key]) else None
    case _ => None
  }

  /** The number a relational comparison sees: `null` converts to 0 and
      `undefined` to NaN, against which every comparison is false. */
  function NumberOf(v: Option<Value>): Option<int>
  {
    match v
    case Some(Num(n)) => Some(n)
    case Some(Null) => Some(0)
    case _ => None
  }

  /** `v > k` in JavaScript. */
  predicate Above(v: Option<Value>, k: int)
  {
    match NumberOf(v)
    case Some(n) => n > k
    case None => false
  }

  /** `v <= k` in JavaScript. */
  predicate AtMost(v: Option<Value>, k: int)
  {
    match NumberOf(v)
    case Some(n) => n <= k
    case None => false
  }
}
