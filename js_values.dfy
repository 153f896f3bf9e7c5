/** The part of JavaScript's value semantics that the loader relies on:
    truthiness, property lookup, the operand-returning `||` and `&&`, and `!`,
    which returns a boolean. */
module JsValues {

  /** A JavaScript value as the loader sees it. Numbers are integers (no NaN,
      no fractions); objects are their own enumerable fields. */
  datatype JsValue =
    | Undefined
    | Null
    | Bool(b: bool)
    | Num(n: int)
    | Str(s: string)
    | Obj(fields: map<string, JsValue>)

  /** JavaScript's ToBoolean: `undefined`, `null`, `false`, `0` and `""` are falsy. */
  predicate Truthy(v: JsValue) {
    match v
    case Undefined => false
    case Null => false
    case Bool(b) => b
    case Num(n) => n != 0
    case Str(s) => s != ""
    case Obj(_) => true
  }

  /** `v[key]`: an own field of an object, `undefined` otherwise. */
  function Get(v: JsValue, key: string): (r: JsValue)
    ensures v.Obj? && key in v.fields ==> r == v.fields[key]
    ensures !(v.Obj? && key in v.fields) ==> r == Undefined && !Truthy(r)
  {
    if v.Obj? && key in v.fields then v.fields[key] else Undefined
  }

  /** `a || b`: yields one of its operands, and is truthy exactly when either is. */
  function Or(a: JsValue, b: JsValue): (r: JsValue)
    ensures Truthy(r) <==> Truthy(a) || Truthy(b)
    ensures Truthy(a) ==> r == a
    ensures !Truthy(a) ==> r == b
  {
    if Truthy(a) then a else b
  }

  /** `a && b`: yields one of its operands, and is truthy exactly when both are. */
  function And(a: JsValue, b: JsValue): (r: JsValue)
    ensures Truthy(r) <==> Truthy(a) && Truthy(b)
    ensures Truthy(a) ==> r == b
    ensures !Truthy(a) ==> r == a
  {
    if Truthy(a) then b else a
  }

  /** `!a`: always a boolean, the negation of `a`'s truthiness. */
  function Not(a: JsValue): (r: JsValue)
    ensures r.Bool? && (Truthy(r) <==> !Truthy(a))
  {
    Bool(!Truthy(a))
  }

  /** An object literal `{ message: m }`. */
  function MessageObject(m: string): (r: JsValue)
    ensures Truthy(r) && Get(r, "message") == Str(m)
  {
    Obj(map["message" := Str(m)])
  }
}
