/** JavaScript values as the meal controller sees them in request bodies and
    record fields, with the two pieces of JavaScript semantics it relies on:
    truthiness and the `||` operator. Numbers are integers here. */
module Js {

  datatype Value = Undefined | Null | Bool(b: bool) | Number(n: int) | Str(s: string)

  /** Falsy values are undefined, null, false, 0 and the empty string. */
  predicate Truthy(v: Value)
    ensures Truthy(v) <==> v !in {Undefined, Null, Bool(false), Number(0), Str("")}
  {
    match v
    case Undefined => false
    case Null => false
    case Bool(b) => b
    case Number(n) => n != 0
    case Str(s) => s != ""
  }

  /** `a || b`: the first operand when it is truthy, the second otherwise. */
  function Or(a: Value, b: Value): (r: Value)
    ensures r == a || r == b
    ensures Truthy(r) <==> Truthy(a) || Truthy(b)
    ensures Truthy(a) ==> r == a
    ensures !Truthy(a) ==> r == b
  {
    if Truthy(a) then a else b
  }
}
