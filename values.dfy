/** Values shared by every module: the usual Option and Result wrappers and the
    small part of JavaScript's value model (truthiness, `||`, template rendering
    of an absent value) that the modelled code depends on. */
module Values {

  datatype Option<+T> = None | Some(value: T)

  datatype Result<+T, +E> = Ok(value: T) | Err(error: E)

  /** A JavaScript value as far as the modelled code inspects it. Numbers are
      integers here: fractions and NaN are not represented. */
  datatype JsValue =
    | Undefined
    | Null
    | Bool(b: bool)
    | Number(n: int)
    | Str(s: string)
    | Object(id: nat)

  /** JavaScript's ToBoolean. */
  predicate Truthy(v: JsValue)
  {
    match v
    case Undefined => false
    case Null => false
    case Bool(b) => b
    case Number(n) => n != 0
    case Str(s) => s != ""
    case Object(_) => true
  }

  /** `a || b`: the first operand when it is truthy, the second otherwise. */
  function Or(a: JsValue, b: JsValue): (r: JsValue)
    ensures Truthy(r) <==> Truthy(a) || Truthy(b)
    ensures r == a || r == b
    ensures Truthy(a) ==> r == a
  {
    if Truthy(a) then a else b
  }

  /** An optional string in a JavaScript condition: absent and empty are falsy. */
  predicate Present(s: Option<string>)
  {
    s.Some? && s.value != ""
  }

  /** An optional string inside a template literal: `undefined` prints as such. */
  function Show(s: Option<string>): string
  {
    if s.Some? then s.value else "undefined"
  }
}
