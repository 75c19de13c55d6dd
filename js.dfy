/** The JavaScript values the server handles: form fields as the JSON body
    delivers them, environment variables, and the truthiness that `||` and
    `? :` test. */
module Js {
  import opened Text

  datatype Option<+T> = None | Some(value: T)

  /** A form field of the request body: absent (`undefined`), `null`, or a
      JSON boolean, integer or string. */
  datatype JsValue = Undefined | Null | Bool(b: bool) | Num(n: int) | Str(s: string)

  /** JavaScript truthiness: `undefined`, `null`, `false`, `0` and `""` are falsy. */
  predicate Truthy(v: JsValue)
  {
    match v
    case Undefined => false
    case Null => false
    case Bool(b) => b
    case Num(n) => n != 0
    case Str(s) => s != ""
  }

  /** `String(v)`, which is what a template literal inserts for `${v}`. */
  function ToText(v: JsValue): (t: string)
    ensures Truthy(v) ==> t != ""
    ensures !v.Str? ==> SingleLine(t)
  {
    match v
    case Undefined => "undefined"
    case Null => "null"
    case Bool(b) => if b then "true" else "false"
    case Num(n) => IntToDecimal(n)
    case Str(s) => s
  }

  /** `process.env.NAME`: unset, or a string that may be empty. */
  type EnvVar = Option<string>

  /** Truthiness of an environment variable: set and not empty. */
  predicate IsSet(e: EnvVar)
  {
    e.Some? && e.value != ""
  }

  /** `a || b` on two environment variables: the left operand when it is
      truthy, otherwise the right one, whatever it is. */
  function Or(a: EnvVar, b: EnvVar): (r: EnvVar)
    ensures IsSet(r) <==> IsSet(a) || IsSet(b)
    ensures r == a || r == b
    ensures IsSet(a) ==> r == a
    ensures !IsSet(a) ==> r == b
  {
    if IsSet(a) then a else b
  }
}
