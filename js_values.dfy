/**
 * The small part of JavaScript value semantics the site's code relies on:
 * truthiness of request fields (`!name`), template-literal interpolation
 * (`${type}`), the `||` default idiom and the two kinds of thrown values
 * (`error instanceof Error ? error.message : ...`).
 *
 * Values are restricted to what a JSON request body or JSON response field
 * holds in practice for this site: a missing property, `null` or a string.
 */
module JsValues {

  /** A property read from a parsed JSON object. */
  datatype JsValue = Undefined | Null | Str(s: string)

  /** JavaScript truthiness: `undefined`, `null` and `''` are falsy. */
  predicate Truthy(v: JsValue) {
    v.Str? && v.s != ""
  }

  /** `String(v)`, which is also what `${v}` in a template literal produces. */
  function Text(v: JsValue): (t: string)
    ensures v.Str? ==> t == v.s
    ensures v.Undefined? ==> t == "undefined"
    ensures v.Null? ==> t == "null"
  {
    match v
    case Undefined => "undefined"
    case Null => "null"
    case Str(s) => s
  }

  /** `v || fallback` for a string fallback, read as text. */
  function OrElse(v: JsValue, fallback: string): (t: string)
    ensures Truthy(v) ==> t == v.s
    ensures !Truthy(v) ==> t == fallback
  {
    if Truthy(v) then v.s else fallback
  }

  /** A value caught by a `catch` clause: an `Error` instance or anything else. */
  datatype Thrown = ErrorValue(message: string) | OtherValue(value: JsValue)
}
