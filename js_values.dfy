/**
 * The few JavaScript value rules the relay relies on: a property that may be
 * missing, the `||` operator on strings, and the coercion of a missing value
 * to the text "undefined" by template literals and property keys.
 */
module JsValues {

  /** A property that may be absent: `None` stands for `undefined`, and for `null` where the
      two behave alike (`||`, `?.`, `??`). */
  datatype Option<+T> = None | Some(value: T)

  /** JavaScript truthiness of an optional string: present and not empty. */
  predicate Truthy(v: Option<string>)
  {
    v.Some? && v.value != ""
  }

  /** `a || b` with `a` an optional string and `b` a string. */
  function Or(a: Option<string>, b: string): string
  {
    if Truthy(a) then a.value else b
  }

  /** How `${v}` in a template literal and `obj[v]` as a property key render a string that may be missing.
      Here `None` is `undefined`, which renders as "undefined" (`null` would render as "null";
      environment variables and query ids are never `null`). */
  function ToText(v: Option<string>): string
  {
    match v
    case Some(s) => s
    case None => "undefined"
  }
}
