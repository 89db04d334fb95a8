/**
 * The pieces of JavaScript semantics the library leans on: optional values
 * (`undefined`) and the `||` operator, whose left operand is kept only when
 * it is truthy. Absent strings and `""` are falsy; absent numbers and `0`
 * are falsy. JavaScript numbers are modelled as `real`, so NaN (also falsy)
 * does not occur.
 */
module Js {

  /** An optional JavaScript value: `None` is `undefined`. */
  datatype Option<+T> = None | Some(value: T)

  /** Truthiness of an optional string. */
  predicate Truthy(s: Option<string>) {
    s.Some? && s.value != ""
  }

  /** Truthiness of an optional number. */
  predicate NumTruthy(n: Option<real>) {
    n.Some? && n.value != 0.0
  }

  /** `s || fallback` for an optional string. */
  function Or(s: Option<string>, fallback: string): string {
    if Truthy(s) then s.value else fallback
  }

  /** `n || fallback` for an optional number. */
  function NumOr(n: Option<real>, fallback: real): real {
    if NumTruthy(n) then n.value else fallback
  }

  /** `s || undefined`: a falsy string becomes absent. */
  function OrUndefined(s: Option<string>): Option<string> {
    if Truthy(s) then s else None
  }

  /** `n || undefined`: a falsy number becomes absent. */
  function NumOrUndefined(n: Option<real>): Option<real> {
    if NumTruthy(n) then n else None
  }
}
