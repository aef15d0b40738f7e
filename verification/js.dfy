/**
 Values and conventions of the JavaScript runtime that the server relies on:
 optional values, results that either carry a value or an error, the loosely
 typed chain identifier callers hand to the services, and JavaScript's notion
 of truthiness for the few value shapes that reach the modelled code.
 */
module Js {

  /** A value that may be absent (`null`/`undefined` in the source). */
  datatype Option<+T> = None | Some(value: T) {
    function GetOr(default: T): T {
      match this
      case Some(v) => v
      case None => default
    }
  }

  /** The outcome of an operation that may throw: a value, or the thrown error. */
  datatype Result<+T, +E> = Ok(value: T) | Err(error: E)

  /**
   The chain identifier as it reaches the services: absent (`undefined`),
   `null`, a string (every route passes the query string through), or an
   integer number (callers may pass `1` instead of `'1'`).
   */
  datatype ChainId = Undefined | Null | Str(s: string) | Num(n: int)

  /** JavaScript truthiness of a chain identifier: `undefined`, `null`, `''` and `0` are falsy. */
  predicate Truthy(c: ChainId) {
    match c
    case Undefined => false
    case Null => false
    case Str(s) => s != ""
    case Num(n) => n != 0
  }

  /** JavaScript truthiness of a string: only the empty string is falsy. */
  predicate StrTruthy(s: string) {
    s != ""
  }

  /** `x || fallback` for a string that may be absent. */
  function OrElse(x: Option<string>, fallback: string): (r: string)
    ensures x.Some? && x.value != "" ==> r == x.value
    ensures x.None? || x.value == "" ==> r == fallback
  {
    if x.Some? && StrTruthy(x.value) then x.value else fallback
  }

  /** `chainId || fallback`: the identifier itself when truthy, otherwise the fallback string. */
  function ChainIdOr(c: ChainId, fallback: string): (r: ChainId)
    ensures Truthy(c) ==> r == c
    ensures !Truthy(c) ==> r == Str(fallback)
  {
    if Truthy(c) then c else Str(fallback)
  }
}
