/**
 * Small vocabulary for JavaScript values shared by every module: a value
 * that may be `undefined`/`null`, an operation that may throw an `Error`
 * with a message, and the truthiness tests the application relies on.
 */
module Js {

  /** A possibly missing value: `None` stands for both `undefined` and `null`. */
  datatype Option<+T> = None | Some(value: T)

  /** The outcome of code that either returns a value or throws `new Error(message)`. */
  datatype Result<+T> = Ok(value: T) | Err(message: string)

  /** JavaScript truthiness of a string that may be missing: `undefined`, `null` and `""` are falsy. */
  predicate Truthy(s: Option<string>)
  {
    s.Some? && s.value != ""
  }

  /** `s || fallback` for a string that may be missing: empty only when both are, and a truthy
      value always wins over the fallback. */
  function OrElse(s: Option<string>, fallback: string): (r: string)
    ensures r != "" <==> Truthy(s) || fallback != ""
    ensures Truthy(s) ==> r == s.value
    ensures !Truthy(s) ==> r == fallback
  {
    if Truthy(s) then s.value else fallback
  }

  /** `a || b` where both may be missing: the first truthy one, else `b` as it is. */
  function Or(a: Option<string>, b: Option<string>): (r: Option<string>)
    ensures Truthy(r) <==> Truthy(a) || Truthy(b)
    ensures Truthy(a) ==> r == a
  {
    if Truthy(a) then a else b
  }

  /** The laws of `||` the message builders rely on: a chain `a || b || f` may be grouped either
      way, applying the same fallback twice is applying it once, and an empty fallback gives the
      value itself or "". */
  lemma OrElseLaws(a: Option<string>, b: Option<string>, s: Option<string>, f: string)
    ensures OrElse(Or(a, b), f) == OrElse(a, OrElse(b, f))
    ensures OrElse(Some(OrElse(s, f)), f) == OrElse(s, f)
    ensures OrElse(s, "") == if s.Some? then s.value else ""
  {
  }
}
