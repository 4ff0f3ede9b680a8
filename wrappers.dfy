/** Small value types shared by the client-side modules: optional values, the three ways a
    network request can resolve, the outcome of an operation that may throw, and the
    JavaScript `a || b` idiom on strings. */
module Wrappers {

  datatype Option<+T> = None | Some(value: T) {
    function GetOr(default: T): T {
      match this
      case Some(v) => v
      case None => default
    }
  }

  /** The JSON body of a non-ok HTTP reply, as far as the client reads it: its `error` field. */
  datatype ErrorBody = ErrorBody(error: Option<string>)

  /** How a `fetch` resolves: an ok response with its decoded body, a response whose status is
      not ok, or a thrown exception (a network-level failure) with its message. */
  datatype Reply<+T> = Ok(data: T) | NotOk(body: ErrorBody) | Thrown(message: string)

  /** How an async operation ends: it returns a value, or it throws an Error with a message. */
  datatype Outcome<+T> = Done(value: T) | Failed(message: string)

  /** JavaScript `s || fallback` for strings: the empty string is falsy. */
  function OrElse(s: string, fallback: string): (r: string)
    ensures s != "" ==> r == s
    ensures s == "" ==> r == fallback
    ensures fallback != "" ==> r != ""
  {
    if s != "" then s else fallback
  }

  /** JavaScript truthiness of a value that is either null/undefined or a string. */
  predicate Truthy(s: Option<string>) {
    s.Some? && s.value != ""
  }
}
