/** Values shared by the server and the client models: optional values
    (JavaScript's `undefined`/`null`), thrown JavaScript errors and the
    outcome of an awaited call. */
module Outcomes {

  /** An optional value; `None` stands for `undefined` or `null`. */
  datatype Option<+T> = None | Some(value: T) {
    function GetOr(default: T): T {
      match this
      case Some(v) => v
      case None => default
    }
  }

  /** A thrown JavaScript error: an optional `code` (Firebase error codes
      such as "auth/invalid-email") and its `message`. */
  datatype JsError = JsError(code: Option<string>, message: string)

  /** What an awaited call did: resolved with a value, or threw. */
  datatype Outcome<+T> = Done(value: T) | Threw(err: JsError)

  /** JavaScript's `a || b` on two strings: the empty string is falsy. */
  function OrElse(a: string, b: string): (r: string)
    ensures a != "" ==> r == a
    ensures a == "" ==> r == b
  {
    if a == "" then b else a
  }

  /** JavaScript's `a || b` where `a` may be missing. */
  function OptOrElse(a: Option<string>, b: string): (r: string)
    ensures a.Some? && a.value != "" ==> r == a.value
    ensures a.None? || a.value == "" ==> r == b
  {
    match a
    case Some(s) => OrElse(s, b)
    case None => b
  }
}
