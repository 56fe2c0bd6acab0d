/** The handful of JavaScript notions the rest of the model speaks about:
    values that may be null or undefined, Error objects, thrown values, and
    the way an awaited call ends (it returns a value or it throws). */
module Js {

  /** `None` stands for JavaScript's `null` or `undefined`. */
  datatype Option<+T> = None | Some(value: T) {
    function GetOr(default: T): T {
      match this
      case Some(v) => v
      case None => default
    }
  }

  /** An `Error` object; only its `message` matters to the code modelled. */
  datatype JsError = JsError(message: string)

  /** A value that reached a `catch` clause: an `Error` instance, or any other
      value, kept as the string `String(value)` would give for it. */
  datatype Thrown = ThrownError(error: JsError) | ThrownOther(asString: string)

  /** How a (possibly awaited) call ends: it returns a value or it throws. */
  datatype Completion<+T> = Normal(value: T) | Abrupt(thrown: Thrown)
}
