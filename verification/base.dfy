/** Values shared by every part of the model: JavaScript's optional values
    (null / undefined), thrown exceptions, and the outcome of a call that can
    throw. */
module Base {

  /** A value that may be null or undefined. */
  datatype Option<+T> = None | Some(value: T) {
    /** The value, or `default` when it is absent (`x ?? default`). */
    function GetOr(default: T): T {
      if Some? then value else default
    }
  }

  /** What a JavaScript operation throws (or a rejected promise carries). */
  datatype Exception =
    | Error(message: string)             // new Error(message)
    | Rejection(reason: Option<string>)  // a rejection passed through; reason is its `message` property
    | TypeError(message: string)         // a property read on undefined

  /** The result of a call that either returns a value or throws. */
  datatype Result<+T> = Ok(value: T) | Throw(exception: Exception)

  /** The result of a call that returns nothing or throws. */
  datatype Outcome = Pass | Fail(exception: Exception)
}
