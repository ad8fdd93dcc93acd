/** Small value wrappers shared by the whole model: an optional value, what a
    JavaScript `throw` carries, and the outcome of a call that may throw. */
module Wrappers {

  /** `None` stands for JavaScript's `undefined` (or `null`) wherever the source
      reads an optional value. */
  datatype Option<+T> = None | Some(value: T)

  /** A thrown value: an `Error` instance (with its `message`), or any other
      value, kept as the text `String(value)` gives for it. */
  datatype Thrown = ErrorValue(message: string) | OtherValue(text: string)

  /** The result of a call that either returns a value or throws. */
  datatype Outcome<+T> = Ok(value: T) | Fail(thrown: Thrown)
}
