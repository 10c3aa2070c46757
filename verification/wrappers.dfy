/** The wrappers shared by the model: `Option` stands for a JavaScript value
    that may be `null` or `undefined`, `Result` for a promise that either
    resolves with a value or rejects with an `Error` message. */
module Wrappers {

  datatype Option<+T> = None | Some(value: T)

  datatype Result<+R, +E> = Success(value: R) | Failure(error: E)
}
