/** Failure-compatible wrappers shared by the other modules: `Option` stands for a
    nullable reference, `Result` for a value or a thrown error, `Outcome` for a
    `Task` that either completes or throws. */
module Wrappers {

  datatype Option<+T> = None | Some(value: T)

  datatype Result<+T, +E> = Success(value: T) | Failure(error: E)

  datatype Outcome<+E> = Pass | Fail(error: E)
}
