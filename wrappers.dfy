/** Failure-compatible wrappers used across the model: an optional value (a file read
    that may return nothing, a dictionary lookup that may miss), a value-or-error result
    (a call that may raise) and a pass-or-error outcome (a call that returns nothing or raises). */
module Wrappers {

  datatype Option<+T> = None | Some(value: T)

  datatype Result<+R, +E> = Success(value: R) | Failure(error: E)

  datatype Outcome<+E> = Pass | Fail(error: E)
}
