/** Option and Result, the failure-carrying values the model uses for Python's `None` returns and
    for errors that the source reports as values. */
module Wrappers {

  datatype Option<+T> = None | Some(value: T)

  datatype Result<+T, +E> = Ok(value: T) | Err(error: E)
}
