/** Option and Result: a value that pandas leaves missing (NaN), and an
    operation that Python aborts with an exception. */
module Wrappers {

  datatype Option<+T> = None | Some(value: T)

  datatype Result<+T, +E> = Ok(value: T) | Err(error: E)
}
