/** Option and Result, for lookups that may find nothing and for the
    operations of the processor that raise an exception in Python. */
module Wrappers {

  datatype Option<+T> = None | Some(value: T)

  datatype Result<+R, +E> = Ok(value: R) | Err(error: E)
}
