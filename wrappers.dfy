/** Option and Result, used for the values a channel may not have yet and for the
    exporter's failure modes. */
module Wrappers {

  datatype Option<+T> = None | Some(value: T)

  datatype Result<+R, +E> = Ok(value: R) | Err(error: E)
}
