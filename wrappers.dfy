/** Option and Result, used for the values pandas may leave missing and for
    the operations of the dashboard that raise. */
module Wrappers {

  datatype Option<+T> = None | Some(value: T)

  datatype Result<+R, +E> = Success(value: R) | Failure(error: E)
}
