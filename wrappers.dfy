/** Optional values and results with an error, used for the exporter's
    optional command-line arguments and its usage errors. */
module Wrappers {

  datatype Option<+T> = None | Some(value: T)

  datatype Result<+R, +E> = Success(value: R) | Failure(error: E)
}
