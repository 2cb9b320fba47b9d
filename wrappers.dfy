/** Option and Result, the two shapes Go's multiple returns take in this model:
    `(v, nil)` / `(zero, err)` become `Success(v)` / `Failure(err)`, and a
    nil-able value becomes an `Option`. */
module Wrappers {

  datatype Option<+T> = None | Some(value: T)

  datatype Result<+R, +E> = Success(value: R) | Failure(error: E)
}
