/** Failure-carrying datatypes shared by the rest of the model. */
module Wrappers {

  /** A value that may be absent. In the signal buffers `None` stands for a
      sample that reads as NaN ("missing"). */
  datatype Option<+T> = None | Some(value: T)

  /** Either a result or the error the computation raised. */
  datatype Result<+R, +E> = Ok(value: R) | Err(error: E)

  /** Python's `ValueError`, the only exception of the generator that this model covers. */
  datatype ValueError = ValueError(message: string)
}
