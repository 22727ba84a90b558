/** Option and Result, used for Python's `None` and for raised errors. */
module Wrappers {

  datatype Option<+T> = None | Some(value: T)

  /** The errors the modelled code raises instead of returning. */
  datatype Error =
    | IndexError        // indexing an empty list (`object_list[-1]`)
    | ValueError(msg: string)

  datatype Result<+T> = Ok(value: T) | Err(error: Error)
}
