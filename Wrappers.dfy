/** Option and Result, the two failure-carrying shapes the model uses for
    JavaScript's `null`/`undefined` and for thrown errors. */
module Wrappers {

  /** `None` stands for `null` or `undefined`. */
  datatype Option<+T> = None | Some(value: T)

  /** `Err` carries the `message` of a thrown `Error`. */
  datatype Result<+T> = Ok(value: T) | Err(message: string)
}
