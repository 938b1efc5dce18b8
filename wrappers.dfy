/** Option and Result shared by every module: a JavaScript `throw` or a C
 *  failure becomes `Err` carrying the message the source would raise. */
module Wrappers {
  datatype Option<T> = None | Some(value: T)

  datatype Result<T> = Ok(value: T) | Err(error: string)
  {
    predicate IsFailure() { Err? }
  }
}
