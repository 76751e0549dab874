/** Failure-carrying datatypes shared by the configuration and request modules. */
module Wrappers {

  /** A value that may be missing: an omitted argument or an absent field. */
  datatype Option<+T> = None | Some(value: T)

  /** Either a computed value or the error that prevented it. */
  datatype Result<+R, +E> = Success(value: R) | Failure(error: E)
}
