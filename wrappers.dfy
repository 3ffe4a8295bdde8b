/** Optional values and success/failure results shared by the storefront model. */
module Wrappers {

  /** A value that may be absent: JavaScript's `undefined`/`null` for a field or a lookup. */
  datatype Option<+T> = None | Some(value: T)

  /** The outcome of a request handler: its data, or the failure its catch block reports. */
  datatype Result<+T> = Success(value: T) | Failure(message: string)
}
