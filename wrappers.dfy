/** Small failure-carrying datatypes shared by the services and gateways. */
module Wrappers {

  /** A value that may be absent (TypeScript `undefined`/`null`). */
  datatype Option<+T> = None | Some(value: T)

  /** The `{ ok, error, ... }` output of a service call that returns a payload on success. */
  datatype Result<+R, +E> = Success(value: R) | Failure(error: E)

  /** The `{ ok, error }` output of a service call that returns no payload on success. */
  datatype Outcome<+E> = Pass | Fail(error: E)
}
