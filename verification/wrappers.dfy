/** Failure-compatible wrappers used throughout the model: an optional value
    and the outcome of a collaborator call that either returns or throws. */
module Wrappers {

  /** A value that may be absent, as `undefined` is in the dashboard. */
  datatype Option<+T> = None | Some(value: T)

  /** The outcome of a call that may throw: `Ok` carries what it returned,
      `Err` carries the thrown value verbatim. */
  datatype Result<+T, +E> = Ok(value: T) | Err(error: E)
}
