/** Option, Result and Outcome, the failure-carrying values used by every other module. */
module Wrappers {

  datatype Option<+T> = None | Some(value: T)

  /** `Ok` carries a computed value; `Err` carries what the source raises instead. */
  datatype Result<+T, +E> = Ok(value: T) | Err(error: E)

  /** For checks that either pass or raise. */
  datatype Outcome<+E> = Pass | Fail(error: E)
}
