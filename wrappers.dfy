/** Option and Result, the failure-carrying values used across the model. */
module Wrappers {

  /** `None` stands for JavaScript's `undefined` (a missing cell, field or key). */
  datatype Option<+T> = None | Some(value: T) {
    /** `this ?? default` */
    function GetOr(default: T): T {
      if Some? then value else default
    }
  }

  datatype Result<+T, +E> = Ok(value: T) | Err(error: E)
}
