/** Values shared by every module: optional values, results, and the ways an operation fails. */
module Basics {

  datatype Option<+T> = None | Some(value: T) {
    function GetOr(default: T): T {
      if Some? then value else default
    }
  }

  /** Why an operation returned an error. The first three come from the API server,
      `Unavailable` standing for every error that says nothing about the object itself.
      `Rejected` is an error the program raises, `TimedOut` a watch that did not succeed and
      `Panicked` a Go run-time panic. */
  datatype Error = NotFound | AlreadyExists | Unavailable | Rejected | TimedOut | Panicked

  datatype Result<+T> = Ok(value: T) | Err(error: Error)
}
