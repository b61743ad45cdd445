/** Values that stand for Python's `None` and for code that may raise. */
module Outcomes {

  /** A value that may be absent (Python's `None`). */
  datatype Option<+T> = None | Some(value: T)

  /** The result of a call that either returns a value or raises an exception
      that propagates to the caller. The exception's content is only ever
      printed by the system, so it carries no payload. */
  datatype Result<+T> = Ok(value: T) | Error
}
