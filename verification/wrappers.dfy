/** Optional values and the outcome of a call into an external routine. */
module Wrappers {

  /** A value that may be missing: Python's `None` or a value. */
  datatype Option<+T> = None | Some(value: T)

  /** What an external routine does: returns a value, or raises an
      exception whose text is kept only as an opaque `detail`. */
  datatype Result<+T> = Ok(value: T) | Err(detail: string)
}
