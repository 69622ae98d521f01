/** Optional values and outcomes used where the source returns None or raises. */
module Wrappers {

  datatype Option<+T> = None | Some(value: T)

  /** Pass, or Fail carrying the message of the exception the source raises. */
  datatype Outcome<+E> = Pass | Fail(error: E)
}
