/** Nullable values and pass/fail outcomes: the link's nullable timestamps and
    the exceptions its checks raise are written with these. */
module Wrappers {

  /** A value that may be absent (a nullable column, a missing argument). */
  datatype Option<+T> = None | Some(value: T)

  /** The result of a check that either returns normally or raises `error`. */
  datatype Outcome<+E> = Pass | Fail(error: E)
}
