/** A value that may be absent. */
module Wrappers {

  /** A value that may be absent: a .NET `null` reference, a failed lookup. */
  datatype Option<+T> = None | Some(value: T)
}
