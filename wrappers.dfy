/** A value that may be missing: a SQL NULL, an absent table, a failed lookup. */
module Wrappers {
  datatype Option<+T> = None | Some(value: T)
}
