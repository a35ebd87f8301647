/** Python's `None`-or-value results, as a datatype. */
module Wrappers {
  datatype Option<+T> = None | Some(value: T)
}
