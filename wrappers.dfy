/** Optional values: Python's `None` for a missing cashflow date. */
module Wrappers {
  datatype Option<+T> = None | Some(value: T)
}
