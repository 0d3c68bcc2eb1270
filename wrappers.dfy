/** Optional values, standing for Python's `None` or a bound value. */
module Wrappers {
  datatype Option<+T> = None | Some(value: T)
}
