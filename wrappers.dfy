/** Optional values, standing for Python's `None` and for lookups that can miss. */
module Wrappers {

  datatype Option<+T> = None | Some(value: T)
}
