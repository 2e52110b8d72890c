/** Optional values: Python's `None` and the "no result" of a failed parse. */
module Wrappers {

  datatype Option<+T> = None | Some(value: T)
}
