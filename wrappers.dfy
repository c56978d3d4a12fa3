/** Optional values, standing for Python's `None` where a conversion fails or a key is absent. */
module Wrappers {
  datatype Option<+T> = None | Some(value: T)
}
