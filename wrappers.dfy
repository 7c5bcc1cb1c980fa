/** Optional values, standing for Python's `None` and for a missing dict entry. */
module Wrappers {

  datatype Option<+T> = None | Some(value: T)
}
