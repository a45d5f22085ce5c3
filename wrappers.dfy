/** Optional values: a JSON key that may be absent, or a Python call that may raise. */
module Wrappers {
  datatype Option<+T> = None | Some(value: T)
}
