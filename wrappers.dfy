/** Optional values: Go's nilable results and `(value, error)` pairs. */
module Wrappers {

  datatype Option<+T> = None | Some(value: T)
}
