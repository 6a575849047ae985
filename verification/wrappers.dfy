/** Optional values: a Go map field that may be nil is an `Option` of a map. */
module Wrappers {

  datatype Option<+T> = None | Some(value: T)
}
