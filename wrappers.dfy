/** Optional values: stands for Go's nil-able references and slices. */
module Wrappers {

  datatype Option<+T> = None | Some(value: T)
}
