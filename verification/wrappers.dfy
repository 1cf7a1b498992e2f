/** Optional values: the model of a nullable child pointer. */
module Wrappers {

  datatype Option<+T> = None | Some(value: T)
}
