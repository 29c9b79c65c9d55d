/** Optional values: the model's stand-in for a possibly-null pointer. */
module Wrappers {

  datatype Option<+T> = None | Some(value: T)
}
