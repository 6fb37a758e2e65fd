/** Optional values: the model's stand-in for a field the source leaves `undefined`. */
module Wrappers {

  datatype Option<+T> = None | Some(value: T)
}
