/** Optional values: the model's stand-in for JavaScript's "property may be missing". */
module Wrappers {
  datatype Option<+T> = None | Some(value: T)
}
