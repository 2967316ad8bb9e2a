/** Optional values: the model's stand-in for a nullable or absent JavaScript value. */
module Wrappers {

  datatype Option<+T> = None | Some(value: T)
}
