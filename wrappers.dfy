/** Optional values, standing in for null pointers and std::optional. */
module Wrappers {
  datatype Option<+T> = None | Some(value: T)
}
