/** Optional values: `None` stands for a null pointer or an empty std::optional. */
module Wrappers {
  datatype Option<+T> = None | Some(value: T)
}
