/** Optional values: `None` stands for the null pointers and failed lookups of the host. */
module Wrappers {
  datatype Option<T> = None | Some(value: T)
}
