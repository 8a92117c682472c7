/** Optional values shared by the modules of this model. */
module Wrappers {

  /** Python's `Optional[T]`: either `None` or a value. */
  datatype Option<+T> = None | Some(value: T)
}
