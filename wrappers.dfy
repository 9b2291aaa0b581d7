/** Optional values, standing for Python's `None`-or-value results and keyword arguments. */
module Wrappers {

  datatype Option<+T> = None | Some(value: T)
}
