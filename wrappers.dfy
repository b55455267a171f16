/** Optional values: a lookup that may fail, a parse that may be rejected,
    a Python value that may be `None`. */
module Wrappers {

  datatype Option<+T> = None | Some(value: T)
}
