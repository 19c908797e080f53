/** Optional values. `None` plays the part of a missing (NaN) entry in a column. */
module Wrappers {

  datatype Option<+T> = None | Some(value: T)
}
