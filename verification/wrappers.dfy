/** Optional values, used for nullable record fields and for lookups that can miss. */
module Wrappers {

  /** `None` plays the part of JavaScript's `null`/`undefined`. */
  datatype Option<+T> = None | Some(value: T)
}
