/** Optional values: the model's stand-in for Kotlin's nullable types. */
module Wrappers {

  /** `None` plays the part of `null`, `Some(v)` of a non-null `v`. */
  datatype Option<+T> = None | Some(value: T)
}
