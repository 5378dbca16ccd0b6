/** Optional values, as JavaScript's `undefined`/`null` versus a present value. */
module Wrappers {

  /** `None` stands for `undefined` or `null`; `Some(v)` for a present value. */
  datatype Option<+T> = None | Some(value: T)
}
