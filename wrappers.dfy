/** Optional values: the model's stand-in for a JavaScript division whose
    denominator is zero (the source yields NaN or Infinity there). */
module Wrappers {

  datatype Option<+T> = None | Some(value: T)
}
