/** Optional values: stands for a JavaScript value that may be `null` or `undefined`. */
module Wrappers {

  datatype Option<+T> = None | Some(value: T)
}
