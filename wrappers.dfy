/** Optional values: a JavaScript `undefined`/`null`, a missing row, a failed decode. */
module Wrappers {
  datatype Option<+T> = None | Some(value: T)
}
