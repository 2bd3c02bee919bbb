/** Optional values: JavaScript's `string | null` slots. */
module Wrappers {

  datatype Option<+T> = None | Some(value: T)
}
