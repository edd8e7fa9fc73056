/** Optional values, used for JavaScript's `undefined`, absent matches and failed parses. */
module Wrappers {

  datatype Option<+T> = None | Some(value: T)
}
