/** Optional values, for the places where the source uses `null`, `undefined`
    or an absent key. */
module Wrappers {

  datatype Option<+T> = None | Some(value: T)
}
