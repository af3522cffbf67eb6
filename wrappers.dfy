/** Optional values: Swift's `T?` in the game model. */
module Wrappers {

  datatype Option<+T> = None | Some(value: T)
}
