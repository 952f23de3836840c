/** Optional values: an absent record field or an omitted argument. */
module Wrappers {

  datatype Option<+T> = None | Some(value: T)
}
