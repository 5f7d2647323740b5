/** Optional values: a resolved caller, a decoded request body, a found comment. */
module Wrappers {

  datatype Option<+T> = None | Some(value: T)

}
