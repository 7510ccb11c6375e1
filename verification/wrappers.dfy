/** Optional values: a provider answer that may be missing, a JSON field that may be absent. */
module Wrappers {

  datatype Option<+T> = None | Some(value: T)

}
