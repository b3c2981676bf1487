/** Optional values, used for the host's "may be absent" attributes and for the
    outcome of a table lookup. */
module Wrappers {

  datatype Option<+T> = None | Some(value: T)

}
