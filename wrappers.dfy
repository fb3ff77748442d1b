/** Optional values, used for the fields a JSON payload may lack and for
    computations that may produce nothing. */
module Wrappers {

  datatype Option<+T> = None | Some(value: T)
}
