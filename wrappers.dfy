/** Optional values: the model's stand-in for a null pointer, a failed
    conversion or a foreign call that may produce nothing. */
module Wrappers {

  datatype Option<+T> = None | Some(value: T)
}
