/** Optional values, used for Go's "value, ok" results and for decodings
    that can fail. */
module Wrappers {

  datatype Option<+T> = None | Some(value: T)

}
