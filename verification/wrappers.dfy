/** Optional values, standing for the source's `null`, empty form fields and
    "no message". */
module Wrappers {

  datatype Option<T> = None | Some(value: T)

}
