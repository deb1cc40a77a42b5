/** The optional value used for the source's "may be None" settings and lookups. */
module Wrappers {

  datatype Option<+T> = None | Some(value: T)
}
