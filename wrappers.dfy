/** The optional value the decoders and the schema registration return. */
module Wrappers {

  datatype Option<T> = None | Some(value: T)
}
