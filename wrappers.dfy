/** The optional value returned by the payload decoders the services call. */
module Wrappers {

  datatype Option<+T> = None | Some(value: T)
}
