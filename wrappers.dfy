/** The optional value used for everything the handler may find missing:
    the API key, the parsed body and each field of the body. */
module Wrappers {

  datatype Option<+T> = None | Some(value: T)
}
