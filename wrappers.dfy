/** The optional value used for every request field and environment setting,
    which in the relay is either a string or JavaScript's `undefined`. */
module Wrappers {

  datatype Option<+T> = None | Some(value: T)

}
