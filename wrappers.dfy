/** The optional value used where the client code may hold `null` or `undefined`. */
module Wrappers {

  datatype Option<+T> = None | Some(value: T)

}
