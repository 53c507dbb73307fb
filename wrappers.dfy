/** The optional value used where the source passes a value or leaves it `undefined`. */
module Wrappers {

  datatype Option<+T> = None | Some(value: T)

}
