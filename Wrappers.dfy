/** An optional value, for fields the source leaves `undefined`. */
module Wrappers {

  datatype Option<+T> = None | Some(value: T)

}
