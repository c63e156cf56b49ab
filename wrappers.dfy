/** An optional value: the JavaScript `null` of a state field or a storage slot. */
module Wrappers {

  datatype Option<+T> = None | Some(value: T)

}
