/** The optional value used where the JavaScript code tests a value for
    presence (`null`, `undefined` or a missing key). */
module Wrappers {

  datatype Option<+T> = None | Some(value: T)

}
