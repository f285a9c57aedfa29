/** The conventional optional value, used where Ruby answers `nil`. */
module Wrappers {

  datatype Option<+T> = None | Some(value: T)

}
