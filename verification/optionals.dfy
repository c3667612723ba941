/** Swift optionals: a value that may be absent (`nil`). */
module Optionals {

  datatype Option<+T> = None | Some(value: T)
}
