/** The optional value used for the form's `order`, `group` and `title` attributes. */
module Wrappers {

  datatype Option<+T> = None | Some(value: T)
}
