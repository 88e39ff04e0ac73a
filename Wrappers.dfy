/** The optional result of a lookup: present with exactly one value, or empty. */
module Wrappers {

  datatype Option<+T> = None | Some(value: T)
}
