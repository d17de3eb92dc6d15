/** The optional value used for "file not found", "no error message" and
    "the reading is not a number". */
module Wrappers {

  datatype Option<+T> = None | Some(value: T)
}
