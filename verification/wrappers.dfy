/** The optional value the screens use for "nothing selected yet": an unset
    date, no chosen professional, or an appointments prop that was not passed. */
module Wrappers {

  datatype Option<+T> = None | Some(value: T)
}
