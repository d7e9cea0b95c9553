/** The optional value used where the source either produces something or
    does not (a feedback report that is only shown for a non-blank text). */
module Wrappers {

  datatype Option<+T> = None | Some(value: T)
}
