/** The optional value used for an answer slot that may still be unanswered. */
module Wrappers {

  datatype Option<+T> = None | Some(value: T)
}
