/** The optional value used for "maybe absent" data: a missing settings object,
    a `parseInt` that yields NaN, no winner yet, a friend id not in the list. */
module Wrappers {

  datatype Option<+T> = None | Some(value: T)
}
