/** The optional value shared by the registry, the timer bank and the state machines. */
module Wrappers {
  datatype Option<T> = None | Some(value: T)
}
