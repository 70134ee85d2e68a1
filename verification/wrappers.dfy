/** Optional values (a nullable reference or a missing component) and the
    outcome of an operation that can throw. */
module Wrappers {

  datatype Option<+T> = None | Some(value: T)

  datatype Outcome<+E> = Pass | Fail(error: E)
}
