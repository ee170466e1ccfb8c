/** An optional value and a hook's outcome, shared by the plugin modules. */
module Wrappers {

  /** A value that may be absent: JavaScript's `null`, `undefined` or `NaN`. */
  datatype Option<+T> = None | Some(value: T)

  /** The result of an asynchronous hook: it resolved, or it rejected with an error. */
  datatype Outcome<+E> = Pass | Fail(error: E)
}
