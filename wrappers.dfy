/** Stand-ins for Java's nullable references and thrown exceptions. */
module Wrappers {

  /** A possibly-null reference: `None` plays the part of Java's `null`. */
  datatype Option<+T> = None | Some(value: T)

  /** The outcome of a `void` Java method: it returns normally, or it throws `error`. */
  datatype Outcome<+E> = Pass | Fail(error: E)
}
