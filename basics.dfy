/** Values shared by the engine and the environment facades: optional values,
    the three failures the library raises, and the notifications it fires. */
module Basics {

  /** A frame: the variables one scope overrides, name to value. */
  type Frame<V> = map<string, V>

  datatype Option<T> = None | Some(value: T) {
    /** The held value, or `default` when there is none. */
    function GetOr(default: T): T {
      match this
      case Some(v) => v
      case None => default
    }
  }

  /** The exceptions the library raises. */
  datatype Error =
    | AttributeError(name: string)   // unknown or undeletable attribute
    | RuntimeError                   // `current` asked for while the stack is empty
    | AssertionError                 // a context popped while it is not the current one

  datatype Result<T> = Ok(value: T) | Err(error: Error)

  datatype Outcome = Pass | Fail(error: Error)

  /** A notification fired by the engine, with the frame's contents at the
      moment it fires. */
  datatype Event<V> =
    | ContextEntered(contextVars: Frame<V>)
    | ContextExited(contextVars: Frame<V>)
}
