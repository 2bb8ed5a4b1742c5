/** Values that may be missing, and results that may be errors. */
module Wrappers {
  datatype Option<T> = None | Some(value: T)

  datatype Result<T, E> = Ok(value: T) | Err(error: E)

  /** Everything that comes first, in front of what comes later, if that is anything. */
  function Prepend<T>(first: seq<T>, later: Option<seq<T>>): Option<seq<T>> {
    if later.None? then None else Some(first + later.value)
  }
}
