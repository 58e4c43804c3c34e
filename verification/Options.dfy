/** The optional value used throughout, and the least of two optional waits. */
module Options {

  datatype Option<+T> = None | Some(value: T)

  function Min(a: int, b: int): int {
    if a <= b then a else b
  }

  function Max(a: int, b: int): int {
    if a <= b then b else a
  }

  /** The earlier of a wait seen so far and a new one. */
  function Sooner(current: Option<nat>, wait: nat): Option<nat> {
    match current
    case None => Some(wait)
    case Some(w) => Some(Min(w, wait))
  }
}
