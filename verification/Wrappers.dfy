/** What several modules of this project share. */
module Wrappers {
  datatype Option<+T> = None | Some(value: T)
  {
    /** The value, or `fallback` when there is none. */
    function GetOr(fallback: T): T {
      match this
      case Some(v) => v
      case None => fallback
    }
  }

  function Max(a: int, b: int): int {
    if a <= b then b else a
  }
}
