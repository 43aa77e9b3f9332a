/** Small shared vocabulary: optional values (JavaScript's `null`/`undefined`). */
module Basics {

  /** A value that may be absent: `None` stands for `null` or `undefined`. */
  datatype Option<+T> = None | Some(value: T) {
    /** The value, or `fallback` when there is none. */
    function GetOr(fallback: T): T
    {
      if Some? then value else fallback
    }
  }

  function Max(a: int, b: int): int
  {
    if a < b then b else a
  }

  function Min(a: int, b: int): int
  {
    if a < b then a else b
  }
}
