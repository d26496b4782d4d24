/** Small value types shared by every module of the model. */
module Prelude {

  /** A value that may be absent: a missing dictionary key, Python's `None`. */
  datatype Option<+T> = None | Some(value: T) {

    /** `d.get(key, default)`: the value if present, else the default. */
    function GetOr(default: T): T {
      match this
      case Some(v) => v
      case None => default
    }
  }

  /** Python's `int(x)` on a float: truncation toward zero (Dafny's `Floor` rounds down). */
  function Trunc(r: real): (i: int)
    ensures 0.0 <= r ==> i as real <= r < i as real + 1.0
    ensures r < 0.0 ==> i as real - 1.0 < r <= i as real
  {
    if 0.0 <= r then r.Floor else -((-r).Floor)
  }
}
