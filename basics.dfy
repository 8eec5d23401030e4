/** Small value types shared by the other modules. */
module Basics {

  /** An optional value: `None` stands for Python's `None`. */
  datatype Option<+T> = None | Some(value: T)

  /** Absolute value of a real number, as Python's `abs` on a float. */
  function Abs(x: real): real
  {
    if x < 0.0 then -x else x
  }
}
