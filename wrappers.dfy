/** Option is the model of a value that may be missing: the engine's "not a number"
    sentinel for undefined indicator positions. */
module Wrappers {

  datatype Option<+T> = None | Some(value: T)

  /** IEEE "<" on two values that may be NaN: false as soon as either is NaN. */
  predicate Below(x: Option<real>, y: Option<real>) {
    x.Some? && y.Some? && x.value < y.value
  }

  /** IEEE ">" on two values that may be NaN: false as soon as either is NaN. */
  predicate Above(x: Option<real>, y: Option<real>) {
    x.Some? && y.Some? && x.value > y.value
  }

  function Max(a: real, b: real): real {
    if a >= b then a else b
  }

  function Min(a: real, b: real): real {
    if a <= b then a else b
  }
}
