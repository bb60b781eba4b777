/** The optional value and the larger of two reals, as every module uses them. */
module Prelude {
  datatype Option<+T> = None | Some(value: T)

  function Max(a: real, b: real): real {
    if a < b then b else a
  }
}
