/** Small datatypes shared by every module. */
module Basics {

  datatype Option<+T> = None | Some(value: T)

  function Min(a: int, b: int): int {
    if a <= b then a else b
  }

  function Max(a: int, b: int): int {
    if a >= b then a else b
  }

  const INT64_SPAN := 0x1_0000_0000_0000_0000
  const INT64_HALF := 0x8000_0000_0000_0000

  predicate Int64(x: int) {
    -INT64_HALF <= x < INT64_HALF
  }

  /** What a 64-bit product or sum leaves of `x`. */
  function Wrap(x: int): (r: int)
    ensures Int64(r) && (Int64(x) ==> r == x)
  {
    (x + INT64_HALF) % INT64_SPAN - INT64_HALF
  }
}
