/** Option and Result, the shapes Go's `(value, *ErrorMessage)` and `nil` returns take here. */
module Wrappers {
  datatype Option<+T> = None | Some(value: T)

  datatype Result<+T, +E> = Ok(value: T) | Err(error: E)
}

/** Go's fixed-width integer kinds, on a 64-bit platform (`int` is 64 bits wide). */
module GoInt {
  const TwoTo63: int := 0x8000_0000_0000_0000
  const TwoTo64: int := 0x1_0000_0000_0000_0000
  const MinInt64: int := -TwoTo63
  const MaxInt64: int := TwoTo63 - 1
  const MaxUint64: int := TwoTo64 - 1

  predicate InInt64(x: int) { MinInt64 <= x <= MaxInt64 }

  type Int64 = x: int | MinInt64 <= x <= MaxInt64
  type Int32 = x: int | -0x8000_0000 <= x < 0x8000_0000
  type Int16 = x: int | -0x8000 <= x < 0x8000
  type Int8 = x: int | -0x80 <= x < 0x80

  /** Two's-complement wrap-around of a 64-bit signed result, as Go's `*` and `-` on `int`. */
  function Wrap64(x: int): (r: Int64)
    ensures (r - x) % TwoTo64 == 0
    ensures InInt64(x) ==> r == x
  {
    var m := x % TwoTo64;
    assert (m - x) % TwoTo64 == 0 by {
      assert x == (x / TwoTo64) * TwoTo64 + m;
      assert m - x == -(x / TwoTo64) * TwoTo64;
    }
    if m <= MaxInt64 then m else m - TwoTo64
  }
}
