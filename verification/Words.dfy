/**
 Go's fixed-width integers. `uint64` values are naturals below 2^64, `int` values are
 64-bit two's complement; every conversion and every wrapping operation is written out.
 */
module Words {
  const TWO_63: int := 0x8000_0000_0000_0000
  const TWO_64: int := 0x1_0000_0000_0000_0000

  /** `uint64(x)`: also the result of a `uint64` addition or subtraction that overflows. */
  function ToUint64(x: int): nat {
    x % TWO_64
  }

  lemma {:induction false} ToUint64Add(a: int, b: int)
    ensures ToUint64(ToUint64(a) + b) == ToUint64(a + b)
  {
  }

  /** `int(x)`: also the result of an `int` operation that overflows. */
  function ToInt64(x: int): int {
    var u := x % TWO_64;
    if u < TWO_63 then u else u - TWO_64
  }
}

module Wrappers {
  datatype Option<+T> = None | Some(value: T)

  datatype Result<+T, +E> = Ok(value: T) | Err(error: E)
}
