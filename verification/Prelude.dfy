/** Shared vocabulary: bytes, 64-bit integers and the usual wrappers. */
module Prelude {
  type byte = b: int | 0 <= b < 256
  type bytes = seq<byte>

  const MIN64: int := -0x8000_0000_0000_0000
  const MAX64: int := 0x7FFF_FFFF_FFFF_FFFF
  const TWO64: int := 0x1_0000_0000_0000_0000
  type int64 = x: int | MIN64 <= x <= MAX64

  datatype Option<+T> = None | Some(value: T)
  datatype Result<+T, +E> = Ok(value: T) | Err(error: E)

  /** Two's-complement wrap-around of an int64 operation whose exact value is x. */
  function Wrap64(x: int): (r: int64)
    ensures MIN64 <= x <= MAX64 <==> r == x
  {
    (x - MIN64) % TWO64 + MIN64
  }
}
