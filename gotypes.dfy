/** Go's fixed-width integer types and their wrap-around arithmetic. */
module GoTypes {
  const TwoTo63: int := 0x8000_0000_0000_0000
  const TwoTo64: int := 0x1_0000_0000_0000_0000

  newtype byte = x: int | 0 <= x < 0x100
  newtype int64 = x: int | -0x8000_0000_0000_0000 <= x < 0x8000_0000_0000_0000
  newtype uint64 = x: int | 0 <= x < 0x1_0000_0000_0000_0000

  predicate InInt64Range(x: int) {
    -TwoTo63 <= x < TwoTo63
  }

  /** The int64 that Go's two's-complement arithmetic produces for the exact result `x`. */
  function Wrap64(x: int): (r: int64)
    ensures InInt64Range(x) ==> r as int == x
    ensures (r as int - x) % TwoTo64 == 0
  {
    var m := x % TwoTo64;
    if m < TwoTo63 then m as int64 else (m - TwoTo64) as int64
  }
}
