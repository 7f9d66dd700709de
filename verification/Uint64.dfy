/** Go's uint64. */
module Uint64 {
  const LIMIT: int := 0x1_0000_0000_0000_0000

  /** Every + and - on this type is checked not to leave it. */
  newtype uint64 = x: int | 0 <= x < 0x1_0000_0000_0000_0000

  /** A block height as a value, for specifications. */
  type Height = h: int | 0 <= h < 0x1_0000_0000_0000_0000

  /** h + 1 as uint64 computes it. */
  function Next(h: Height): Height
  {
    (h + 1) % LIMIT
  }
}
