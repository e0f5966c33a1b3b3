/** Machine words: unsigned integers of 32 and 64 bits, wrapping and saturating. */
module Words {
  const U32_LIMIT: nat := 0x1_0000_0000
  const U64_LIMIT: nat := 0x1_0000_0000_0000_0000

  type U32 = n: nat | n < U32_LIMIT
  type U64 = n: nat | n < U64_LIMIT

  /** `u32::try_from(n).unwrap_or(u32::MAX)` */
  function TryU32(n: nat): U32 { if n < U32_LIMIT then n else U32_LIMIT - 1 }

  /** `n as u32` */
  function AsU32(n: nat): U32 { if n < U32_LIMIT then n else n % U32_LIMIT }

  function Wrapped(n: int): U64 { n % U64_LIMIT }

  function WrapAdd(a: U64, n: nat): U64 {
    if a + n < U64_LIMIT then a + n else Wrapped(a + n)
  }

  function WrapSub(a: U64, n: nat): U64 {
    if n <= a then a - n else Wrapped(a - n)
  }

  /** The nearest value of 64 bits. */
  function Saturated(n: nat): U64 { if n < U64_LIMIT then n else U64_LIMIT - 1 }

  /** `a.saturating_add(b)` */
  function SatAdd(a: U64, b: U64): U64 { Saturated(a + b) }
}
