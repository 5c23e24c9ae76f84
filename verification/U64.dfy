/** The machine integers of the source: every amount of money and every token count is a `u64`. */
module U64 {
  const MAX: int := 0xFFFF_FFFF_FFFF_FFFF

  type u64 = n: int | 0 <= n <= 0xFFFF_FFFF_FFFF_FFFF

  function Min(a: int, b: int): int { if a <= b then a else b }

  function Max(a: int, b: int): int { if a >= b then a else b }

  /** A float cast `as u64`, and the end of every saturating operation. */
  function Clip(n: nat): u64 { Min(n, MAX) }

  function SatAdd(a: u64, b: u64): u64 { Clip(a + b) }

  function SatSub(a: u64, b: u64): u64 { if a <= b then 0 else a - b }
}

/** The two wrappers the source leans on. */
module Wrappers {
  datatype Option<+T> = None | Some(value: T) {
    function GetOr(default: T): T {
      match this
      case Some(v) => v
      case None => default
    }
  }

  datatype Result<+T, +E> = Ok(value: T) | Err(error: E)
}
