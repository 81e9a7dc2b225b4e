/** Options and the machine integers whose widths the program depends on. */
module Prelude {

  datatype Option<+T> = None | Some(value: T)

  const TWO_TO_THE_32: int := 0x1_0000_0000
  const TWO_TO_THE_63: int := 0x8000_0000_0000_0000
  const TWO_TO_THE_64: int := 0x1_0000_0000_0000_0000

  type U32 = x: int | 0 <= x < TWO_TO_THE_32
  type U64 = x: int | 0 <= x < TWO_TO_THE_64
  type I64 = x: int | -TWO_TO_THE_63 <= x < TWO_TO_THE_63

  /** `value as i64`: reinterprets the bits. SQLite columns are signed, so every u64 goes through this. */
  function AsI64(x: U64): (r: I64)
    ensures AsU64(r) == x
  {
    if x < TWO_TO_THE_63 then x else x - TWO_TO_THE_64
  }

  /** `value as u64` of a signed column. */
  function AsU64(x: I64): U64 {
    if x < 0 then x + TWO_TO_THE_64 else x
  }

  /** The stored form of an optional u64 and what a later read gives back. */
  function OptAsI64(x: Option<U64>): (r: Option<I64>)
    ensures OptAsU64(r) == x
  {
    match x case None => None case Some(v) => Some(AsI64(v))
  }

  function OptAsU64(x: Option<I64>): Option<U64> {
    match x case None => None case Some(v) => Some(AsU64(v))
  }

  /** `a.saturating_add(b)` on u64. */
  function SaturatingAdd(a: U64, b: U64): U64 {
    if a + b < TWO_TO_THE_64 then a + b else TWO_TO_THE_64 - 1
  }

  /** `value as u32` of a non-negative column: keeps the low 32 bits. */
  function LowU32(x: nat): U32 {
    x % TWO_TO_THE_32
  }
}
