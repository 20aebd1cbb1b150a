/** Integer widths, protocol constants and the checked operations of the masterpool's utils. */
module Widths {
  import opened Outcomes

  const U64_MAX: int := 0xFFFF_FFFF_FFFF_FFFF
  const I64_MAX: int := 0x7FFF_FFFF_FFFF_FFFF
  const I64_MIN: int := -0x8000_0000_0000_0000
  const I128_MAX: int := 0x7FFF_FFFF_FFFF_FFFF_FFFF_FFFF_FFFF_FFFF
  const I128_MIN: int := -0x8000_0000_0000_0000_0000_0000_0000_0000

  type u8 = x: int | 0 <= x < 0x100
  type u16 = x: int | 0 <= x < 0x1_0000
  type u64 = x: int | 0 <= x <= U64_MAX
  type i64 = x: int | I64_MIN <= x <= I64_MAX

  const BPS_SCALE: int := 1_000
  const RATE_SCALE: int := 1_000_000
  const GENESIS_TOTAL_SUPPLY: int := 1_000_000_000 * RATE_SCALE
  const MAX_RECEIPT_USDC_ATOMIC: int := 1_000_000_000 * RATE_SCALE
  const SECONDS_PER_UTC_DAY: int := 86_400

  predicate FitsU64(x: int) {
    0 <= x <= U64_MAX
  }

  predicate FitsI128(x: int) {
    I128_MIN <= x <= I128_MAX
  }

  function NarrowU64(x: int): Result<int> {
    if FitsU64(x) then Ok(x) else Err(MathOverflow)
  }

  function CheckedAddU64(left: int, right: int): Result<int> {
    NarrowU64(left + right)
  }

  function CheckedSubU64(left: int, right: int): Result<int> {
    NarrowU64(left - right)
  }

  function CheckedAddI128(left: int, right: int): Result<int> {
    if FitsI128(left + right) then Ok(left + right) else Err(MathOverflow)
  }

  function CheckedSubI128(left: int, right: int): Result<int> {
    CheckedAddI128(left, -right)
  }

  /** i64 `saturating_add` and `saturating_sub` are this clamp of the exact sum or difference. */
  function Saturate(x: int): i64 {
    if x < I64_MIN then I64_MIN else if x > I64_MAX then I64_MAX else x
  }

  function Min(a: int, b: int): int {
    if a <= b then a else b
  }

  function Max(a: int, b: int): int {
    if a >= b then a else b
  }

  /** The product is taken in u128, where a u64 times a u16 always fits; only the narrowing can fail. */
  function CalculateBpsAmount(amount: int, bps: int): Result<int> {
    NarrowU64(amount * bps / BPS_SCALE)
  }

  function CalculateClawAmount(usdcAmount: int, rateE6: int): Result<int> {
    NarrowU64(usdcAmount * rateE6 / RATE_SCALE)
  }

  lemma ProductGrows(d: int, x: int, y: int)
    requires d >= 0 && x <= y
    ensures d * x <= d * y
  {
  }
}
