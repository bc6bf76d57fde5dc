/** Machine integers and small helpers shared by every component.
    Amounts, heights and timestamps are Rust `u64`s, intermediate products `u128`s. */
module Numbers {

  const U64_MAX := 0xFFFF_FFFF_FFFF_FFFF
  const TWO_64 := 0x1_0000_0000_0000_0000
  const U128_MAX := 0xFFFF_FFFF_FFFF_FFFF_FFFF_FFFF_FFFF_FFFF

  type u64 = x: int | 0 <= x <= 0xFFFF_FFFF_FFFF_FFFF
  type u128 = x: int | 0 <= x <= 0xFFFF_FFFF_FFFF_FFFF_FFFF_FFFF_FFFF_FFFF

  datatype Option<+T> = None | Some(value: T)

  datatype Result<+T, +E> = Ok(value: T) | Err(error: E)

  function Min(a: int, b: int): int { if a <= b then a else b }

  function Max(a: int, b: int): int { if a <= b then b else a }

  /** Unchecked 64-bit addition, as the release profile compiles it. */
  function Wrap64(x: nat): u64 { x % 0x1_0000_0000_0000_0000 }

  function SatAdd64(a: u64, b: u64): u64 { Min(a + b, U64_MAX) }

  function SatSub64(a: u64, b: u64): u64 { if a <= b then 0 else a - b }

  function SatMul64(a: u64, b: u64): u64 { ClampU64(a * b) }

  function SatAdd128(a: u128, b: u128): u128 { Min(a + b, U128_MAX) }

  function SatSub128(a: u128, b: u128): u128 { if a <= b then 0 else a - b }

  function SatMul128(a: u128, b: u128): (r: u128)
    ensures a * b <= U128_MAX ==> r == a * b
  {
    ClampU128(a * b)
  }

  function ClampU64(x: int): u64 { if x <= 0 then 0 else Min(x, U64_MAX) }

  function ClampU128(x: int): u128 { if x <= 0 then 0 else Min(x, U128_MAX) }

  function CheckedAdd64(a: u64, b: u64): Option<u64> {
    if a + b <= U64_MAX then Some(a + b) else None
  }

  function DivCeil(a: nat, b: nat): nat
    requires b > 0
  {
    (a + b - 1) / b
  }
}
