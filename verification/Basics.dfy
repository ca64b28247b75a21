/** Shared vocabulary: octets, bounded integers, options and results. */
module Basics {
  type byte = x: int | 0 <= x < 256

  /** A Rust `String` or byte vector, as its octets: `len()` is the octet count. */
  type Str = seq<byte>

  const I64_MIN := -0x8000_0000_0000_0000
  const I64_MAX := 0x7fff_ffff_ffff_ffff
  const U32_MAX := 0xffff_ffff
  const U64_MAX := 0xffff_ffff_ffff_ffff

  type i64 = x: int | I64_MIN <= x <= I64_MAX
  type i32 = x: int | -0x8000_0000 <= x <= 0x7fff_ffff
  type u32 = x: int | 0 <= x <= U32_MAX
  type u64 = x: int | 0 <= x <= U64_MAX

  datatype Option<+T> = None | Some(value: T)

  datatype Result<+T, +E> = Ok(value: T) | Err(error: E)

  function Min(a: int, b: int): int {
    if a <= b then a else b
  }

  function Max(a: int, b: int): int {
    if a <= b then b else a
  }

  /** `i64::saturating_add` and `i64::saturating_sub`. */
  function SaturatingAdd(a: i64, b: i64): i64 {
    Max(I64_MIN, Min(I64_MAX, a + b))
  }

  function SaturatingSub(a: i64, b: i64): i64 {
    Max(I64_MIN, Min(I64_MAX, a - b))
  }

  predicate IsDigit(b: byte) {
    48 <= b <= 57
  }

  predicate IsLowerHex(b: byte) {
    IsDigit(b) || 97 <= b <= 102
  }

  /** 64 lower-case hexadecimal octets, the text form of a SHA-256 digest. */
  predicate IsDigest(s: Str) {
    |s| == 64 && forall i :: 0 <= i < |s| ==> IsLowerHex(s[i])
  }
}
