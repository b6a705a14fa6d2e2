/**
 * The C scalar types that cross the foreign-function boundary, with the
 * width of each written out, and the two conversions the binding applies to
 * them: `c_char as u8` and the IEEE 754 `==` on `f32`.
 */
module CTypes {

  type i8 = x: int | -0x80 <= x < 0x80
  type u8 = x: int | 0 <= x < 0x100
  type u16 = x: int | 0 <= x < 0x1_0000
  type i32 = x: int | -0x8000_0000 <= x < 0x8000_0000
  type u32 = x: int | 0 <= x < 0x1_0000_0000
  type i64 = x: int | -0x8000_0000_0000_0000 <= x < 0x8000_0000_0000_0000
  type usize = x: int | 0 <= x < 0x1_0000_0000_0000_0000

  /** `c_char`, signed on the targets the binding is built for (on the others `as u8` is the identity). */
  type c_char = i8

  /** `c as u8` on a `c_char`: the same eight bits read as unsigned. */
  function AsU8(c: c_char): (b: u8)
    ensures b % 0x100 == c % 0x100
    ensures 0 <= c ==> b == c
    ensures c < 0 ==> b == c + 0x100
  {
    if c < 0 then c + 0x100 else c
  }

  /** `b as i8` on a `u8`: the inverse reinterpretation. */
  function AsI8(b: u8): (c: c_char)
    ensures c % 0x100 == b % 0x100
  {
    if b < 0x80 then b else b - 0x100
  }

  /** Reinterpreting a `c_char` as `u8` loses no bits: `as i8` undoes it. */
  lemma AsU8RoundTrip(c: c_char)
    ensures AsI8(AsU8(c)) == c
  {
  }

  /** `char::from(b)` for a byte `b`: the character whose code point is `b`. */
  function CharFromU8(b: u8): (ch: char)
    ensures ch as int == b
  {
    b as char
  }

  /** An `f32`, by its IEEE 754 binary32 bit pattern. */
  datatype F32 = F32(bits: bv32)

  const POSITIVE_ZERO: F32 := F32(0)
  const NEGATIVE_ZERO: F32 := F32(0x8000_0000)

  predicate IsNaN(x: F32) {
    x.bits & 0x7F80_0000 == 0x7F80_0000 && x.bits & 0x007F_FFFF != 0
  }

  /** Rust's `==` on `f32`: NaN equals nothing, and the two zeros are equal. */
  predicate FloatEq(a: F32, b: F32) {
    !IsNaN(a) && !IsNaN(b) &&
    (a == b || (a.bits & 0x7FFF_FFFF == 0 && b.bits & 0x7FFF_FFFF == 0))
  }

  /** `x == 0f32` holds for exactly the two signed zeros. */
  lemma EqualsZeroIffSignedZero(x: F32)
    ensures FloatEq(x, POSITIVE_ZERO) <==> x == POSITIVE_ZERO || x == NEGATIVE_ZERO
  {
    if x.bits & 0x7FFF_FFFF == 0 {
      assert x.bits == 0 || x.bits == 0x8000_0000;
    }
  }
}
