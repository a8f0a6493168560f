/**
 * Quantization of sample components (src/convert.rs:23-25 and the casts at
 * 204-214 and 584-586). Rust's float-to-integer `as` truncates toward zero
 * and saturates at the bounds of the target type.
 */
module Quantize {
  import opened AnmTypes

  const I16Min: int := -0x8000
  const I16Max: int := 0x7FFF
  const U8Max: int := 0xFF

  /** QUAT_COMPRESS */
  const QuatCompress: real := 16384.0
  /** SCALE_COMPRESS */
  const ScaleCompress: real := 4096.0
  /** RGB_CONVERT */
  const RgbConvert: real := 255.0

  /** The integer part of `x`, dropping the fraction toward zero. */
  function TruncTowardZero(x: real): (r: int)
    ensures x >= 0.0 ==> r as real <= x < r as real + 1.0
    ensures x < 0.0 ==> r as real - 1.0 < x <= r as real
  {
    if x >= 0.0 then x.Floor else -((-x).Floor)
  }

  /** Rust `x as T` for an integer type T with range [lo, hi]. */
  function SaturatingCast(x: real, lo: int, hi: int): (r: int)
    requires lo <= 0 <= hi
    ensures lo <= r <= hi
    ensures x <= lo as real ==> r == lo
    ensures x >= hi as real ==> r == hi
    ensures lo as real < x < hi as real ==>
              -1.0 < r as real - x < 1.0
              && (x >= 0.0 ==> 0 <= r && r as real <= x)
              && (x <= 0.0 ==> r <= 0 && x <= r as real)
  {
    var t := TruncTowardZero(x);
    if t < lo then lo else if t > hi then hi else t
  }

  function AsI16(x: real): int {
    SaturatingCast(x, I16Min, I16Max)
  }

  function AsU8(x: real): int {
    SaturatingCast(x, 0, U8Max)
  }

  /** A rotation quaternion scaled by 0x4000 into four i16 components. */
  function QuantizeQuaternion(q: Vector4): (r: QuatShort)
    ensures I16Min <= r.x <= I16Max && I16Min <= r.y <= I16Max
    ensures I16Min <= r.z <= I16Max && I16Min <= r.w <= I16Max
  {
    QuatShort(AsI16(q.x * QuatCompress), AsI16(q.y * QuatCompress),
              AsI16(q.z * QuatCompress), AsI16(q.w * QuatCompress))
  }

  /** A scale vector scaled by 0x1000 into three i16 components. */
  function QuantizeScale(v: Vector3): (r: Vec3Short)
    ensures I16Min <= r.x <= I16Max && I16Min <= r.y <= I16Max && I16Min <= r.z <= I16Max
  {
    Vec3Short(AsI16(v.x * ScaleCompress), AsI16(v.y * ScaleCompress), AsI16(v.z * ScaleCompress))
  }

  /** A unit colour scaled by 255 into three u8 components. */
  function QuantizeColor(c: Vector3): (r: Rgb)
    ensures 0 <= r.r <= U8Max && 0 <= r.g <= U8Max && 0 <= r.b <= U8Max
  {
    Rgb(AsU8(c.x * RgbConvert), AsU8(c.y * RgbConvert), AsU8(c.z * RgbConvert))
  }

  /**
   * A quaternion component in (-2, 2) survives quantization to within one
   * step: dividing the stored i16 by 0x4000 gives back the component to
   * better than 1/0x4000, and never further from zero.
   */
  lemma QuaternionComponentRoundTrip(q: real)
    requires -2.0 < q < 2.0
    ensures -1.0 / QuatCompress < AsI16(q * QuatCompress) as real / QuatCompress - q < 1.0 / QuatCompress
    ensures q >= 0.0 ==> 0.0 <= AsI16(q * QuatCompress) as real / QuatCompress <= q
    ensures q <= 0.0 ==> q <= AsI16(q * QuatCompress) as real / QuatCompress <= 0.0
  {
    var x := q * QuatCompress;
    assert I16Min as real < x < (I16Max + 1) as real;
    var r := AsI16(x);
    if x >= I16Max as real {
      assert r == I16Max && r as real <= x;
    }
    assert -1.0 < r as real - x < 1.0;
  }

  /** Colours inside the unit range quantize without saturating. */
  lemma ColorChannelInRange(c: real)
    requires 0.0 <= c <= 1.0
    ensures AsU8(c * RgbConvert) == TruncTowardZero(c * RgbConvert)
    ensures AsU8(c * RgbConvert) as real <= c * RgbConvert < AsU8(c * RgbConvert) as real + 1.0
  {
  }
}
