/**
 * The code `FFIFrom` writes for an `#[optional(sentinel)]` field, at the
 * concrete field types the binding uses, with its inverse: the raw value
 * the C side stores for an absent field.
 */
module Expanded {
  import opened Wrappers
  import opened CTypes
  import D = Derive

  /** `if value.f == sentinel { None } else { Some(value.f) }` on an integer field. */
  function Optional<T(==)>(raw: T, sentinel: T): (r: Option<T>)
    ensures r.None? <==> raw == sentinel
    ensures r.Some? ==> r.value == raw
  {
    if raw == sentinel then None else Some(raw)
  }

  /** `if value.f == sentinel { None } else { Some(value.f) }` on an `f32` field (IEEE `==`). */
  function OptionalF32(raw: F32, sentinel: F32): (r: Option<F32>)
    ensures r.None? <==> FloatEq(raw, sentinel)
    ensures r.Some? ==> r.value == raw
  {
    if FloatEq(raw, sentinel) then None else Some(raw)
  }

  /** The raw value that encodes `v`: the value itself, or the sentinel for `None`. */
  function OrSentinel<T>(v: Option<T>, sentinel: T): T {
    if v.Some? then v.value else sentinel
  }

  /** Converting an integer field loses nothing: the raw value can be rebuilt from the result. */
  lemma OptionalLossless<T>(raw: T, sentinel: T)
    ensures OrSentinel(Optional(raw, sentinel), sentinel) == raw
  {
  }

  /** Every value but `Some(sentinel)` is the conversion of its own encoding. */
  lemma OptionalRoundTrip<T>(v: Option<T>, sentinel: T)
    requires v != Some(sentinel)
    ensures Optional(OrSentinel(v, sentinel), sentinel) == v
  {
  }

  /**
   * Against the sentinel `0f32`, a float field loses only the sign of a
   * negative zero: it reads as absent and is rebuilt as `+0.0`.
   */
  lemma OptionalZeroLossless(raw: F32)
    ensures OrSentinel(OptionalF32(raw, POSITIVE_ZERO), POSITIVE_ZERO) == raw <==> raw != NEGATIVE_ZERO
  {
    EqualsZeroIffSignedZero(raw);
  }

  /** Every value that is not `Some` of a zero is the conversion of its own encoding. */
  lemma OptionalZeroRoundTrip(v: Option<F32>)
    requires v.Some? ==> !FloatEq(v.value, POSITIVE_ZERO)
    ensures OptionalF32(OrSentinel(v, POSITIVE_ZERO), POSITIVE_ZERO) == v
  {
    if v.None? {
      EqualsZeroIffSignedZero(POSITIVE_ZERO);
    }
  }

  /**
   * `Optional` is the macro's sentinel rule at an integer type: with the
   * sentinel expression denoting `sentinel`, the two agree on every raw value.
   */
  lemma OptionalIsSentinelRule(raw: int, sentinel: int, e: D.Expr, eval: D.Expr -> D.Raw, inner: D.Type)
    requires eval(e) == D.RInt(sentinel)
    ensures D.ConvertField(D.Sentinel(e, inner, None), eval, D.RInt(raw)) ==
      (match Optional(raw, sentinel)
       case None => D.VNone
       case Some(x) => D.VSome(D.VFrom(inner, D.RInt(x))))
  {
  }

  /** `OptionalF32` is the macro's sentinel rule at `f32`. */
  lemma OptionalF32IsSentinelRule(raw: F32, sentinel: F32, e: D.Expr, eval: D.Expr -> D.Raw, inner: D.Type)
    requires eval(e) == D.RFloat(sentinel)
    ensures D.ConvertField(D.Sentinel(e, inner, None), eval, D.RFloat(raw)) ==
      (match OptionalF32(raw, sentinel)
       case None => D.VNone
       case Some(x) => D.VSome(D.VFrom(inner, D.RFloat(x))))
  {
  }
}
