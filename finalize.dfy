/**
 * Curve finalization (src/convert.rs:765-785): after the last sample, every
 * curve is closed. The curve operations used here belong to the container
 * library and are not part of this model; they are passed in as a `CurveLib`
 * and only the laws in `Lawful` are assumed of them.
 */
module CurveFinalizer {
  import opened AnmTypes

  /** The container library's curve operations the finalizer calls. */
  datatype CurveLib = CurveLib(
    hasKeyframes: Curve -> bool,         // Curve::has_keyframes
    appendNullKeyframe: Curve -> Curve,  // Curve::append_null_keyframe
    curveFormat: Curve -> int,           // Curve::get_curve_format
    padValues: Curve -> Curve,           // Curve::pad_values
    frameCount: Curve -> int)            // Curve::get_frame_count

  /**
   * Appending a terminator adds exactly one record; padding only appends; a
   * curve's frame count is its number of records.
   */
  ghost predicate Lawful(lib: CurveLib) {
    && (forall c: Curve :: Extends(c, lib.appendNullKeyframe(c)) && lib.appendNullKeyframe(c).Len() == c.Len() + 1)
    && (forall c: Curve :: Extends(c, lib.padValues(c)))
    && (forall c: Curve :: lib.frameCount(c) == c.Len())
  }

  /** The curve formats whose records get padded. */
  predicate IsPaddedFormat(format: int) {
    format == CurveFormatByte3 || format == CurveFormatShort3
  }

  /** A curve after finalization: terminator if keyframed, then padding if BYTE3 or SHORT3. */
  function FinalizeCurve(lib: CurveLib, c: Curve): (r: Curve)
    ensures Lawful(lib) ==> Extends(c, r) && r.Len() >= c.Len()
  {
    var closed := if lib.hasKeyframes(c) then lib.appendNullKeyframe(c) else c;
    if IsPaddedFormat(lib.curveFormat(closed)) then
      ExtendsTransWhenLawful(lib, c, closed, lib.padValues(closed));
      lib.padValues(closed)
    else
      closed
  }

  /**
   * A header after finalization, given its curve's final state: the size
   * grows by the fixed overhead, the frame count is the library's count for
   * the curve as a u16, and index and format are kept.
   */
  function FinalizeHeader(lib: CurveLib, h: CurveHeader, finalCurve: Curve): (r: CurveHeader)
    ensures r.curveSize == h.curveSize + CurveHeaderOverhead
    ensures r.curveIndex == h.curveIndex && r.curveFormat == h.curveFormat
    ensures 0 <= r.frameCount < U16Modulus
  {
    h.(frameCount := lib.frameCount(finalCurve) % U16Modulus, curveSize := h.curveSize + CurveHeaderOverhead)
  }

  /**
   * What finalization does to one curve: the records already there stay, in
   * order, and the kind is kept; a keyframed curve that is not padded grows by
   * exactly one terminator; a curve that is neither keyframed nor padded is
   * left as it was.
   */
  lemma FinalizeCurveShape(lib: CurveLib, c: Curve)
    requires Lawful(lib)
    ensures Extends(c, FinalizeCurve(lib, c))
    ensures FinalizeCurve(lib, c).Len() >= c.Len()
    ensures lib.hasKeyframes(c) ==> FinalizeCurve(lib, c).Len() >= c.Len() + 1
    ensures lib.hasKeyframes(c) && !IsPaddedFormat(lib.curveFormat(lib.appendNullKeyframe(c))) ==>
              FinalizeCurve(lib, c) == lib.appendNullKeyframe(c) && FinalizeCurve(lib, c).Len() == c.Len() + 1
    ensures !lib.hasKeyframes(c) && !IsPaddedFormat(lib.curveFormat(c)) ==> FinalizeCurve(lib, c) == c
  {
    var closed := if lib.hasKeyframes(c) then lib.appendNullKeyframe(c) else c;
    ExtendsLen(c, closed);
    if IsPaddedFormat(lib.curveFormat(closed)) {
      ExtendsTrans(c, closed, lib.padValues(closed));
      ExtendsLen(closed, lib.padValues(closed));
    }
  }

  /**
   * Header finalization: the size field grows by the fixed 12 bytes whatever
   * the curve's length, the frame count becomes the curve's record count as a
   * u16, and the index and format are kept.
   */
  lemma FinalizeHeaderShape(lib: CurveLib, h: CurveHeader, c: Curve)
    requires Lawful(lib)
    ensures FinalizeHeader(lib, h, c).curveSize == h.curveSize + 12
    ensures FinalizeHeader(lib, h, c).frameCount == c.Len() % U16Modulus
    ensures c.Len() < U16Modulus ==> FinalizeHeader(lib, h, c).frameCount == c.Len()
    ensures FinalizeHeader(lib, h, c).curveIndex == h.curveIndex
    ensures FinalizeHeader(lib, h, c).curveFormat == h.curveFormat
  {
  }

  lemma ExtendsLen(c: Curve, d: Curve)
    requires Extends(c, d)
    ensures d.Len() >= c.Len()
  {
  }

  lemma ExtendsTrans(a: Curve, b: Curve, c: Curve)
    requires Extends(a, b) && Extends(b, c)
    ensures Extends(a, c)
  {
  }

  /** The two steps of finalization compose when the library is lawful. */
  lemma ExtendsTransWhenLawful(lib: CurveLib, c: Curve, closed: Curve, padded: Curve)
    requires closed == (if lib.hasKeyframes(c) then lib.appendNullKeyframe(c) else c)
    requires padded == lib.padValues(closed)
    ensures Lawful(lib) ==> Extends(c, padded) && padded.Len() >= c.Len()
  {
    if Lawful(lib) {
      ExtendsTrans(c, closed, padded);
      ExtendsLen(c, padded);
    }
  }
}
