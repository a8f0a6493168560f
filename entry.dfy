/**
 * Entry conversion (src/convert.rs:128-794): one object's sample sequence
 * becomes one `AnmEntry`. The entry is built in place: on the first sample
 * (tick 0) a fixed, per-variant layout of empty curves and headers is
 * allocated, every sample then appends its records to those curves, and
 * finally every curve is closed.
 *
 * `RawCurves(samples, n)` is the closed form of the curves after the first
 * `n` samples; the builder's methods are proved against it, and the lemmas
 * at the end state what it means.
 */
module EntryConverter {
  import opened AnmTypes
  import opened Quantize
  import opened CurveFinalizer

  // ----- the per-variant layout -----

  /** Material channels 0, 1, 8 and 9 are keyframed and step-held; the other twelve are dense. */
  predicate IsSteppedChannel(k: int) {
    k == 0 || k == 1 || k == 8 || k == 9
  }

  /** The empty curves allocated on the first sample, in order; a handled variant gets at least one. */
  function LayoutCurves(d: EntryData): (r: seq<Curve>)
    ensures |r| <= 18 && (r == [] <==> d.Other?)
    ensures forall k :: 0 <= k < |r| ==> r[k].Len() == 0
  {
    match d
    case Bone(_, _, _, _) => [KeyframeVector3([]), QuaternionShort([]), Vector3Short([]), Float([])]
    case Camera(_, _, _) => [KeyframeVector3([]), QuaternionShort([]), KeyframeFloat([])]
    case LightDirc(_, _, _) => [RGB([]), Float([]), QuaternionShort([])]
    case LightPoint(_, _, _, _, _) => [RGB([]), Float([]), KeyframeVector3([]), Float([]), Float([])]
    case Ambient(_, _) => [RGB([]), Float([])]
    case MorphModel(_) => [Float([]), Float([])]
    case Material(_) => seq(18, k => if IsSteppedChannel(k) then KeyframeFloat([]) else Float([]))
    case Other => []
  }

  /** The header format codes allocated on the first sample, in order: one per curve, describing it. */
  function LayoutFormats(d: EntryData): (r: seq<int>)
    ensures |r| == |LayoutCurves(d)|
    ensures forall k :: 0 <= k < |r| ==> Describes(r[k], LayoutCurves(d)[k])
  {
    match d
    case Bone(_, _, _, _) => [CurveFormatInt1Float3, CurveFormatShort4, CurveFormatShort3, CurveFormatFloat1Alt]
    case Camera(_, _, _) => [CurveFormatInt1Float3, CurveFormatShort4, CurveFormatInt1Float1]
    case LightDirc(_, _, _) => [CurveFormatByte3, CurveFormatFloat1Alt, CurveFormatShort4]
    case LightPoint(_, _, _, _, _) =>
      [CurveFormatByte3, CurveFormatFloat1Alt, CurveFormatInt1Float3, CurveFormatFloat1Alt, CurveFormatFloat1Alt]
    case Ambient(_, _) => [CurveFormatByte3, CurveFormatFloat1Alt]
    case MorphModel(_) => [CurveFormatFloat1Alt, CurveFormatFloat1Alt]
    case Material(_) =>
      seq(18, k => if k >= 16 then CurveFormatFloat1
                   else if IsSteppedChannel(k) then CurveFormatInt1Float1
                   else CurveFormatFloat1Alt)
    case Other => []
  }

  /** Number of curves of a variant's layout. */
  function Arity(d: EntryData): nat {
    |LayoutCurves(d)|
  }

  /** Fresh headers numbered from `base`, frame count and size still 0. */
  function LayoutHeaders(d: EntryData, base: int): seq<CurveHeader> {
    var formats := LayoutFormats(d);
    seq(|formats|, k requires 0 <= k < |formats| => CurveHeader(base + k, formats[k], 0, 0))
  }

  /** The format code a header must carry to describe a curve of this kind. */
  predicate Describes(format: int, c: Curve) {
    match c
    case KeyframeVector3(_) => format == CurveFormatInt1Float3
    case QuaternionShort(_) => format == CurveFormatShort4
    case Vector3Short(_) => format == CurveFormatShort3
    case Float(_) => format == CurveFormatFloat1Alt || format == CurveFormatFloat1
    case KeyframeFloat(_) => format == CurveFormatInt1Float1
    case RGB(_) => format == CurveFormatByte3
  }

  /**
   * The layout table: the number of curves per variant, one format per curve,
   * and each format matching its curve's kind.
   */
  lemma LayoutTable(d: EntryData)
    ensures |LayoutFormats(d)| == Arity(d) <= 18
    ensures d.Bone? ==> Arity(d) == 4
    ensures d.Camera? ==> Arity(d) == 3
    ensures d.LightDirc? ==> Arity(d) == 3
    ensures d.LightPoint? ==> Arity(d) == 5
    ensures d.Ambient? ==> Arity(d) == 2
    ensures d.MorphModel? ==> Arity(d) == 2
    ensures d.Material? ==> Arity(d) == 18
    ensures d.Other? ==> Arity(d) == 0
    ensures forall k :: 0 <= k < Arity(d) ==> Describes(LayoutFormats(d)[k], LayoutCurves(d)[k])
    ensures forall k :: 0 <= k < Arity(d) ==> LayoutCurves(d)[k].Len() == 0
  {
  }

  // ----- appending one record: `if let Curve::X(v) = &mut curves[k] { v.push(..) }` -----

  function PushVector3Key(c: Curve, key: KeyVector3): Curve {
    if c.KeyframeVector3? then KeyframeVector3(c.vectorKeys + [key]) else c
  }

  function PushQuaternion(c: Curve, q: QuatShort): Curve {
    if c.QuaternionShort? then QuaternionShort(c.quaternions + [q]) else c
  }

  function PushVector3Short(c: Curve, v: Vec3Short): Curve {
    if c.Vector3Short? then Vector3Short(c.vectors + [v]) else c
  }

  function PushFloat(c: Curve, x: real): Curve {
    if c.Float? then Float(c.floats + [x]) else c
  }

  function PushFloatKey(c: Curve, key: KeyFloat): Curve {
    if c.KeyframeFloat? then KeyframeFloat(c.floatKeys + [key]) else c
  }

  function PushRgb(c: Curve, color: Rgb): Curve {
    if c.RGB? then RGB(c.colors + [color]) else c
  }

  /** One material colour channel: step-held channels get (frame, v) and (frame + 50, v). */
  function PushChannel(c: Curve, k: int, frame: int, v: real): Curve {
    if IsSteppedChannel(k) then PushFloatKey(PushFloatKey(c, KeyFloat(frame, v)), KeyFloat(frame + StepHoldOffset, v))
    else PushFloat(c, v)
  }

  // ----- the closed form of an entry's curves -----

  predicate MaterialSamples(s: seq<AnmStrmEntry>) {
    Uniform(s) && |s| > 0 && s[0].entryData.Material?
  }

  /** The keys of step-held material channel `k` after `n` samples. */
  function StepHoldKeys(s: seq<AnmStrmEntry>, n: nat, k: nat): seq<KeyFloat>
    requires MaterialSamples(s) && n <= |s| && k < 16
  {
    if n == 0 then []
    else
      var v := s[n - 1].entryData.ambientColor[k];
      StepHoldKeys(s, n - 1, k) + [KeyFloat((n - 1) * TickScale, v), KeyFloat((n - 1) * TickScale + StepHoldOffset, v)]
  }

  /** Material curve `k` after `n > 0` samples. */
  function MaterialCurve(s: seq<AnmStrmEntry>, n: nat, k: nat): Curve
    requires MaterialSamples(s) && 0 < n <= |s| && k < 18
  {
    if k == 16 then Float([0.0])
    else if k == 17 then Float([1.0])
    else if IsSteppedChannel(k) then KeyframeFloat(StepHoldKeys(s, n, k))
    else Float(seq(n, p requires 0 <= p < n => s[p].entryData.ambientColor[k]))
  }

  /** The entry's curves after its first `n` samples, before finalization. */
  function RawCurves(s: seq<AnmStrmEntry>, n: nat): (r: seq<Curve>)
    requires Uniform(s) && n <= |s|
    ensures |r| == if n == 0 then 0 else Arity(s[0].entryData)
  {
    if n == 0 then []
    else
      match s[0].entryData
      case Bone(_, _, _, _) => [
        KeyframeVector3(seq(n, p requires 0 <= p < n => KeyVector3(p * TickScale, s[p].entryData.location))),
        QuaternionShort(seq(n, p requires 0 <= p < n => QuantizeQuaternion(s[p].entryData.rotation))),
        Vector3Short(seq(n, p requires 0 <= p < n => QuantizeScale(s[p].entryData.scale))),
        Float(seq(n, p requires 0 <= p < n => s[p].entryData.toggled))]
      case Camera(_, _, _) => [
        KeyframeVector3(seq(n, p requires 0 <= p < n => KeyVector3(p * TickScale, s[p].entryData.location))),
        QuaternionShort(seq(n, p requires 0 <= p < n => QuantizeQuaternion(s[p].entryData.rotation))),
        KeyframeFloat(seq(n, p requires 0 <= p < n => KeyFloat(p * TickScale, s[p].entryData.fov)))]
      case LightDirc(_, _, _) => [
        RGB(seq(n, p requires 0 <= p < n => QuantizeColor(s[p].entryData.color))),
        Float(seq(n, p requires 0 <= p < n => s[p].entryData.intensity)),
        QuaternionShort(seq(n, p requires 0 <= p < n => QuantizeQuaternion(s[p].entryData.direction)))]
      case LightPoint(_, _, _, _, _) => [
        RGB(seq(n, p requires 0 <= p < n => QuantizeColor(s[p].entryData.color))),
        Float(seq(n, p requires 0 <= p < n => s[p].entryData.intensity)),
        KeyframeVector3(seq(n, p requires 0 <= p < n => KeyVector3(p * TickScale, s[p].entryData.position))),
        Float(seq(n, p requires 0 <= p < n => s[p].entryData.radius)),
        Float(seq(n, p requires 0 <= p < n => s[p].entryData.falloff))]
      case Ambient(_, _) => [
        RGB(seq(n, p requires 0 <= p < n => QuantizeColor(s[p].entryData.color))),
        Float(seq(n, p requires 0 <= p < n => s[p].entryData.intensity))]
      case MorphModel(_) => [
        Float(seq(n, p requires 0 <= p < n => s[p].entryData.morphWeight[0])),
        Float(seq(n, p requires 0 <= p < n => s[p].entryData.morphWeight[1]))]
      case Material(_) => seq(18, k requires 0 <= k < 18 => MaterialCurve(s, n, k))
      case Other => []
  }

  /** The entry's headers after its first `n` samples, before finalization. */
  function RawHeaders(s: seq<AnmStrmEntry>, n: nat): seq<CurveHeader>
    requires |s| > 0
  {
    if n == 0 then [] else LayoutHeaders(s[0].entryData, 0)
  }

  /** The entry format after the first `n` samples (0 until a handled variant is seen). */
  function RawFormat(s: seq<AnmStrmEntry>, n: nat): int
    requires |s| > 0
  {
    if n == 0 then 0 else EntryFormatOf(s[0].entryData)
  }

  /** A sample list the converter accepts: non-empty, one variant throughout. */
  predicate Convertible(s: seq<AnmStrmEntry>) {
    |s| > 0 && Uniform(s)
  }

  /**
   * The finished entry for one object's samples (specification of
   * `ConvertEntry`): the first sample's coordinate, the variant's entry
   * format, one header per curve and the variant's number of curves.
   */
  function Converted(s: seq<AnmStrmEntry>, lib: CurveLib): (r: AnmEntry)
    requires Convertible(s)
    ensures r.coord == s[0].coord && r.entryFormat == EntryFormatOf(s[0].entryData)
    ensures |r.curves| == |r.curveHeaders| == Arity(s[0].entryData)
  {
    var raw := RawCurves(s, |s|);
    var headers := RawHeaders(s, |s|);
    var curves := seq(|raw|, k requires 0 <= k < |raw| => FinalizeCurve(lib, raw[k]));
    AnmEntry(
      s[0].coord,
      RawFormat(s, |s|),
      |curves| % U16Modulus,
      seq(|raw|, k requires 0 <= k < |raw| => FinalizeHeader(lib, headers[k], curves[k])),
      curves)
  }

  // ----- the entry under construction -----

  /** `anm_entry` while `convert_entries` fills it in. */
  class EntryBuilder {
    var coord: CoordKey
    var entryFormat: int
    var curveCount: int
    var curveHeaders: seq<CurveHeader>
    var curves: seq<Curve>

    constructor (coord: CoordKey)
      ensures this.coord == coord && entryFormat == 0 && curveCount == 0
      ensures curveHeaders == [] && curves == []
    {
      this.coord := coord;
      entryFormat := 0;
      curveCount := 0;
      curveHeaders := [];
      curves := [];
    }

    /** The entry as it stands. */
    function ToEntry(): AnmEntry
      reads this
    {
      AnmEntry(coord, entryFormat, curveCount, curveHeaders, curves)
    }

    /** The `frame == 0` block: push the variant's empty curves and headers numbered from `curveIndex`. */
    method AllocateLayout(d: EntryData, curveIndex: int) returns (nextIndex: int)
      modifies this
      ensures curves == old(curves) + LayoutCurves(d)
      ensures curveHeaders == old(curveHeaders) + LayoutHeaders(d, curveIndex)
      ensures nextIndex == curveIndex + Arity(d)
      ensures coord == old(coord) && entryFormat == old(entryFormat) && curveCount == old(curveCount)
    {
      curves := curves + LayoutCurves(d);
      curveHeaders := curveHeaders + LayoutHeaders(d, curveIndex);
      nextIndex := curveIndex + Arity(d);
    }

    /**
     * One pass of the sample loop for the p-th sample of `samples`, stamped
     * with tick `frame`: the layout is allocated only at tick 0, then every
     * curve receives its record. Afterwards the entry holds the closed form
     * of the first p + 1 samples.
     */
    method AddSample(ghost samples: seq<AnmStrmEntry>, ghost p: nat, frame: int, d: EntryData, curveIndex: int)
      returns (nextIndex: int)
      requires Uniform(samples) && p < |samples|
      requires frame == p * TickScale && d == samples[p].entryData
      requires curves == RawCurves(samples, p) && curveHeaders == RawHeaders(samples, p)
      requires entryFormat == RawFormat(samples, p) && curveIndex == |curveHeaders|
      modifies this
      ensures curves == RawCurves(samples, p + 1) && curveHeaders == RawHeaders(samples, p + 1)
      ensures entryFormat == RawFormat(samples, p + 1) && nextIndex == |curveHeaders|
      ensures coord == old(coord) && curveCount == old(curveCount)
    {
      assert SameVariant(d, samples[0].entryData);
      nextIndex := curveIndex;
      match d {
        case Bone(_, _, _, _) =>
          entryFormat := EntryFormatBone;
          if frame == 0 {
            nextIndex := AllocateLayout(d, curveIndex);
          }
          PushBone(samples, p, frame, d);
        case Material(_) =>
          entryFormat := EntryFormatMaterial;
          if frame == 0 {
            nextIndex := AllocateLayout(d, curveIndex);
          }
          PushMaterial(samples, p, frame, d);
        case Camera(_, _, _) =>
          entryFormat := EntryFormatCamera;
          if frame == 0 {
            nextIndex := AllocateLayout(d, curveIndex);
          }
          PushCamera(samples, p, frame, d);
        case LightDirc(_, _, _) =>
          entryFormat := EntryFormatLightDirc;
          if frame == 0 {
            nextIndex := AllocateLayout(d, curveIndex);
          }
          PushLightDirc(samples, p, frame, d);
        case LightPoint(_, _, _, _, _) =>
          entryFormat := EntryFormatLightPoint;
          if frame == 0 {
            nextIndex := AllocateLayout(d, curveIndex);
          }
          PushLightPoint(samples, p, frame, d);
        case Ambient(_, _) =>
          entryFormat := EntryFormatAmbient;
          if frame == 0 {
            nextIndex := AllocateLayout(d, curveIndex);
          }
          PushAmbient(samples, p, frame, d);
        case MorphModel(_) =>
          entryFormat := EntryFormatMorphModel;
          if frame == 0 {
            nextIndex := AllocateLayout(d, curveIndex);
          }
          PushMorphModel(samples, p, frame, d);
        case Other =>
      }
    }

    // The per-variant record pushes of one sample; each starts from the
    // layout (first sample) or the previous closed form and ends at the next.

    method PushBone(ghost samples: seq<AnmStrmEntry>, ghost p: nat, frame: int, d: EntryData)
      requires Uniform(samples) && p < |samples| && frame == p * TickScale
      requires d == samples[p].entryData && d.Bone? && curves == StepBase(samples, p)
      modifies `curves
      ensures curves == RawCurves(samples, p + 1)
    {
      ghost var before := curves;
      curves := curves[0 := PushVector3Key(curves[0], KeyVector3(frame, d.location))];
      curves := curves[1 := PushQuaternion(curves[1], QuantizeQuaternion(d.rotation))];
      curves := curves[2 := PushVector3Short(curves[2], QuantizeScale(d.scale))];
      curves := curves[3 := PushFloat(curves[3], d.toggled)];
      BoneStep(samples, p, before, curves);
    }

    method PushMaterial(ghost samples: seq<AnmStrmEntry>, ghost p: nat, frame: int, d: EntryData)
      requires Uniform(samples) && p < |samples| && frame == p * TickScale
      requires d == samples[p].entryData && d.Material? && curves == StepBase(samples, p)
      modifies `curves
      ensures curves == RawCurves(samples, p + 1)
    {
      assert SameVariant(d, samples[0].entryData);
      var before := curves;
      curves := seq(|before|, k requires 0 <= k < |before| =>
                      if k < 16 then PushChannel(before[k], k, frame, d.ambientColor[k]) else before[k]);
      if frame == 0 {
        curves := curves[16 := PushFloat(curves[16], 0.0)];
        curves := curves[17 := PushFloat(curves[17], 1.0)];
      }
      MaterialStep(samples, p, before, curves);
    }

    method PushCamera(ghost samples: seq<AnmStrmEntry>, ghost p: nat, frame: int, d: EntryData)
      requires Uniform(samples) && p < |samples| && frame == p * TickScale
      requires d == samples[p].entryData && d.Camera? && curves == StepBase(samples, p)
      modifies `curves
      ensures curves == RawCurves(samples, p + 1)
    {
      ghost var before := curves;
      curves := curves[0 := PushVector3Key(curves[0], KeyVector3(frame, d.location))];
      curves := curves[1 := PushQuaternion(curves[1], QuantizeQuaternion(d.rotation))];
      curves := curves[2 := PushFloatKey(curves[2], KeyFloat(frame, d.fov))];
      CameraStep(samples, p, before, curves);
    }

    method PushLightDirc(ghost samples: seq<AnmStrmEntry>, ghost p: nat, frame: int, d: EntryData)
      requires Uniform(samples) && p < |samples| && frame == p * TickScale
      requires d == samples[p].entryData && d.LightDirc? && curves == StepBase(samples, p)
      modifies `curves
      ensures curves == RawCurves(samples, p + 1)
    {
      ghost var before := curves;
      curves := curves[0 := PushRgb(curves[0], QuantizeColor(d.color))];
      curves := curves[1 := PushFloat(curves[1], d.intensity)];
      curves := curves[2 := PushQuaternion(curves[2], QuantizeQuaternion(d.direction))];
      LightDircStep(samples, p, before, curves);
    }

    method PushLightPoint(ghost samples: seq<AnmStrmEntry>, ghost p: nat, frame: int, d: EntryData)
      requires Uniform(samples) && p < |samples| && frame == p * TickScale
      requires d == samples[p].entryData && d.LightPoint? && curves == StepBase(samples, p)
      modifies `curves
      ensures curves == RawCurves(samples, p + 1)
    {
      ghost var before := curves;
      curves := curves[0 := PushRgb(curves[0], QuantizeColor(d.color))];
      curves := curves[1 := PushFloat(curves[1], d.intensity)];
      curves := curves[2 := PushVector3Key(curves[2], KeyVector3(frame, d.position))];
      curves := curves[3 := PushFloat(curves[3], d.radius)];
      curves := curves[4 := PushFloat(curves[4], d.falloff)];
      LightPointStep(samples, p, before, curves);
    }

    method PushAmbient(ghost samples: seq<AnmStrmEntry>, ghost p: nat, frame: int, d: EntryData)
      requires Uniform(samples) && p < |samples| && frame == p * TickScale
      requires d == samples[p].entryData && d.Ambient? && curves == StepBase(samples, p)
      modifies `curves
      ensures curves == RawCurves(samples, p + 1)
    {
      ghost var before := curves;
      curves := curves[0 := PushRgb(curves[0], QuantizeColor(d.color))];
      curves := curves[1 := PushFloat(curves[1], d.intensity)];
      AmbientStep(samples, p, before, curves);
    }

    method PushMorphModel(ghost samples: seq<AnmStrmEntry>, ghost p: nat, frame: int, d: EntryData)
      requires Uniform(samples) && p < |samples| && frame == p * TickScale
      requires d == samples[p].entryData && d.MorphModel? && curves == StepBase(samples, p)
      modifies `curves
      ensures curves == RawCurves(samples, p + 1)
    {
      ghost var before := curves;
      curves := curves[0 := PushFloat(curves[0], d.morphWeight[0])];
      curves := curves[1 := PushFloat(curves[1], d.morphWeight[1])];
      MorphModelStep(samples, p, before, curves);
    }

    /**
     * The closing loop over (curve, header) pairs: terminator and a frame
     * count bump for keyframed curves, padding for BYTE3 and SHORT3 curves,
     * 12 added to the size, the frame count overwritten by the record count
     * (as u16); then the curve count is set. Pairs are zipped, so only the
     * shorter list's length is visited.
     */
    method Finalize(lib: CurveLib)
      modifies this
      ensures coord == old(coord) && entryFormat == old(entryFormat)
      ensures |curves| == |old(curves)| && |curveHeaders| == |old(curveHeaders)|
      ensures forall k :: 0 <= k < |old(curves)| && k < |old(curveHeaders)| ==>
                curves[k] == FinalizeCurve(lib, old(curves)[k])
                && curveHeaders[k] == FinalizeHeader(lib, old(curveHeaders)[k], curves[k])
      ensures forall k :: |old(curveHeaders)| <= k < |curves| ==> curves[k] == old(curves)[k]
      ensures forall k :: |old(curves)| <= k < |curveHeaders| ==> curveHeaders[k] == old(curveHeaders)[k]
      ensures curveCount == |curves| % U16Modulus
    {
      var pairs := if |curves| < |curveHeaders| then |curves| else |curveHeaders|;
      var k := 0;
      while k < pairs
        invariant 0 <= k <= pairs
        invariant coord == old(coord) && entryFormat == old(entryFormat)
        invariant |curves| == |old(curves)| && |curveHeaders| == |old(curveHeaders)|
        invariant forall i :: 0 <= i < k ==>
                    curves[i] == FinalizeCurve(lib, old(curves)[i])
                    && curveHeaders[i] == FinalizeHeader(lib, old(curveHeaders)[i], curves[i])
        invariant forall i :: k <= i < |curves| ==> curves[i] == old(curves)[i]
        invariant forall i :: k <= i < |curveHeaders| ==> curveHeaders[i] == old(curveHeaders)[i]
      {
        var curve := curves[k];
        var header := curveHeaders[k];
        if lib.hasKeyframes(curve) {
          curve := lib.appendNullKeyframe(curve);
          header := header.(frameCount := header.frameCount + 1);
        }
        if lib.curveFormat(curve) == CurveFormatByte3 || lib.curveFormat(curve) == CurveFormatShort3 {
          curve := lib.padValues(curve);
        }
        header := header.(curveSize := header.curveSize + CurveHeaderOverhead);
        header := header.(frameCount := lib.frameCount(curve) % U16Modulus);
        curves := curves[k := curve];
        curveHeaders := curveHeaders[k := header];
        k := k + 1;
      }
      curveCount := |curves| % U16Modulus;
    }
  }

  /** The start of every step: the layout on the first sample, the previous closed form after it. */
  function StepBase(s: seq<AnmStrmEntry>, p: nat): seq<Curve>
    requires Uniform(s) && p < |s|
  {
    if p == 0 then LayoutCurves(s[p].entryData) else RawCurves(s, p)
  }

  /** The bone pass of `AddSample` yields the closed form of one more sample. */
  lemma BoneStep(s: seq<AnmStrmEntry>, p: nat, before: seq<Curve>, after: seq<Curve>)
    requires Uniform(s) && p < |s| && s[p].entryData.Bone? && before == StepBase(s, p)
    requires after == before[0 := PushVector3Key(before[0], KeyVector3(p * TickScale, s[p].entryData.location))]
                            [1 := PushQuaternion(before[1], QuantizeQuaternion(s[p].entryData.rotation))]
                            [2 := PushVector3Short(before[2], QuantizeScale(s[p].entryData.scale))]
                            [3 := PushFloat(before[3], s[p].entryData.toggled)]
    ensures after == RawCurves(s, p + 1)
  {
    assert SameVariant(s[p].entryData, s[0].entryData);
    var r := RawCurves(s, p + 1);
    assert after[0] == r[0]; assert after[1] == r[1]; assert after[2] == r[2]; assert after[3] == r[3];
  }

  /** The camera pass of `AddSample` yields the closed form of one more sample. */
  lemma CameraStep(s: seq<AnmStrmEntry>, p: nat, before: seq<Curve>, after: seq<Curve>)
    requires Uniform(s) && p < |s| && s[p].entryData.Camera? && before == StepBase(s, p)
    requires after == before[0 := PushVector3Key(before[0], KeyVector3(p * TickScale, s[p].entryData.location))]
                            [1 := PushQuaternion(before[1], QuantizeQuaternion(s[p].entryData.rotation))]
                            [2 := PushFloatKey(before[2], KeyFloat(p * TickScale, s[p].entryData.fov))]
    ensures after == RawCurves(s, p + 1)
  {
    assert SameVariant(s[p].entryData, s[0].entryData);
    var r := RawCurves(s, p + 1);
    assert after[0] == r[0]; assert after[1] == r[1]; assert after[2] == r[2];
  }

  /** The directional-light pass of `AddSample` yields the closed form of one more sample. */
  lemma LightDircStep(s: seq<AnmStrmEntry>, p: nat, before: seq<Curve>, after: seq<Curve>)
    requires Uniform(s) && p < |s| && s[p].entryData.LightDirc? && before == StepBase(s, p)
    requires after == before[0 := PushRgb(before[0], QuantizeColor(s[p].entryData.color))]
                            [1 := PushFloat(before[1], s[p].entryData.intensity)]
                            [2 := PushQuaternion(before[2], QuantizeQuaternion(s[p].entryData.direction))]
    ensures after == RawCurves(s, p + 1)
  {
    assert SameVariant(s[p].entryData, s[0].entryData);
    var r := RawCurves(s, p + 1);
    assert after[0] == r[0]; assert after[1] == r[1]; assert after[2] == r[2];
  }

  /** The point-light pass of `AddSample` yields the closed form of one more sample. */
  lemma LightPointStep(s: seq<AnmStrmEntry>, p: nat, before: seq<Curve>, after: seq<Curve>)
    requires Uniform(s) && p < |s| && s[p].entryData.LightPoint? && before == StepBase(s, p)
    requires after == before[0 := PushRgb(before[0], QuantizeColor(s[p].entryData.color))]
                            [1 := PushFloat(before[1], s[p].entryData.intensity)]
                            [2 := PushVector3Key(before[2], KeyVector3(p * TickScale, s[p].entryData.position))]
                            [3 := PushFloat(before[3], s[p].entryData.radius)]
                            [4 := PushFloat(before[4], s[p].entryData.falloff)]
    ensures after == RawCurves(s, p + 1)
  {
    assert SameVariant(s[p].entryData, s[0].entryData);
    var r := RawCurves(s, p + 1);
    assert after[0] == r[0]; assert after[1] == r[1]; assert after[2] == r[2];
    assert after[3] == r[3]; assert after[4] == r[4];
  }

  /** The ambient-light pass of `AddSample` yields the closed form of one more sample. */
  lemma AmbientStep(s: seq<AnmStrmEntry>, p: nat, before: seq<Curve>, after: seq<Curve>)
    requires Uniform(s) && p < |s| && s[p].entryData.Ambient? && before == StepBase(s, p)
    requires after == before[0 := PushRgb(before[0], QuantizeColor(s[p].entryData.color))]
                            [1 := PushFloat(before[1], s[p].entryData.intensity)]
    ensures after == RawCurves(s, p + 1)
  {
    assert SameVariant(s[p].entryData, s[0].entryData);
    var r := RawCurves(s, p + 1);
    assert after[0] == r[0]; assert after[1] == r[1];
  }

  /** The morph-weight pass of `AddSample` yields the closed form of one more sample. */
  lemma MorphModelStep(s: seq<AnmStrmEntry>, p: nat, before: seq<Curve>, after: seq<Curve>)
    requires Uniform(s) && p < |s| && s[p].entryData.MorphModel? && before == StepBase(s, p)
    requires after == before[0 := PushFloat(before[0], s[p].entryData.morphWeight[0])]
                            [1 := PushFloat(before[1], s[p].entryData.morphWeight[1])]
    ensures after == RawCurves(s, p + 1)
  {
    assert SameVariant(s[p].entryData, s[0].entryData);
    var r := RawCurves(s, p + 1);
    assert after[0] == r[0]; assert after[1] == r[1];
  }

  /** The material pass of `AddSample` yields the closed form of one more sample. */
  lemma MaterialStep(s: seq<AnmStrmEntry>, p: nat, before: seq<Curve>, after: seq<Curve>)
    requires Uniform(s) && p < |s| && s[p].entryData.Material?
    requires before == StepBase(s, p)
    requires |after| == |before| == 18
    requires forall k :: 0 <= k < 16 ==>
               after[k] == PushChannel(before[k], k, p * TickScale, s[p].entryData.ambientColor[k])
    requires p == 0 ==> after[16] == PushFloat(before[16], 0.0) && after[17] == PushFloat(before[17], 1.0)
    requires p != 0 ==> after[16] == before[16] && after[17] == before[17]
    ensures after == RawCurves(s, p + 1)
  {
    assert SameVariant(s[p].entryData, s[0].entryData);
    var r := RawCurves(s, p + 1);
    forall k | 0 <= k < 18
      ensures after[k] == r[k]
    {
      assert r[k] == MaterialCurve(s, p + 1, k);
      if k < 16 && !IsSteppedChannel(k) {
        var f := (q: int) requires 0 <= q <= p => s[q].entryData.ambientColor[k];
        assert seq(p + 1, q requires 0 <= q < p + 1 => s[q].entryData.ambientColor[k])
            == seq(p, q requires 0 <= q < p => s[q].entryData.ambientColor[k]) + [s[p].entryData.ambientColor[k]];
      }
    }
  }

  /** convert_entries' inner loop: every sample in order, tick p * 100, then finalization. */
  method ConvertEntry(samples: seq<AnmStrmEntry>, lib: CurveLib) returns (e: AnmEntry)
    requires Convertible(samples)
    ensures e == Converted(samples, lib)
  {
    var builder := new EntryBuilder(samples[0].coord);
    var curveIndex := 0;
    var p := 0;
    while p < |samples|
      invariant 0 <= p <= |samples|
      invariant builder.coord == samples[0].coord && builder.curveCount == 0
      invariant builder.curves == RawCurves(samples, p) && builder.curveHeaders == RawHeaders(samples, p)
      invariant builder.entryFormat == RawFormat(samples, p) && curveIndex == |builder.curveHeaders|
    {
      curveIndex := builder.AddSample(samples, p, p * TickScale, samples[p].entryData, curveIndex);
      p := p + 1;
    }
    LayoutTable(samples[0].entryData);
    builder.Finalize(lib);
    e := builder.ToEntry();
  }

  /**
   * convert_entries: one entry per map key, visited in an unspecified order
   * (`order`), each entry the conversion of that key's samples.
   */
  method ConvertEntries(m: map<nat, seq<AnmStrmEntry>>, lib: CurveLib)
    returns (entries: seq<AnmEntry>, ghost order: seq<nat>)
    requires forall j :: j in m ==> Convertible(m[j])
    ensures |entries| == |order|
    ensures forall i :: 0 <= i < |order| ==> order[i] in m && entries[i] == Converted(m[order[i]], lib)
    ensures forall a, b :: 0 <= a < b < |order| ==> order[a] != order[b]
    ensures forall j :: j in m ==> j in order
    ensures |entries| == |m|
    ensures forall j :: j in m ==> Converted(m[j], lib) in entries
    ensures forall i :: 0 <= i < |entries| ==> entries[i] in ConvertedMap(m, lib).Values
  {
    ghost var converted := ConvertedMap(m, lib);
    entries, order := ConvertPending(m, lib, converted);
    forall i | 0 <= i < |order|
      ensures entries[i] == Converted(m[order[i]], lib)
    {
      assert converted[order[i]] == Converted(m[order[i]], lib);
    }
    ListedConversions(m, lib, order, entries);
  }

  /**
   * The loop of convert_entries: the keys of `m` are taken one at a time,
   * in an unspecified order, and each key's samples are converted.
   */
  method ConvertPending(m: map<nat, seq<AnmStrmEntry>>, lib: CurveLib, ghost converted: map<nat, AnmEntry>)
    returns (entries: seq<AnmEntry>, ghost order: seq<nat>)
    requires ConvertsAll(m, lib, converted)
    ensures |entries| == |order|
    ensures forall i :: 0 <= i < |order| ==> order[i] in m && entries[i] == converted[order[i]]
    ensures forall a, b :: 0 <= a < b < |order| ==> order[a] != order[b]
    ensures forall j :: j in m ==> j in order
  {
    entries, order := [], [];
    var pending := m.Keys;
    while pending != {}
      invariant pending <= m.Keys
      invariant |entries| == |order|
      invariant forall i :: 0 <= i < |order| ==>
                  order[i] in m && order[i] !in pending && entries[i] == converted[order[i]]
      invariant forall a, b :: 0 <= a < b < |order| ==> order[a] != order[b]
      invariant forall j :: j in m ==> j in order || j in pending
      decreases pending
    {
      var j :| j in pending;
      var e := ConvertKey(m, lib, converted, j);
      ListStep(m, converted, order, entries, pending, j);
      entries := entries + [e];
      order := order + [j];
      pending := pending - {j};
    }
  }

  /** Converts the entry under one key of `m`. */
  method ConvertKey(m: map<nat, seq<AnmStrmEntry>>, lib: CurveLib, ghost converted: map<nat, AnmEntry>, j: nat)
    returns (e: AnmEntry)
    requires ConvertsAll(m, lib, converted) && j in m
    ensures e == converted[j]
  {
    e := ConvertEntry(m[j], lib);
  }

  /** `converted` holds, under each key of `m`, that key's conversion. */
  ghost predicate ConvertsAll(m: map<nat, seq<AnmStrmEntry>>, lib: CurveLib, converted: map<nat, AnmEntry>) {
    && m.Keys <= converted.Keys
    && (forall j :: j in m ==> Convertible(m[j]))
    && forall j {:trigger Converted(m[j], lib)} :: j in m ==> converted[j] == Converted(m[j], lib)
  }

  /** A duplicate-free listing of exactly the keys of `m` is as long as `m`. */
  lemma OrderCountsKeys(m: map<nat, seq<AnmStrmEntry>>, order: seq<nat>)
    requires forall i :: 0 <= i < |order| ==> order[i] in m
    requires forall a, b :: 0 <= a < b < |order| ==> order[a] != order[b]
    requires forall j :: j in m ==> j in order
    ensures |order| == |m|
  {
    DistinctElements(order);
    assert Elements(order) == m.Keys;
  }

  /** The keys a listing names. */
  function Elements(s: seq<nat>): set<nat> {
    set x | x in s
  }

  lemma {:induction false} DistinctElements(s: seq<nat>)
    requires forall a, b :: 0 <= a < b < |s| ==> s[a] != s[b]
    ensures |Elements(s)| == |s|
  {
    if s != [] {
      var t, last := s[..|s| - 1], s[|s| - 1];
      DistinctElements(t);
      assert Elements(s) == Elements(t) + {last};
      forall x | x in t
        ensures x != last
      {
        var i :| 0 <= i < |t| && t[i] == x;
        assert s[i] == x;
      }
      assert last !in Elements(t);
    }
  }


  /** One step of ConvertEntries' loop keeps its bookkeeping: key `j` moves from pending to the end of the order. */
  lemma ListStep(m: map<nat, seq<AnmStrmEntry>>, converted: map<nat, AnmEntry>, order: seq<nat>,
                 entries: seq<AnmEntry>, pending: set<nat>, j: nat)
    requires j in pending && pending <= m.Keys && m.Keys <= converted.Keys && |entries| == |order|
    requires forall i :: 0 <= i < |order| ==>
               order[i] in m && order[i] !in pending && entries[i] == converted[order[i]]
    requires forall a, b :: 0 <= a < b < |order| ==> order[a] != order[b]
    requires forall k :: k in m ==> k in order || k in pending
    ensures var order', entries' := order + [j], entries + [converted[j]];
      && (forall i :: 0 <= i < |order'| ==>
            order'[i] in m && order'[i] !in pending - {j} && entries'[i] == converted[order'[i]])
      && (forall a, b :: 0 <= a < b < |order'| ==> order'[a] != order'[b])
      && (forall k :: k in m ==> k in order' || k in pending - {j})
      && pending - {j} <= m.Keys && |order'| == |entries'|
  {
    var order', entries' := order + [j], entries + [converted[j]];
    forall i | 0 <= i < |order'|
      ensures order'[i] in m && order'[i] !in pending - {j} && entries'[i] == converted[order'[i]]
    {
      if i < |order| {
        assert order'[i] == order[i] && entries'[i] == entries[i];
      }
    }
    forall a, b | 0 <= a < b < |order'|
      ensures order'[a] != order'[b]
    {
      if b == |order| {
        assert order'[a] == order[a] && order[a] !in pending;
      }
    }
  }

  /** Each key's conversion. */
  function ConvertedMap(m: map<nat, seq<AnmStrmEntry>>, lib: CurveLib): map<nat, AnmEntry>
    requires forall j :: j in m ==> Convertible(m[j])
  {
    map j | j in m :: Converted(m[j], lib)
  }

  /** An entry list indexed by an order that lists every key holds each key's conversion, and nothing else. */
  lemma ListedConversions(m: map<nat, seq<AnmStrmEntry>>, lib: CurveLib, order: seq<nat>, entries: seq<AnmEntry>)
    requires forall j :: j in m ==> Convertible(m[j])
    requires |entries| == |order|
    requires forall i :: 0 <= i < |order| ==> order[i] in m && entries[i] == Converted(m[order[i]], lib)
    requires forall a, b :: 0 <= a < b < |order| ==> order[a] != order[b]
    requires forall j :: j in m ==> j in order
    ensures |entries| == |m|
    ensures forall j :: j in m ==> Converted(m[j], lib) in entries
    ensures forall i :: 0 <= i < |entries| ==> entries[i] in ConvertedMap(m, lib).Values
  {
    OrderCountsKeys(m, order);
    forall j | j in m
      ensures Converted(m[j], lib) in entries
    {
      var i :| 0 <= i < |order| && order[i] == j;
      assert entries[i] == Converted(m[j], lib);
    }
    forall i | 0 <= i < |entries|
      ensures entries[i] in ConvertedMap(m, lib).Values
    {
      var j := order[i];
      assert ConvertedMap(m, lib)[j] == entries[i];
    }
  }

  // ----- what the converted entry is -----

  /** Step-held channel `k` after `n` samples: two keys per sample, (100p, v) then (100p + 50, v). */
  lemma {:induction false} StepHoldKeysShape(s: seq<AnmStrmEntry>, n: nat, k: nat)
    requires MaterialSamples(s) && n <= |s| && k < 16
    ensures |StepHoldKeys(s, n, k)| == 2 * n
    ensures forall p :: 0 <= p < n ==>
              StepHoldKeys(s, n, k)[2 * p] == KeyFloat(p * TickScale, s[p].entryData.ambientColor[k])
    ensures forall p :: 0 <= p < n ==>
              StepHoldKeys(s, n, k)[2 * p + 1] == KeyFloat(p * TickScale + StepHoldOffset, s[p].entryData.ambientColor[k])
  {
    if n > 0 {
      StepHoldKeysShape(s, n - 1, k);
    }
  }

  /**
   * Record counts before finalization: after n samples every curve holds n
   * records, except that material channels 0, 1, 8 and 9 hold 2n keys and
   * material curves 16 and 17 hold exactly [0.0] and [1.0].
   */
  lemma RawCurveCounts(s: seq<AnmStrmEntry>, n: nat)
    requires Uniform(s) && 0 < n <= |s|
    ensures var r, d := RawCurves(s, n), s[0].entryData;
      && (!d.Material? ==> forall k :: 0 <= k < |r| ==> r[k].Len() == n)
      && (d.Material? ==>
            && (forall k :: 0 <= k < 16 ==> r[k].Len() == if IsSteppedChannel(k) then 2 * n else n)
            && r[16] == Float([0.0]) && r[17] == Float([1.0]))
  {
    if s[0].entryData.Material? {
      MaterialCurveCounts(s, n);
    } else {
      PlainCurveCounts(s, n);
    }
  }

  lemma PlainCurveCounts(s: seq<AnmStrmEntry>, n: nat)
    requires Uniform(s) && 0 < n <= |s| && !s[0].entryData.Material?
    ensures forall k :: 0 <= k < |RawCurves(s, n)| ==> RawCurves(s, n)[k].Len() == n
  {
  }

  lemma MaterialCurveCounts(s: seq<AnmStrmEntry>, n: nat)
    requires Uniform(s) && 0 < n <= |s| && s[0].entryData.Material?
    ensures var r := RawCurves(s, n);
      && (forall k :: 0 <= k < 16 ==> r[k].Len() == if IsSteppedChannel(k) then 2 * n else n)
      && r[16] == Float([0.0]) && r[17] == Float([1.0])
  {
    var r := RawCurves(s, n);
    forall k | 0 <= k < 16
      ensures r[k].Len() == if IsSteppedChannel(k) then 2 * n else n
    {
      if IsSteppedChannel(k) {
        StepHoldKeysShape(s, n, k);
      }
    }
  }

  /** Every raw curve has the kind its layout header format describes. */
  lemma RawCurvesMatchLayout(s: seq<AnmStrmEntry>, n: nat)
    requires Uniform(s) && 0 < n <= |s|
    ensures forall k :: 0 <= k < |RawCurves(s, n)| ==>
              Describes(LayoutFormats(s[0].entryData)[k], RawCurves(s, n)[k])
  {
    LayoutTable(s[0].entryData);
  }

  /**
   * The finished entry's frame: it keeps the object's coordinate, carries the
   * variant's entry format, and has as many headers as curves, with
   * curve_count equal to that number; header k is numbered k, carries the
   * layout's format, a size of exactly 12 and, as frame count, the final
   * record count of curve k.
   */
  lemma ConvertedEntryShape(s: seq<AnmStrmEntry>, lib: CurveLib)
    requires Convertible(s)
    ensures var e, d := Converted(s, lib), s[0].entryData;
      && e.coord == s[0].coord && e.entryFormat == EntryFormatOf(d)
      && |e.curves| == |e.curveHeaders| == e.curveCount == Arity(d)
      && (forall k :: 0 <= k < Arity(d) ==>
            && e.curveHeaders[k].curveIndex == k
            && e.curveHeaders[k].curveFormat == LayoutFormats(d)[k]
            && e.curveHeaders[k].curveSize == CurveHeaderOverhead
            && e.curveHeaders[k].frameCount == lib.frameCount(e.curves[k]) % U16Modulus)
  {
    LayoutTable(s[0].entryData);
  }

  /** With a lawful library, header k's frame count is the final record count of curve k, as a u16. */
  lemma ConvertedFrameCounts(s: seq<AnmStrmEntry>, lib: CurveLib)
    requires Convertible(s) && Lawful(lib)
    ensures var e := Converted(s, lib);
      forall k :: 0 <= k < |e.curves| && k < |e.curveHeaders| ==>
        e.curveHeaders[k].frameCount == e.curves[k].Len() % U16Modulus
  {
  }

  /**
   * The finished entry's curves: each keeps every record appended during the
   * sample loop, in order, and keeps the kind its header describes; a
   * keyframed curve whose format is not padded ends with exactly one record
   * more than the samples gave it.
   */
  lemma ConvertedCurves(s: seq<AnmStrmEntry>, lib: CurveLib)
    requires Convertible(s) && Lawful(lib)
    ensures var e, raw := Converted(s, lib), RawCurves(s, |s|);
      forall k :: 0 <= k < |raw| ==>
        && Extends(raw[k], e.curves[k])
        && Describes(e.curveHeaders[k].curveFormat, e.curves[k])
        && (lib.hasKeyframes(raw[k]) && !IsPaddedFormat(lib.curveFormat(lib.appendNullKeyframe(raw[k]))) ==>
              e.curves[k].Len() == raw[k].Len() + 1)
  {
    var e, raw := Converted(s, lib), RawCurves(s, |s|);
    LayoutTable(s[0].entryData);
    RawCurvesMatchLayout(s, |s|);
    forall k | 0 <= k < |raw|
      ensures Extends(raw[k], e.curves[k]) && Describes(e.curveHeaders[k].curveFormat, e.curves[k])
    {
      FinalizeCurveShape(lib, raw[k]);
    }
    forall k | 0 <= k < |raw| && lib.hasKeyframes(raw[k]) && !IsPaddedFormat(lib.curveFormat(lib.appendNullKeyframe(raw[k])))
      ensures e.curves[k].Len() == raw[k].Len() + 1
    {
      FinalizeCurveShape(lib, raw[k]);
    }
  }

  /** Record `p` of finished curve `k`, read through the prefix the sample loop appended. */
  lemma FinishedPrefix(s: seq<AnmStrmEntry>, lib: CurveLib, k: nat)
    requires Convertible(s) && Lawful(lib) && k < |RawCurves(s, |s|)|
    ensures k < |Converted(s, lib).curves| && Extends(RawCurves(s, |s|)[k], Converted(s, lib).curves[k])
  {
    ConvertedCurves(s, lib);
  }

  /**
   * Bone samples in the finished entry: sample p's location is keyed at tick
   * 100p, its rotation and scale are quantized, and its toggle is copied.
   */
  lemma BoneRecords(s: seq<AnmStrmEntry>, lib: CurveLib, p: nat)
    requires Convertible(s) && Lawful(lib) && p < |s| && s[0].entryData.Bone?
    ensures var c, d := Converted(s, lib).curves, s[p].entryData;
      && |c| == 4 && d.Bone?
      && c[0].KeyframeVector3? && p < |c[0].vectorKeys| && c[0].vectorKeys[p] == KeyVector3(p * TickScale, d.location)
      && c[1].QuaternionShort? && p < |c[1].quaternions| && c[1].quaternions[p] == QuantizeQuaternion(d.rotation)
      && c[2].Vector3Short? && p < |c[2].vectors| && c[2].vectors[p] == QuantizeScale(d.scale)
      && c[3].Float? && p < |c[3].floats| && c[3].floats[p] == d.toggled
  {
    assert SameVariant(s[p].entryData, s[0].entryData);
    FinishedPrefix(s, lib, 0); FinishedPrefix(s, lib, 1); FinishedPrefix(s, lib, 2); FinishedPrefix(s, lib, 3);
  }

  /** Camera samples: location and field of view keyed at tick 100p, rotation quantized. */
  lemma CameraRecords(s: seq<AnmStrmEntry>, lib: CurveLib, p: nat)
    requires Convertible(s) && Lawful(lib) && p < |s| && s[0].entryData.Camera?
    ensures var c, d := Converted(s, lib).curves, s[p].entryData;
      && |c| == 3 && d.Camera?
      && c[0].KeyframeVector3? && p < |c[0].vectorKeys| && c[0].vectorKeys[p] == KeyVector3(p * TickScale, d.location)
      && c[1].QuaternionShort? && p < |c[1].quaternions| && c[1].quaternions[p] == QuantizeQuaternion(d.rotation)
      && c[2].KeyframeFloat? && p < |c[2].floatKeys| && c[2].floatKeys[p] == KeyFloat(p * TickScale, d.fov)
  {
    assert SameVariant(s[p].entryData, s[0].entryData);
    FinishedPrefix(s, lib, 0); FinishedPrefix(s, lib, 1); FinishedPrefix(s, lib, 2);
  }

  /** Directional-light samples: colour and direction quantized, intensity copied. */
  lemma LightDircRecords(s: seq<AnmStrmEntry>, lib: CurveLib, p: nat)
    requires Convertible(s) && Lawful(lib) && p < |s| && s[0].entryData.LightDirc?
    ensures var c, d := Converted(s, lib).curves, s[p].entryData;
      && |c| == 3 && d.LightDirc?
      && c[0].RGB? && p < |c[0].colors| && c[0].colors[p] == QuantizeColor(d.color)
      && c[1].Float? && p < |c[1].floats| && c[1].floats[p] == d.intensity
      && c[2].QuaternionShort? && p < |c[2].quaternions| && c[2].quaternions[p] == QuantizeQuaternion(d.direction)
  {
    assert SameVariant(s[p].entryData, s[0].entryData);
    FinishedPrefix(s, lib, 0); FinishedPrefix(s, lib, 1); FinishedPrefix(s, lib, 2);
  }

  /** Point-light samples: colour quantized, position keyed at tick 100p, the rest copied. */
  lemma LightPointRecords(s: seq<AnmStrmEntry>, lib: CurveLib, p: nat)
    requires Convertible(s) && Lawful(lib) && p < |s| && s[0].entryData.LightPoint?
    ensures var c, d := Converted(s, lib).curves, s[p].entryData;
      && |c| == 5 && d.LightPoint?
      && c[0].RGB? && p < |c[0].colors| && c[0].colors[p] == QuantizeColor(d.color)
      && c[1].Float? && p < |c[1].floats| && c[1].floats[p] == d.intensity
      && c[2].KeyframeVector3? && p < |c[2].vectorKeys| && c[2].vectorKeys[p] == KeyVector3(p * TickScale, d.position)
      && c[3].Float? && p < |c[3].floats| && c[3].floats[p] == d.radius
      && c[4].Float? && p < |c[4].floats| && c[4].floats[p] == d.falloff
  {
    assert SameVariant(s[p].entryData, s[0].entryData);
    FinishedPrefix(s, lib, 0); FinishedPrefix(s, lib, 1); FinishedPrefix(s, lib, 2);
    FinishedPrefix(s, lib, 3); FinishedPrefix(s, lib, 4);
  }

  /** Ambient-light samples: colour quantized, intensity copied. */
  lemma AmbientRecords(s: seq<AnmStrmEntry>, lib: CurveLib, p: nat)
    requires Convertible(s) && Lawful(lib) && p < |s| && s[0].entryData.Ambient?
    ensures var c, d := Converted(s, lib).curves, s[p].entryData;
      && |c| == 2 && d.Ambient?
      && c[0].RGB? && p < |c[0].colors| && c[0].colors[p] == QuantizeColor(d.color)
      && c[1].Float? && p < |c[1].floats| && c[1].floats[p] == d.intensity
  {
    assert SameVariant(s[p].entryData, s[0].entryData);
    FinishedPrefix(s, lib, 0); FinishedPrefix(s, lib, 1);
  }

  /** Morph samples: the first two weights copied. */
  lemma MorphModelRecords(s: seq<AnmStrmEntry>, lib: CurveLib, p: nat)
    requires Convertible(s) && Lawful(lib) && p < |s| && s[0].entryData.MorphModel?
    ensures var c, d := Converted(s, lib).curves, s[p].entryData;
      && |c| == 2 && d.MorphModel?
      && c[0].Float? && p < |c[0].floats| && c[0].floats[p] == d.morphWeight[0]
      && c[1].Float? && p < |c[1].floats| && c[1].floats[p] == d.morphWeight[1]
  {
    assert SameVariant(s[p].entryData, s[0].entryData);
    FinishedPrefix(s, lib, 0); FinishedPrefix(s, lib, 1);
  }

  /**
   * Material samples, channel k < 16: a step-held channel carries the pair
   * (100p, v), (100p + 50, v) at keys 2p and 2p + 1, a dense channel carries
   * v at position p; curves 16 and 17 start with 0.0 and 1.0.
   */
  lemma MaterialRecords(s: seq<AnmStrmEntry>, lib: CurveLib, p: nat, k: nat)
    requires Convertible(s) && Lawful(lib) && p < |s| && s[0].entryData.Material? && k < 16
    ensures var c, d := Converted(s, lib).curves, s[p].entryData;
      && |c| == 18 && d.Material?
      && (IsSteppedChannel(k) ==>
            && c[k].KeyframeFloat? && 2 * p + 1 < |c[k].floatKeys|
            && c[k].floatKeys[2 * p] == KeyFloat(p * TickScale, d.ambientColor[k])
            && c[k].floatKeys[2 * p + 1] == KeyFloat(p * TickScale + StepHoldOffset, d.ambientColor[k]))
      && (!IsSteppedChannel(k) ==> c[k].Float? && p < |c[k].floats| && c[k].floats[p] == d.ambientColor[k])
      && c[16].Float? && 0 < |c[16].floats| && c[16].floats[0] == 0.0
      && c[17].Float? && 0 < |c[17].floats| && c[17].floats[0] == 1.0
  {
    assert SameVariant(s[p].entryData, s[0].entryData);
    LayoutTable(s[0].entryData);
    FinishedPrefix(s, lib, k); FinishedPrefix(s, lib, 16); FinishedPrefix(s, lib, 17);
    if IsSteppedChannel(k) {
      StepHoldKeysShape(s, |s|, k);
    }
  }
}
