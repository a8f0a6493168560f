/**
 * Data model shared by every stage of the ANMSTRM -> ANM conversion
 * (src/convert.rs): the per-frame stream samples that come in, the keyframe
 * curves, curve headers and entries that go out, and the clump tables that
 * are carried along.
 *
 * Floating-point payloads are modelled as `real`; integer fields of the
 * container format (i16, u16, u32) are `int`, and every place where the
 * source narrows or wraps a value writes that out explicitly.
 */
module AnmTypes {

  /** One stream frame is this many engine ticks. */
  const TickScale: int := 100

  /** Offset of the second key of a step-held material channel. */
  const StepHoldOffset: int := 50

  /** Size in bytes added to every curve header when a curve is closed. */
  const CurveHeaderOverhead: int := 0xC

  /** Frames the stream holds beyond the produced animation's frame count. */
  const FrameCountOffset: int := 100

  /** Version written into every produced animation. */
  const AnmVersion: int := 121

  /** Length of the bone/material index list that marks the damage clump. */
  const DamageMarkerLength: int := 97

  /** 2^16: a `u16` keeps its value modulo this. */
  const U16Modulus: int := 0x1_0000

  // Entry format codes (AnmEntryFormat of the container library, as u16).
  // Only their distinctness and their order matter to the model.
  const EntryFormatBone: int := 1
  const EntryFormatCamera: int := 2
  const EntryFormatMaterial: int := 4
  const EntryFormatLightDirc: int := 5
  const EntryFormatLightPoint: int := 6
  const EntryFormatAmbient: int := 8
  const EntryFormatMorphModel: int := 9

  // Curve format codes (AnmCurveFormat of the container library, as u16).
  const CurveFormatInt1Float3: int := 0x06
  const CurveFormatFloat1: int := 0x0B
  const CurveFormatInt1Float1: int := 0x0C
  const CurveFormatShort3: int := 0x10
  const CurveFormatShort4: int := 0x11
  const CurveFormatByte3: int := 0x14
  const CurveFormatFloat1Alt: int := 0x16

  /** (clump index, coordinate index): names one animatable object. */
  datatype CoordKey = CoordKey(clumpIndex: int, coordIndex: int)

  datatype Vector3 = Vector3(x: real, y: real, z: real)

  datatype Vector4 = Vector4(x: real, y: real, z: real, w: real)

  /** The sixteen colour channels of a material sample. */
  type ColorChannels = s: seq<real> | |s| == 16 witness seq(16, i => 0.0)

  /** Morph weights of a morph-model sample; the converter reads the first two. */
  type MorphWeights = s: seq<real> | |s| >= 2 witness [0.0, 0.0]

  /** The typed payload of one object in one stream frame. */
  datatype EntryData =
    | Bone(location: Vector3, rotation: Vector4, scale: Vector3, toggled: real)
    | Camera(location: Vector3, rotation: Vector4, fov: real)
    | LightDirc(color: Vector3, intensity: real, direction: Vector4)
    | LightPoint(color: Vector3, intensity: real, position: Vector3, radius: real, falloff: real)
    | Ambient(color: Vector3, intensity: real)
    | MorphModel(morphWeight: MorphWeights)
    | Material(ambientColor: ColorChannels)
    | Other  // any variant the converter does not handle

  /** One object's sample in one frame of the stream. */
  datatype AnmStrmEntry = AnmStrmEntry(coord: CoordKey, entryData: EntryData)

  /** The seven variants the converter turns into curves. */
  predicate Supported(d: EntryData) {
    !d.Other?
  }

  predicate SameVariant(a: EntryData, b: EntryData) {
    && a.Bone? == b.Bone?
    && a.Camera? == b.Camera?
    && a.LightDirc? == b.LightDirc?
    && a.LightPoint? == b.LightPoint?
    && a.Ambient? == b.Ambient?
    && a.MorphModel? == b.MorphModel?
    && a.Material? == b.Material?
  }

  /** Every sample of one object index has the variant of the first one. */
  predicate Uniform(samples: seq<AnmStrmEntry>) {
    forall p :: 0 <= p < |samples| ==> SameVariant(samples[p].entryData, samples[0].entryData)
  }

  /** The entry format the converter stamps for a variant (0 if it stamps none). */
  function EntryFormatOf(d: EntryData): int {
    match d
    case Bone(_, _, _, _) => EntryFormatBone
    case Camera(_, _, _) => EntryFormatCamera
    case LightDirc(_, _, _) => EntryFormatLightDirc
    case LightPoint(_, _, _, _, _) => EntryFormatLightPoint
    case Ambient(_, _) => EntryFormatAmbient
    case MorphModel(_) => EntryFormatMorphModel
    case Material(_) => EntryFormatMaterial
    case Other => 0
  }

  // ----- curve records -----

  datatype KeyVector3 = KeyVector3(frame: int, value: Vector3)

  /** A quaternion quantized to four i16 components. */
  datatype QuatShort = QuatShort(x: int, y: int, z: int, w: int)

  /** A vector quantized to three i16 components. */
  datatype Vec3Short = Vec3Short(x: int, y: int, z: int)

  datatype KeyFloat = KeyFloat(frame: int, value: real)

  /** A colour quantized to three u8 components. */
  datatype Rgb = Rgb(r: int, g: int, b: int)

  /** A homogeneous curve: keyframed kinds carry explicit frames, the others one record per sample. */
  datatype Curve =
    | KeyframeVector3(vectorKeys: seq<KeyVector3>)
    | QuaternionShort(quaternions: seq<QuatShort>)
    | Vector3Short(vectors: seq<Vec3Short>)
    | Float(floats: seq<real>)
    | KeyframeFloat(floatKeys: seq<KeyFloat>)
    | RGB(colors: seq<Rgb>)
  {
    /** Number of records in the curve. */
    function Len(): nat {
      match this
      case KeyframeVector3(s) => |s|
      case QuaternionShort(s) => |s|
      case Vector3Short(s) => |s|
      case Float(s) => |s|
      case KeyframeFloat(s) => |s|
      case RGB(s) => |s|
    }
  }

  /** `d` is `c` with zero or more records appended (same kind, `c`'s records first). */
  predicate Extends(c: Curve, d: Curve) {
    match c
    case KeyframeVector3(s) => d.KeyframeVector3? && s <= d.vectorKeys
    case QuaternionShort(s) => d.QuaternionShort? && s <= d.quaternions
    case Vector3Short(s) => d.Vector3Short? && s <= d.vectors
    case Float(s) => d.Float? && s <= d.floats
    case KeyframeFloat(s) => d.KeyframeFloat? && s <= d.floatKeys
    case RGB(s) => d.RGB? && s <= d.colors
  }

  datatype CurveHeader = CurveHeader(curveIndex: int, curveFormat: int, frameCount: int, curveSize: int)

  /** A converted object: header k describes curve k. */
  datatype AnmEntry = AnmEntry(
    coord: CoordKey,
    entryFormat: int,
    curveCount: int,
    curveHeaders: seq<CurveHeader>,
    curves: seq<Curve>)

  // ----- tables carried from the stream into the animation -----

  datatype StrmClump = StrmClump(clumpIndex: int, boneMaterialIndices: seq<int>, modelIndices: seq<int>)

  datatype AnmClump = AnmClump(clumpIndex: int, boneMaterialIndices: seq<int>, modelIndices: seq<int>)

  datatype CoordParent = CoordParent(parent: CoordKey, child: CoordKey)

  /** Chunk name, type and path of an output animation in the container. */
  datatype StructInfo = StructInfo(chunkName: string, chunkType: string, filepath: string)

  /** The stream summary: total frames, loop flag and the hierarchy tables. */
  datatype AnmStrm = AnmStrm(
    frameCount: int,
    isLooped: bool,
    clumps: seq<StrmClump>,
    coordParents: seq<CoordParent>,
    otherEntryIndices: seq<int>)
}
