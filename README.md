# strmconv conversion core in Dafny

This project models the conversion core of strmconv, `src/convert.rs`. It turns an ANMSTRM animation stream into two ANM animations. The stream is a sequence of frames, each holding one sample per animated object. The output is a primary ANM and a "damage" (DMG) ANM.

The model follows the source's five stages:

1. **Frame collection** (`collect.dfy`, module `FrameCollector`).
   - Samples are regrouped per object index, in ascending frame order.
   - Samples of variants the converter does not handle are dropped.
   - Indices left without samples are dropped from the map.
2. **Entry conversion** (`entry.dfy`, module `EntryConverter`). An `EntryBuilder` object is filled in place:
   - The first sample (tick 0) allocates the variant's fixed layout of curves and headers.
   - The sample at position p is stamped with tick 100·p.
   - Every sample appends one record to each curve. Material channels 0, 1, 8 and 9 get two step-held keys per sample, and the material toggle curves 16 and 17 get one constant each, at tick 0 only.
   - Components are quantized with Rust's saturating `as` casts (`quantize.dfy`).
   - The builder's methods are proved against the closed form `RawCurves(samples, n)`. The lemmas then state what the finished entry is: `Converted(samples, lib)`.
3. **Curve finalization** (`finalize.dfy` and `EntryBuilder.Finalize`).
   - Keyframed curves get a terminator, and BYTE3/SHORT3 curves are padded.
   - Every header's size becomes 12, and its frame count becomes the curve's final record count.
4. **Assembly** (`assembly.dfy`, module `Assembly`).
   - `build_anm` sorts the entries stably by (clump, coord, format). The sort is `SortBy` in `sorting.dfy`, proved sorted, a permutation and stable.
   - It copies the clumps one by one and sets version 121.
   - Its frame count is the stream's minus 100.
5. **Damage split** (`damage.dfy`, module `ClumpSplitter`).
   - Some clump position whose bone/material list has 97 indices is chosen, or 0 if there is none.
   - The entries whose clump index equals that position, narrowed to i16, go into the damage animation, ordered by coordinate index.
   - Those entries are removed from the primary animation in place.

`pipeline.dfy` (module `Pipeline`) composes the stages as `convert_anmstrm` does and returns `[primary, damage]`.

Floating-point payloads are `real`. The container library's curve operations (`has_keyframes`, `append_null_keyframe`, `get_curve_format`, `pad_values`, `get_frame_count`) are not part of this model. They are passed in as a `CurveLib` value, and lemmas assume only `Lawful(lib)`:
- appending a terminator adds exactly one record;
- padding only appends;
- a curve's frame count is its number of records.

Three facts about the code that the model keeps:
- `position_any` (src/convert.rs:852) may return any matching position, not necessarily the first. The model allows any matching position.
- Entries are compared with the position `d as i16` (src/convert.rs:875, 930), not with the clump's `clump_index` field.
- The buckets are sized by the first frame (src/convert.rs:71-73), and only a supported sample indexes them (src/convert.rs:97-98). The code therefore needs only that no frame has a supported sample beyond the first frame's length. The model's precondition (`FramesFit`) says exactly that, and a longer frame whose extra samples are unsupported is accepted, its extras dropped.

## Model

| member | source | states |
|---|---|---|
| Quantize.TruncTowardZero | src/convert.rs:204-207 | the integer part of x, dropping the fraction toward zero, on both signs |
| Quantize.SaturatingCast | src/convert.rs:204-214 | Rust float-to-int `as`: result in the target range, clamps at or beyond the bounds, otherwise within 1 of x and on the zero side of it |
| Quantize.QuantizeQuaternion | src/convert.rs:203-208 | each quaternion component becomes x·0x4000 as i16, inside the i16 range |
| Quantize.QuantizeScale | src/convert.rs:211-215 | each scale component becomes x·0x1000 as i16, inside the i16 range |
| Quantize.QuantizeColor | src/convert.rs:583-587 | each colour channel becomes x·255 as u8, inside 0..255 |
| Quantize.QuaternionComponentRoundTrip | src/convert.rs:23-25 | a component in (-2, 2) quantizes and divides back by 0x4000 to within one step, never away from zero |
| Quantize.ColorChannelInRange | src/convert.rs:25 | a unit-range colour channel quantizes to the plain truncation of x·255, without saturating |
| FrameCollector.BuildEntriesFromFrames | src/convert.rs:70-111 | the nested loop leaves one bucket per index of the first frame, bucket j being the supported samples at position j frame by frame |
| FrameCollector.CollectedBounds | src/convert.rs:88-101 | bucket j after the first frames (`Collected`): never longer than the number of frames read, and only supported samples |
| FrameCollector.EntriesMap | src/convert.rs:114-125 | exactly the non-empty buckets, keyed by their index, which fits a u16 |
| FrameCollector.CollectedExactly | src/convert.rs:88-101 | bucket j holds exactly the supported samples at position j: from strictly ascending frames, each being that frame's j-th sample, none missed |
| FrameCollector.CollectedMapExact | src/convert.rs:114-125 | the map's keys are exactly the indices with a supported sample in some frame, each mapped to its bucket |
| CurveFinalizer.FinalizeCurveShape | src/convert.rs:765-777 | finalization keeps a curve's records and kind; a keyframed curve gains one terminator; a curve neither keyframed nor padded is unchanged |
| CurveFinalizer.FinalizeCurve | src/convert.rs:770-778 | a curve after closing: terminator if keyframed, then padding if BYTE3 or SHORT3; with a lawful library it extends the curve and is no shorter |
| CurveFinalizer.FinalizeHeader | src/convert.rs:779-782 | a header after closing: size grows by 12, frame count is the library's count as a u16, index and format are kept |
| CurveFinalizer.FinalizeHeaderShape | src/convert.rs:779-782 | with a lawful library, frame_count is the final record count as a u16; curve_size grows by exactly 12; index and format are kept |
| EntryConverter.LayoutCurves | src/convert.rs:162-745 | the empty curves a variant allocates at tick 0: none for an unhandled variant, at most 18 otherwise, all empty |
| EntryConverter.LayoutFormats | src/convert.rs:162-745 | one header format per layout curve, each describing its curve's kind |
| EntryConverter.Converted | src/convert.rs:140-786 | the finished entry: the first sample's coordinate and the variant's entry format, one header per curve, the variant's number of curves |
| EntryConverter.LayoutTable | src/convert.rs:161-745 | per-variant layout: 4/3/3/5/2/2/18 curves for Bone/Camera/LightDirc/LightPoint/Ambient/MorphModel/Material, one format per curve, each describing its curve's kind, all empty |
| EntryConverter.RawCurves | src/convert.rs:151-760 | after n samples the entry has the variant's number of curves (none before the first sample) |
| EntryConverter.EntryBuilder.constructor | src/convert.rs:141-147 | a new entry has the first sample's coordinate, format 0, and no curves or headers |
| EntryConverter.EntryBuilder.AllocateLayout | src/convert.rs:161-745 | the tick-0 block appends the variant's empty curves and headers numbered from the running curve index, and advances it by the arity |
| EntryConverter.EntryBuilder.AddSample | src/convert.rs:156-761 | one pass of the sample loop turns the state after p samples into the state after p + 1: format stamped, layout allocated only at tick 0, one record appended per curve |
| EntryConverter.EntryBuilder.PushBone | src/convert.rs:195-221 | a bone sample's location key, quantized rotation and scale, and toggle are appended, advancing the curves to the next closed form |
| EntryConverter.EntryBuilder.PushMaterial | src/convert.rs:378-488 | a material sample's 16 channels are appended (two step-held keys on channels 0, 1, 8, 9), plus 0.0 and 1.0 on curves 16 and 17 at tick 0 only |
| EntryConverter.EntryBuilder.PushCamera | src/convert.rs:525-547 | a camera sample's location key, quantized rotation and field-of-view key are appended |
| EntryConverter.EntryBuilder.PushLightDirc | src/convert.rs:581-602 | a directional-light sample's quantized colour, intensity and quantized direction are appended |
| EntryConverter.EntryBuilder.PushLightPoint | src/convert.rs:654-682 | a point-light sample's quantized colour, intensity, position key, radius and falloff are appended |
| EntryConverter.EntryBuilder.PushAmbient | src/convert.rs:709-721 | an ambient-light sample's quantized colour and intensity are appended |
| EntryConverter.EntryBuilder.PushMorphModel | src/convert.rs:747-755 | a morph sample's first two weights are appended |
| EntryConverter.EntryBuilder.Finalize | src/convert.rs:764-785 | over the zipped (curve, header) pairs, each curve is finalized and its header gets size +12 and the final record count; curve_count becomes the number of curves |
| EntryConverter.BoneStep | src/convert.rs:195-221 | the bone pushes applied to the layout or the previous closed form give the closed form of one more sample |
| EntryConverter.CameraStep | src/convert.rs:525-547 | the camera pushes give the closed form of one more sample |
| EntryConverter.LightDircStep | src/convert.rs:581-602 | the directional-light pushes give the closed form of one more sample |
| EntryConverter.LightPointStep | src/convert.rs:654-682 | the point-light pushes give the closed form of one more sample |
| EntryConverter.AmbientStep | src/convert.rs:709-721 | the ambient-light pushes give the closed form of one more sample |
| EntryConverter.MorphModelStep | src/convert.rs:747-755 | the morph pushes give the closed form of one more sample |
| EntryConverter.MaterialStep | src/convert.rs:378-488 | the material pushes give the closed form of one more sample |
| EntryConverter.ConvertEntry | src/convert.rs:140-786 | one object's samples, looped with tick p·100 and then finalized, give exactly `Converted(samples, lib)` |
| EntryConverter.ConvertEntries | src/convert.rs:128-796 | one entry per map key, in some order listing every key once, each the conversion of that key's samples; as many entries as keys, every key's conversion among them and nothing else |
| EntryConverter.ConvertPending | src/convert.rs:140-792 | the loop over the map's keys, taken one at a time in an unspecified order: every key is listed once, and the entry at each position is that key's conversion |
| EntryConverter.OrderCountsKeys | src/convert.rs:128-796 | a duplicate-free listing of exactly the map's keys has one element per key, so the output has as many entries as the map |
| EntryConverter.ListedConversions | src/convert.rs:140-792 | an entry list that follows an order naming every key holds each key's conversion and only conversions of keys |
| EntryConverter.StepHoldKeysShape | src/convert.rs:380-404 | a step-held channel after n samples holds 2n keys: (100p, v) then (100p + 50, v) for sample p |
| EntryConverter.RawCurveCounts | src/convert.rs:196-755 | before finalization every curve holds n records after n samples, except material channels 0, 1, 8, 9 (2n keys) and material curves 16 and 17 (exactly [0.0] and [1.0]) |
| EntryConverter.RawCurvesMatchLayout | src/convert.rs:162-745 | every curve built by the sample loop has the kind its header format describes |
| EntryConverter.ConvertedEntryShape | src/convert.rs:141-785 | the finished entry keeps the coordinate and variant format; curve_count, header count and curve count agree with the arity; header k has index k, the layout format, size 12 and the library's frame count of its curve |
| EntryConverter.ConvertedFrameCounts | src/convert.rs:779-782 | with a lawful library, header k's frame count is curve k's final record count as a u16 |
| EntryConverter.ConvertedCurves | src/convert.rs:765-783 | each finished curve extends the curve the sample loop built and keeps the kind its header describes; a keyframed, unpadded curve grows by exactly one record |
| EntryConverter.FinishedPrefix | src/convert.rs:765-777 | a finished curve starts with the records the sample loop appended |
| EntryConverter.BoneRecords | src/convert.rs:151-221 | in the finished bone entry, sample p's location is keyed at tick 100p, its rotation and scale are quantized, and its toggle is copied |
| EntryConverter.CameraRecords | src/convert.rs:525-547 | in the finished camera entry, location and field of view are keyed at tick 100p and rotation is quantized |
| EntryConverter.LightDircRecords | src/convert.rs:581-602 | in the finished directional-light entry, colour and direction are quantized and intensity is copied |
| EntryConverter.LightPointRecords | src/convert.rs:654-682 | in the finished point-light entry, colour is quantized, position is keyed at tick 100p, and intensity, radius and falloff are copied |
| EntryConverter.AmbientRecords | src/convert.rs:709-721 | in the finished ambient entry, colour is quantized and intensity is copied |
| EntryConverter.MorphModelRecords | src/convert.rs:747-755 | in the finished morph entry, the first two weights are copied |
| EntryConverter.MaterialRecords | src/convert.rs:378-488 | in the finished material entry, a step-held channel has keys (100p, v) and (100p + 50, v) at 2p and 2p + 1, a dense channel has v at p, and curves 16 and 17 start with 0.0 and 1.0 |
| EntryOrder.ByCoordAndFormat | src/convert.rs:807-813 | the `cmp().then_with()` chain: the first differing key among clump index and coordinate index decides; with equal coordinates, entry format decides |
| EntryOrder.ByCoordIndex | src/convert.rs:883 | `a` may precede `b` exactly when `b`'s coordinate index is not smaller |
| EntryOrder.OrdersAreTotal | src/convert.rs:807-813 | both comparators are total and transitive |
| EntryOrder.SameClumpSortedByCoord | src/convert.rs:807-813 | within one clump, the (clump, coord, format) order is also coordinate order |
| EntryOrder.Insert | src/convert.rs:807 | inserting adds the element once and keeps everything else (multiset) |
| EntryOrder.SortBy | src/convert.rs:807 | `sort_by` returns a permutation of its input |
| EntryOrder.InsertKeepsSorted | src/convert.rs:807 | inserting into a sorted list keeps it sorted |
| EntryOrder.SortBySorted | src/convert.rs:807 | `sort_by` returns a sorted list |
| EntryOrder.InsertLast | src/convert.rs:807 | an element not less than every present one is appended |
| EntryOrder.SortBySortedIsIdentity | src/convert.rs:883 | sorting a list already in order leaves it unchanged |
| EntryOrder.EquivalentToConcat | src/convert.rs:807 | the ties of a key in a concatenation are the ties in each part, in order |
| EntryOrder.NoneEquivalent | src/convert.rs:807 | a list with no element tying with the key has no ties |
| EntryOrder.InsertStable | src/convert.rs:807 | an inserted element lands after every present element that ties with it |
| EntryOrder.SortByStable | src/convert.rs:807 | `sort_by` is stable: elements that tie keep their input order |
| Assembly.Anm.constructor | src/convert.rs:830-840 | a new animation carries the given fields, version 121 and empty unk_entry_indices |
| Assembly.CopyClumps | src/convert.rs:817-827 | one copied clump per stream clump, in order, with index and both index lists equal |
| Assembly.BuildAnm | src/convert.rs:798-843 | the entries are the input sorted stably by (clump, coord, format), a permutation of it; clumps are copied elementwise; version 121; frame count is the stream's minus 100; loop flag and tables carried over |
| ClumpSplitter.FindDamageClump | src/convert.rs:850-853 | the chosen position holds a clump with 97 bone/material indices if any clump does, and is 0 otherwise |
| ClumpSplitter.AsI16Wrap | src/convert.rs:875 | `usize as i16`: the result is in the i16 range, congruent to n modulo 2^16, and equal to n below 0x8000 |
| ClumpSplitter.WithClump | src/convert.rs:872-877 | the filter keeps exactly the entries of the given clump index |
| ClumpSplitter.WithoutClump | src/convert.rs:930 | `retain` keeps exactly the entries of other clump indices |
| ClumpSplitter.SplitIsPartition | src/convert.rs:872-930 | together the two lists hold every entry of the primary exactly as often as it occurred |
| ClumpSplitter.SplitKeepsOrder | src/convert.rs:872-930 | both filtered lists keep the primary's order, so a sorted primary stays sorted |
| ClumpSplitter.DamageResortIsIdentity | src/convert.rs:883 | on the sorted primary, the damage re-sort by coordinate changes nothing: the damage entries are in coordinate order already |
| ClumpSplitter.BuildDmgAnm | src/convert.rs:846-941 | the damage animation holds the clump-d entries sorted by coordinate, the primary's clumps and coordinate parents, no other-entry indices; the primary keeps exactly its other entries; nothing else of the primary changes |
| Pipeline.ConvertFrames | src/convert.rs:53-55 | one converted entry per non-empty column, each column once, each entry the conversion of its column; every non-empty column's conversion is in the list |
| Pipeline.MapHoldsColumns | src/convert.rs:114-125 | the converter's map has exactly the non-empty columns as keys, each holding a convertible column |
| Pipeline.AssembleAnms | src/convert.rs:57-63 | `build_anm` then `build_dmg_anm` on the converted entries: the damage list and the primary's remainder partition the sorted list; the primary is in (clump, coord, format) order and the damage one in coordinate order; clumps, loop flag, coordinate parents and other-entry indices as in `ConvertAnmstrm` |
| Pipeline.ConvertAnmstrm | src/convert.rs:28-66 | two animations, primary first: the assembled list split by clump d; together they hold every converted entry once; the primary is sorted by (clump, coord, format) and the damage one by coordinate; both have version 121, the stream's frame count minus 100, its loop flag and coordinate parents; the primary's clumps copy the stream's and its other-entry indices are the stream's, the damage one's are empty |

## Left out

- Locating the ANMSTRM and its frames in the container (src/convert.rs:32-50): the downcasts and the `.unwrap()` on a missing stream are calls into the container library. The stream summary and frames are inputs.
- Progress bars and messages (src/convert.rs:79-108, 131-138, 787-791): they do not affect results.
- Rayon parallelism: the model is sequential. `par_iter_mut` only resets empty buckets and the parallel `filter` keeps order. `position_any`'s freedom to return any match is kept as a nondeterministic choice.
- `src/main.rs` and `src/macros.rs` are not part of this model: argument handling, file reading and writing, and directory scanning.
- The container library's curve operations: terminator and padding values and the format reported per curve are not pinned. Only the laws in `Lawful` are assumed.
- The numeric entry and curve format codes are not part of this model; the values in `types.dfy` are assumed to be the container library's. Their distinctness decides which header describes which curve. The order of the entry format codes also fixes the sort among entries that share (clump, coord).
- IEEE-754 behaviour: NaN, infinities and the rounding of the float product before the cast are not modelled. Floats are reals.
- EntryConverter.ConvertEntry: the precondition that all samples of an index have the first sample's variant is stated, not handled. With mixed variants, the source silently skips mismatched curves or indexes out of bounds.
- EntryConverter.EntryBuilder.AddSample: the tick is `frame as i32` in the source. The i32 wrap beyond 21,474,836 samples is not modelled.
- FrameCollector.BuildEntriesFromFrames: the `u32` count of the first frame's entries is not truncated. A supported sample beyond the first frame's length panics in the source (out-of-bounds index) and is excluded by the precondition; unsupported extra samples are dropped, as in the source.
- FrameCollector.EntriesMap: a non-empty bucket whose index does not fit a u16 panics in the source (`try_into().unwrap()`). The precondition excludes exactly those inputs; empty buckets beyond that index are allowed, because the source drops them first.
- Assembly.BuildAnm: `frame_count - 100` on an unsigned field panics (debug) or wraps (release) below 100. The precondition requires at least 100.
- ClumpSplitter.BuildDmgAnm: the commented-out renumbering of clumps, coordinate parents and entries is not part of the code, so it is not modelled.
- ConvertEntries: HashMap iteration order is not modelled beyond "each key exactly once". The later sort fixes the output order, except among entries that tie on (clump, coord, format).
