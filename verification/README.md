# Display lists, damage and sync: a verified model

This project models four parts of the repository and proves what they promise.

1. **The display list recorder and its culled replay** (`flutter/engine/src/flutter/display_list`).
   The recorder turns canvas calls into a flat list of records. It puts off save records until they
   matter, drops transforms, clips, attributes and draws that do nothing, patches restore indices,
   depths and layer summaries back into earlier records, and keeps one summary per layer that several
   save stack entries share. A list can be replayed in full or only where it meets a rectangle.
2. **The byte store and the bulk comparison** of two lists (`dl_storage.cc`, `display_list.cc`).
3. **The damage tracker** (`flutter/engine/src/flutter/flow/diff_context.cc`).
4. **The vault sync server** (`backend/Aosa.Api/Endpoints`).

## How it is built

`Recorder.dfy` is the recorder as a state machine on values, one step function per call; all theorems
about it are about runs of this machine. `Builder.dfy` is the recorder as the program has it, an object
with heap-allocated layer objects shared by the entries of its save stack, and every method is proved to
do exactly the machine's step, so `Builder.Record` returns the very list that the theorems are about.
The sync server (`Sync.dfy`) and the damage tracker (`DiffContext.dfy`, `DamageTracker.dfy`) have the same
two halves.

What records mean is given by definitions of their own: a plain interpreter with an explicit save stack
(`Reference.dfy`), which asks a world what shapes, operations and lists cover and plays the calls under any
outer matrix, a compositor of one pixel (`Compositing.dfy`), a fold for depth and brackets
(`Brackets.dfy`), an inlining count (`Counting.dfy`), a reading machine for layer summaries
(`LayerSummaries.dfy`), and a view machine for partial replay (`CulledReplay.dfy`). They share the recorder's data types, and small functions such as the effect of a
transform on a matrix, but not its state; they read records through `Skeleton`, which forgets the fields
that restores patch later. Four more follow a run of calls beside the recorder: tagged rectangles, each
followed by itself (`Coverage.dfy`), what is recorded directly in each layer (`Contents.dfy`), the clips that
decide what is recorded at all (`Culling.dfy`), and the bounds that callers give for layers
(`CallerBounds.dfy`). `DamageScenes.dfy` follows the events of the damage tracker in the same way, by the
transforms, culls and filters that were pushed. `FilteredLayers.dfy` says what an image filter does to a layer
and its bounds, and `GroupOpacity.dfy` what it means that a layer can hand its opacity down.

Geometry is over the reals with matrices that scale and translate, so that rectangles map to rectangles
exactly. Some parts of the engine are parameters of the model (`Recorder.Engine`): how the clip tracker
narrows a cull rectangle, how image filters map bounds and what they reach, how nested rtree rectangles are
consolidated. What a theorem needs of them is a stated contract (`Reference.SoundEngine`). The program's own tracker, with all
its roundings, meets it (`ClipTracker.TrackerIsSound`), so the meaning theorem holds of the program
(`Limits.ProgramPreservesMeaning`), and `Extents.dfy` shows that built lists keep to what the contract says
of nested lists, under whatever matrix they are played. `Limits.dfy` also shows that what the meaning theorem
asks of draws, nested lists, resets, layers and clips is exactly what it has to ask. `CulledMeaning.dfy` carries
meaning through to the culled dispatch: at every point of the query, what is sent shows what the calls show.

## What was found

Where the code does not do what its surroundings suggest, the model follows the code.

- The analysis of a paint (`GetEffectiveColor`, `PaintResult`) takes an alpha that rounds to zero in eight
  bits for transparent, takes a white paint under `Modulate` for neutral although inverting makes it
  black, and takes an opaque colour source for opaque although, should alpha scale sources, a faded one
  is not. `Blending.NoEffectExact`, `Blending.PreservesExact` and `Blending.ClearExact` prove that these are
  the only gaps. The other way round, it claims an effect in vain only for a colour source that the paint's alpha
  takes away altogether and for an inverted black under `Modulate` (`Blending.AffectsExact`,
  `Blending.EffectExact`). The flag of a built list that says it leaves transparent pixels alone is right if and only if,
  for modes with formulas, nothing directly in the list is in the gap for transparent pixels: no draw, no nested
  list whose own flag is wrong, no layer whose content may be stained (`Transparency.BuiltListsAreHonest`;
  `Transparency.FaintImageIsDishonest` is a run whose flag is wrong).
- A flood under a matrix without inverse is dropped, because the tracker finds no rectangle for it. A draw loses
  its meaning exactly when it shows and is in a gap of the analysis or under such a matrix, a nested list
  exactly in the latter case (`Limits.DrawsAreExact`, `Limits.ListsAreExact`).
- A clip keeps its meaning exactly when both narrowed cull rectangles keep what the clip keeps
  (`Limits.ClipsAreExact`). The clip tracker rounds the hole of an anti-aliased difference, and so can hide up to
  half a pixel that the clip keeps. Meaning is kept for every cull rectangle and continuation if and only if the
  rounding moves no side of the hole outwards, or empties it (`Limits.HolesAreExact`;
  `Limits.RoundedHoleLosesStrip` is a run that loses a draw).
- A layer starts with a cull rectangle of a thousand million units to each side, and one with an image filter
  that has no bounds also on the device; content beyond it is dropped. A layer that shows keeps its meaning if
  and only if what can show of its content lies there and the analysis of its paint is right
  (`Limits.LayersAreExact`; `Limits.FarContentIsLost` is a run in the program's default cull rectangle).
- For most modes an operation could be faded by covering less of its pixels, but only for source-over is that the
  same as fading a layer around it (`GroupOpacity.FadesAsCoverExact`, `GroupOpacity.HandsDownExact`), so the test
  of the blend mode is exact.
- After a reset of the transform under a matrix without inverse, no draw and no nested list is recorded in
  that entry until it is popped, although the matrix since the root is the identity again
  (`Matrices.SingularResetSilences`). It is the one call that breaks the relation between an entry's two
  matrices (`Matrices.StepAligned`), and loses meaning unless nothing can show anyway (`Limits.ResetsAreExact`).
- A flood that the clip or a collapsed matrix swallows still marks its layer as unbounded. Rebuilding a list
  gives the same list but for such marks: it is the identity if and only if each layer with such a mark also
  has one from a flood that was recorded (`Rebuilding.RebuildingIsExact`, with an example in
  `Fixpoint.LostMarksAreNotRebuilt`).
- An image draw does not set the colour source, so a runtime effect left by an earlier draw keeps a layer
  from distributing opacity (`Canvas.StaleSourcesBlockOpacity`).
- Growing the byte store clears as many bytes as it grew by, starting at the first unused one, which is
  all of the unused ones only when the store was full (`Storage.ClearsAllOnlyWhenFull`).
- The damage tracker visits each readback once. A readback can be met only after its turn
  (`DamageTracker.OnePassIsNotEnough`). Whether one pass is enough can be told from the readbacks in their order
  (`DamageTracker.OnePassSufficesIff`); it never damages in vain (`DamageTracker.FrameDamageIsLeast`), and as many
  passes as there are readbacks always suffice (`DamageTracker.ManyPassesSuffice`).
- A pull compares a record's own version with a version of the whole repository. An accepted write is seen
  by a pull from the server version before it if and only if the record's version before it was at least
  that server version, and so over any run (`Sync.WriteIsSeenIff`, `Sync.LaterPullIsExact`); a new record is
  missed (`Sync.LaterPullsMissNewRecords`).
- A repository's counter counts the requests that accepted a write naming it (`Sync.CounterCountsRequests`), the
  versions of its records add up to the writes to them (`Sync.SumCountsWrites`). So the counter is not always
  between the largest version and their sum: it is exactly when the writes balance (`Sync.BoundsAreExact`), and
  one request keeps it there exactly when what it writes fits (`Sync.RequestKeepsBoundsIff`). A batch that names
  another repository, or changes a record twice, can break it.

## Model

| member | source | states |
|---|---|---|
| Meaning.RecordingPreservesMeaning | flutter/engine/src/flutter/display_list/dl_builder.cc:385-633 | for every admissible sequence of calls, with or without invertible transforms and image filters on layers, and under any outer matrix, replaying the built records in the plain interpreter emits the same visible draws, nested lists and layers, in order, each with the same paint, matrix and exact clip, as interpreting the calls, although saves were deferred and calls dropped |
| Meaning.StepKeepsMeaning | flutter/engine/src/flutter/display_list/dl_builder.cc:802-961 | whatever the call, the interpreters of the calls and of the records stay related: same matrices, clips and events, frames of deferred saves merged, and a no-op entry only where nothing can show |
| Meaning.ClipRelated | flutter/engine/src/flutter/display_list/dl_builder.cc:930-961 | if narrowing keeps what the clip keeps: a clip that is dropped as redundant removes no visible point, one that empties the cull leaves nothing to draw, and any other is recorded and seen alike |
| Limits.ProgramPreservesMeaning | flutter/engine/src/flutter/display_list/utils/dl_matrix_clip_tracker.cc:44-112 | the same with the program's own tracker, roundings included: no clip is excluded but an anti-aliased difference with a hole that rounds outwards |
| Limits.DrawsAreExact | flutter/engine/src/flutter/display_list/dl_builder.cc:1973-2052 | after any admissible calls, a draw keeps its meaning for every continuation if and only if it does not show, or the matrix has an inverse and the analysis of its paint is right |
| Limits.ListsAreExact | flutter/engine/src/flutter/display_list/dl_builder.cc:1564-1633 | the same of a nested list: if and only if it does not show or the matrix has an inverse |
| Limits.ResetsAreExact | flutter/engine/src/flutter/display_list/dl_builder.cc:896-921 | the same of a reset of the transform: if and only if the matrix has an inverse or nothing can show |
| Limits.ClipsAreExact | flutter/engine/src/flutter/display_list/dl_builder.cc:930-961 | after any admissible calls, inside layers or not, any clip under a matrix with an inverse keeps its meaning for every continuation if and only if nothing can show, or it is dropped as redundant, or both narrowed cull rectangles keep what the clip keeps |
| Limits.LayersAreExact | flutter/engine/src/flutter/display_list/dl_builder.cc:404-539 | the same of a layer, with an image filter or without, under a matrix with an inverse: if and only if it does not show, or what can show of its content lies in the largest cull rectangle of the layer, and for a filter without bounds in that of the device, and the analysis of its paint is right |
| Limits.FarContentIsLost | flutter/engine/src/flutter/display_list/dl_builder.h:596-603 | in the program's default cull rectangle at half scale, an image beyond the largest cull rectangle is recorded outside a layer and lost in one, though it shows |
| Limits.HolesAreExact | flutter/engine/src/flutter/display_list/utils/dl_matrix_clip_tracker.cc:175-191 | under any transform at the root, cutting out an anti-aliased rectangle keeps meaning for every cull rectangle and every continuation if and only if its rounding on the device moves no side outwards or is empty |
| Limits.RoundedHoleLosesStrip | flutter/engine/src/flutter/display_list/utils/dl_matrix_clip_tracker.cc:181-188 | a run whose list is empty although one draw shows |
| Culling.RunFollows | flutter/engine/src/flutter/display_list/dl_builder.cc:404-539 | over every run the cull rectangles and matrices of every live entry of the save stack are those of a walk that lists the clips since the root, or since the innermost filtered layer, and since the layer began, and narrows by them in order; the rest of the entries are dead |
| Culling.DrawsAreRecordedIff | flutter/engine/src/flutter/display_list/dl_builder.cc:1820-1843 | in every run a draw is recorded if and only if its paint has an effect and its area, on the device and in its layer, meets what those clips leave |
| Culling.ListsAreRecordedIff | flutter/engine/src/flutter/display_list/dl_builder.cc:1564-1605 | the same of a nested list, by its opacity, its emptiness and its areas: the clip, its bounds, or its rectangles that are asked for |
| Culling.TrackersAreExact | flutter/engine/src/flutter/display_list/utils/dl_matrix_clip_tracker.cc:195-212 | what is seen of a rectangle are the points of its image in the cull rectangle, and the local coverage is mapped onto the cull rectangle |
| FilteredLayers.FilteredContentIsKept | flutter/engine/src/flutter/display_list/dl_builder.cc:480-513 | after a saveLayer whose paint has an image filter, and any draws, attributes and transforms, a draw with an effect is recorded if and only if its area meets what the filter can use of the clip around the layer, narrowed by the caller's bounds if there are any, and the largest cull rectangle of the layer |
| FilteredLayers.LayersFloodIff | flutter/engine/src/flutter/display_list/dl_builder.cc:432-471 | a saveLayer notes the whole clip of the layer around it if and only if it has a backdrop or its paint changes pixels that the layer left untouched, by the blend formulas or by its filters |
| Extents.BuiltListsHoldTheirDraws | flutter/engine/src/flutter/display_list/dl_builder.cc:1571-1592 | under any outer matrix, whatever a built list shows at any point lies in the image of its bounds and of its rtree, which is what the recorder assumes of it when it is nested |
| Extents.ShownIsNoted | flutter/engine/src/flutter/display_list/dl_builder.cc:1791-1843 | a draw or nested list that shows at a point notes a rectangle with that point, under the index of its record |
| Rebuilding.RebuildingIsExact | flutter/engine/src/flutter/display_list/dl_builder.cc:63-117 | for every stream without caller bounds: the rebuilt list is the built one but for the unbounded marks, its root mark is that of the floods recorded, and it is the identical list if and only if no layer, the root included, has a mark that only a dropped flood has made |
| Rebuilding.StepAlike | flutter/engine/src/flutter/display_list/dl_builder.cc:404-633 | recorders that differ only in unbounded marks take the same step, so the marks influence nothing else |
| Rebuilding.KeptFollowed | flutter/engine/src/flutter/display_list/dl_builder.cc:590-633 | the recorder of all calls and that of the calls that lose no mark agree, on the records too, until a layer closes that has only a lost mark, and from then on a closed record differs |
| Fixpoint.StepKeepsSame | flutter/engine/src/flutter/display_list/dl_builder.cc:404-633 | the recorder of the calls and the recorder of the records emitted so far stay in the same state but for deferred saves |
| Fixpoint.LostMarksAreNotRebuilt | flutter/engine/src/flutter/display_list/dl_builder.cc:1791-1799 | with a flood that is dropped after it has marked its layer unbounded the rebuilt list differs |
| Transparency.BuiltListsAreHonest | flutter/engine/src/flutter/display_list/dl_builder.cc:404-451 | if a built list says it does not modify transparent black, then compositing all of it, nested layers and lists included, leaves a transparent pixel transparent for all source colours the paints allow and all coverages, if no draw, nested list or restored layer directly in it is in the gap of the analysis; and only then, if the modes of its layers and of its own draws have formulas |
| Transparency.StainsAreExact | flutter/engine/src/flutter/display_list/dl_builder.cc:1973-2052 | for any list, flag or not: it leaves transparent pixels transparent under all colours and coverages if and only if a fold over its records finds no stain on its root |
| Transparency.FaintImageIsDishonest | flutter/engine/src/flutter/display_list/dl_builder.cc:1931-1971 | a run whose list is recorded with the flag off and changes transparent pixels |
| Transparency.DrawStainsIff | flutter/engine/src/flutter/display_list/dl_builder.cc:1973-2052 | a draw that is not judged to affect all pixels can change a transparent one only in the gap, and always there if its mode has a formula |
| Transparency.LayerStainsIff | flutter/engine/src/flutter/display_list/dl_builder.cc:1857-1929 | compositing a layer that is not judged to affect all pixels can change a transparent one only if its paint is in the gap and its content may be stained, and always then if its mode has a formula |
| Blending.NoEffectExact | flutter/engine/src/flutter/display_list/dl_builder.cc:1973-2052 | a paint judged to have no effect leaves every pixel alone under the blend formulas if and only if it is in none of three named gaps |
| Blending.PreservesExact | flutter/engine/src/flutter/display_list/dl_builder.cc:1931-1971 | a paint judged to preserve transparency does so if and only if it is not in one named gap |
| Blending.ClearExact | flutter/engine/src/flutter/display_list/dl_builder.cc:1931-2052 | a paint judged not to affect all pixels leaves a transparent one transparent if and only if it is not in one named gap |
| Blending.AffectsExact | flutter/engine/src/flutter/display_list/dl_builder.cc:1973-2052 | a paint judged to affect all pixels changes a transparent one for some source that it allows, for every mode with a formula, if and only if its colour source is not gone altogether with its alpha |
| Blending.EffectExact | flutter/engine/src/flutter/display_list/dl_builder.cc:1973-2052 | a paint judged to have any effect changes some pixel, for every mode with a formula, if and only if it is in neither of two named gaps |
| Blending.BackgroundExact | flutter/engine/src/flutter/display_list/dl_builder.cc:1857-1929 | with filters that keep black, the blend modes for which a layer is said to leave its surroundings alone are exactly those for which the formulas do |
| Blending.ClearSource | flutter/engine/src/flutter/display_list/dl_blend_mode.h:27-60 | which formulas leave the destination alone for a transparent source |
| Brackets.BuiltListsAreBracketed | flutter/engine/src/flutter/display_list/dl_builder.cc:560-588 | in every built list each save names the index of its matching restore and the depth of exactly what lies between them, nothing is left open, and the total depth is the independent fold over the records |
| Brackets.StepSound | flutter/engine/src/flutter/display_list/dl_builder.cc:37-61 | every call keeps brackets, patched fields and depth right, with any nesting of deferred and real saves open |
| Brackets.PopClose | flutter/engine/src/flutter/display_list/dl_builder.cc:560-588 | patching one save record and appending a restore closes that bracket and disturbs no other |
| Brackets.PairsNest | flutter/engine/src/flutter/display_list/dl_builder.cc:385-393 | two matched pairs are nested or disjoint |
| Counting.NestedCount | flutter/engine/src/flutter/display_list/display_list.h:291-293 | `op_count(true)` is the number of counted operations after inlining every nested list, to any depth |
| Counting.BuiltListsAreWellCounted | flutter/engine/src/flutter/display_list/dl_builder.cc:1606-1622 | every built list, over nested lists that are well counted, is well counted |
| Counting.ExtraNotNegative | flutter/engine/src/flutter/display_list/dl_builder.cc:1566-1622 | the `- 1` per nested list never takes the count below zero, because empty lists are not recorded |
| LayerSummaries.SummariesAreFaithful | flutter/engine/src/flutter/display_list/dl_builder.h:526-566 | in every reachable state each layer's largest blend mode, backdrop, opacity, transparency and self-overlap flags are those that reading the records of that layer gives, its bounds and unbounded flag are those of what was recorded directly in it, and the cached depth cost and compatibility are current; what compatible means is in `GroupOpacity` |
| LayerSummaries.StepFaithful | flutter/engine/src/flutter/display_list/dl_builder.h:732-802 | every call keeps what reading the records gives, through entries that share a layer |
| LayerSummaries.ReachedKnown | flutter/engine/src/flutter/display_list/dl_builder.h:587-603 | in every reachable state, if the top layer allows a group opacity then none of its operations is incompatible or draws over itself, and the bounds of all its draws, nested lists and closed layers are pairwise disjoint |
| Contents.LayersHoldTheirContents | flutter/engine/src/flutter/display_list/dl_builder.h:526-566 | over every run each layer's summary holds the bounds of all that was recorded directly in it, in order: draws, each visible rectangle of nested lists, and closed layers; its overlap flag and its unbounded flag say exactly whether one may draw over itself and whether a flood was recorded, or lost, before it had a clip |
| Contents.RestoreHolds | flutter/engine/src/flutter/display_list/dl_builder.cc:666-762 | closing a layer adds to its parent what its filter makes of its bounds, or the whole clip |
| LayerSummaries.RestoredRecord | flutter/engine/src/flutter/display_list/dl_builder.cc:590-633 | in every run a restored layer's record gets the summary of its content, read and followed: blend mode, backdrop, unbounded flag and bounds, and it says opacity can be distributed exactly if all operations are compatible, none draws over itself and the running overlap test passed, in which case the bounds of its operations are pairwise disjoint |
| LayerSummaries.RestoredBounds | flutter/engine/src/flutter/display_list/dl_builder.cc:600-610 | the bounds of a restored layer's record hold every rectangle drawn into it, or are those clipped by the caller's and flagged so |
| CallerBounds.LayerBoundsAreExact | flutter/engine/src/flutter/display_list/dl_builder.cc:590-615 | in every run a restored layer's record has the bounds of its content within those that its caller gave, and is marked as clipped if and only if these do not hold all of the content |
| LayerSummaries.RecordedDrawsAddBounds | flutter/engine/src/flutter/display_list/dl_builder.cc:1820-1843 | a recorded draw adds exactly its clipped area in layer coordinates, or the clip if the area is unknown |
| LayerSummaries.NoOverlapMeansDisjoint | flutter/engine/src/flutter/display_list/utils/dl_accumulation_rect.cc:31-51 | if no rectangle met the box of those before it, all are pairwise disjoint |
| LayerSummaries.OverlapsAreExact | flutter/engine/src/flutter/display_list/utils/dl_accumulation_rect.cc:31-51 | an overlap is noted if and only if some rectangle meets the box of those before it |
| LayerSummaries.BuiltSummary | flutter/engine/src/flutter/display_list/dl_builder.cc:68-76 | the same for the flags of a built list and its root layer, the unbounded flag and both directions of the group opacity included |
| GroupOpacity.HandsDownExact | flutter/engine/src/flutter/display_list/dl_builder.h:712-720 | fading a layer with one operation in it is the same as fading the operation's source, for all sources, coverages, opacities and pixels, for source-over and the mode that draws nothing, and for no other mode with a formula |
| GroupOpacity.CompatibleExact | flutter/engine/src/flutter/display_list/dl_builder.h:722-728 | a paint is judged compatible if and only if it has no colour filter, inversion or runtime effect and its mode is known to hand an opacity down |
| GroupOpacity.CompatiblePaintsFade | flutter/engine/src/flutter/display_list/dl_builder.h:722-728 | drawing with a compatible paint whose alpha is faded gives the pixel that a faded layer would show |
| GroupOpacity.FadesAsCoverExact | flutter/engine/src/flutter/display_list/dl_builder.h:712-720 | for which modes fading the source is the same as covering less of the pixel; these are more, so it is the layer that decides |
| GroupOpacity.PrimitivesAreExact | flutter/engine/src/flutter/display_list/dl_builder.cc:1076-1727 | for each canvas primitive, when it keeps its layer from handing an opacity down, and that its mode hands it down when it does not |
| GroupOpacity.PrimitivesBlend | flutter/engine/src/flutter/display_list/dl_builder.cc:1084-1094 | each primitive is judged by its own paint or the current one, and notes the mode with which it is composited |
| GroupOpacity.GroupOpacityExact | flutter/engine/src/flutter/display_list/dl_builder.h:556-560 | a layer of source-over operations with an opacity shows at every point what the faded operations show, whatever they draw within their bounds, if and only if no two bounds meet |
| GroupOpacity.RecordsHandDown | flutter/engine/src/flutter/display_list/dl_builder.cc:616-624 | so in every run a restored layer's record that says its opacity can be distributed, and a built list that says so, is right for the operations within the bounds that they noted |
| Matrices.ReachableAligned | flutter/engine/src/flutter/display_list/dl_builder.cc:802-921 | with invertible transforms, in every reachable state each entry's matrix since the root is the matrix at its layer's start composed with its matrix since then |
| Matrices.StepAligned | flutter/engine/src/flutter/display_list/dl_builder.cc:896-921 | a call keeps the relation if and only if it is not a reset under a matrix without inverse |
| Matrices.TransformsMovePoints | flutter/engine/src/flutter/display_list/dl_builder.cc:802-921 | a transform moves the points drawn before all earlier transforms do, and a reset forgets these |
| Matrices.TransformsAreRecordedIff | flutter/engine/src/flutter/display_list/dl_builder.cc:802-894 | a transform is left out if and only if it moves no point, and is otherwise recorded as one that moves all points alike |
| Matrices.SingularResetSilences | flutter/engine/src/flutter/display_list/dl_builder.cc:911-920 | after such a reset, whatever is called until the entry is popped, no draw and no nested list of that entry's layer is recorded |
| Coverage.StepTracked | flutter/engine/src/flutter/display_list/dl_builder.cc:764-793 | the rtree data equals the rectangles followed one by one, in order of their records, split at the layers' start indices: a closing filtered layer makes of each of its rectangles what the parent's cull rectangle leaves of the filter's map of it, or of the cull rectangle itself if there is none |
| FilteredLayers.FilteredRectanglesAreMapped | flutter/engine/src/flutter/display_list/dl_builder.cc:764-793 | in every run, when a filtered layer closes, a rectangle is in the data under an index if and only if it was there outside the layer, or is what the parent's clip leaves, if anything, of the filter's map of a rectangle of the layer under that index |
| FilteredLayers.FilteredBoxesAreMapped | flutter/engine/src/flutter/display_list/dl_builder.cc:713-731 | the same without an rtree, of the box of the layer, the flood of the parent included |
| Coverage.ReachableData | flutter/engine/src/flutter/display_list/dl_builder.cc:692-711 | in every reachable state ids are nondecreasing and below the record count, start indices nest within the data, and each splits it exactly at its layer |
| Coverage.RectanglesAreFollowed | flutter/engine/src/flutter/display_list/dl_builder.cc:666-762 | every rectangle a call adds is still there at the end, mapped by the filter and clipped by the parent of each filtered layer that closed around it, and is gone only if one of them left nothing of it |
| Coverage.RecordedDrawsHaveRectangles | flutter/engine/src/flutter/display_list/dl_builder.cc:1791-1843 | a recorded draw adds one rectangle under the index of its record: its area on the device, clipped |
| Coverage.AdjustKeepsIds | flutter/engine/src/flutter/display_list/dl_builder.cc:764-793 | filtering the rectangles of a layer keeps their ids in order and in range |
| Modes.RTreeModeIsNeutral | flutter/engine/src/flutter/display_list/dl_builder.cc:79-93 | without filtered layers and nested lists, building with and without an rtree gives the same list but for the rtree: same records, counts, depth and bounds |
| Modes.StepAlike | flutter/engine/src/flutter/display_list/dl_builder.cc:666-679 | step by step the boxes of all open layers bound exactly what the rectangles of the other mode bound |
| CulledReplay.RTreeResultsToIndexVector | flutter/engine/src/flutter/display_list/display_list.cc:87-179 | for any well-bracketed records and nondecreasing ids: the output is strictly increasing, has every selected record and no other draw, all attributes up to the last selected record, each save exactly with its restore, and every draw, save, transform and clip kept has the same save stack and paint as in the full replay |
| CulledReplay.NeutralPasses | flutter/engine/src/flutter/display_list/display_list.cc:124-141 | attributes, transforms, clips and draws are taken or left without changing what a level that still holds a selected record has seen |
| CulledReplay.SavePasses | flutter/engine/src/flutter/display_list/display_list.cc:143-161 | a save is needed exactly while the level around it still holds a selected record |
| CulledReplay.RestorePasses | flutter/engine/src/flutter/display_list/display_list.cc:163-173 | a restore always closes the innermost open save, at the index that was expected |
| CulledReplay.DrainOne | flutter/engine/src/flutter/display_list/display_list.cc:100-119 | after the last selected record only the restores of kept saves are taken, innermost first |
| CulledDispatch.GetCulledIndices | flutter/engine/src/flutter/display_list/display_list.cc:367-380 | of the draws exactly those with a rectangle that meets the query, nothing for an empty query, everything without an rtree |
| CulledDispatch.Dispatch | flutter/engine/src/flutter/display_list/display_list.cc:193-207 | what the receiver is sent in each of the three cases |
| CulledDispatch.RecordedDrawsAreFound | flutter/engine/src/flutter/display_list/display_list.cc:193-207 | a draw that was recorded is found by a query if and only if the query meets what the enclosing filters and their parents' clips left of its device bounds |
| CulledDispatch.RecordedRectanglesAreFound | flutter/engine/src/flutter/display_list/display_list.cc:193-207 | the same for the rectangles of whatever is recorded, draws, nested lists, layers that flood and filters that flood their parent: it is found if and only if the query meets what is left of one of them |
| CulledDispatch.BoundsAreTight | flutter/engine/src/flutter/display_list/dl_builder.cc:78-93 | the bounds of a built list are the least rectangle around those in its rtree |
| CulledDispatch.BuiltListsAreReplayable | flutter/engine/src/flutter/display_list/dl_builder.cc:63-117 | every built list is well bracketed with ids in order, so the culled replay is exact on it |
| CulledMeaning.CulledDispatchShowsTheSame | flutter/engine/src/flutter/display_list/display_list.cc:193-207 | from the calls to the culled dispatch: at every point of the query rectangle, under any outer matrix, the records that are sent show the same draws and nested lists in the same order as the calls, each with the same paint, matrix and exact clip and in the same open layers |
| CulledMeaning.SentShowsTheSame | flutter/engine/src/flutter/display_list/display_list.cc:87-179 | record by record: a partial replay with exact views shows at a point what the full replay shows there, if it has every record that shows there |
| Emission.StepEmits | flutter/engine/src/flutter/display_list/dl_builder.cc:37-61 | each call appends a known sequence of records and changes of earlier ones only what restores patch |
| Recorder.FinishIsRun | flutter/engine/src/flutter/display_list/dl_builder.cc:63-66 | finishing a list is a run of restores, one for each open entry |
| Canvas.CanvasDrawsWithItsPaint | flutter/engine/src/flutter/display_list/dl_builder.cc:349-383 | after a canvas call has set its attributes, the verdict on the draw, its area and its blend mode are those of the call's own paint, whatever was set before, and stack, layers and rtree are untouched |
| Canvas.SettingOverlays | flutter/engine/src/flutter/display_list/dl_builder.cc:349-383 | exactly the fields that the operation's flags name are overwritten |
| Canvas.FlagsKinds | flutter/engine/src/flutter/display_list/dl_op_flags.h:246-410 | for every primitive, what the canvas sets is what the operation honours, and one that honours colour also honours the colour source |
| Canvas.AreaCoversStroke | flutter/engine/src/flutter/display_list/dl_builder.cc:1729-1789 | the area of a stroked shape reaches half a stroke beyond it, further for miters and square caps, plus three sigmas of blur |
| Canvas.AreaIsExact | flutter/engine/src/flutter/display_list/dl_builder.cc:1729-1789 | without an image filter the area is the shape's, expanded by exactly the largest of half the stroke, the miter's reach and the square cap's, and by the blur |
| Canvas.AreaIsFiltered | flutter/engine/src/flutter/display_list/dl_builder.cc:1729-1789 | an image filter maps the area that the shape has without it, stroke and blur included |
| Canvas.PrimitiveAreas | flutter/engine/src/flutter/display_list/dl_op_flags.h:280-400 | for each primitive, without an image filter: it floods the clip, or its area is its bounds expanded by exactly the stroke and the blur that a primitive of its kind may have |
| Canvas.ImagesIgnoreColors | flutter/engine/src/flutter/display_list/dl_op_flags.h:266-282 | images and layers are judged by the alpha of a paint, not by its colour or its source |
| Canvas.TransparentPaintsDrawNothing | flutter/engine/src/flutter/display_list/dl_builder.cc:1931-1971 | no primitive that takes a paint, and no layer, has an effect source-over with a transparent one without source and filters |
| Canvas.SourcesAreSet | flutter/engine/src/flutter/display_list/dl_builder.cc:349-383 | a canvas call sets the colour source unless it draws an image or takes no paint |
| Canvas.PrimitivesNote | flutter/engine/src/flutter/display_list/dl_op_records.h:800-812 | a nine-patch image is as deep as its nine parts, other primitives as one, and which of them may draw over themselves |
| Canvas.StaleSourcesBlockOpacity | flutter/engine/src/flutter/display_list/dl_builder.h:718-730 | after an image draw has set its attributes the cached compatibility is that of its paint with the previous colour source |
| ClipTracker.TrackerIsSound | flutter/engine/src/flutter/display_list/utils/dl_matrix_clip_tracker.cc:44-237 | the tracker's code for rectangles, ovals, rounded rectangles and paths, roundings included, meets the contract of the meaning theorem, in any outer coordinates |
| ClipTracker.RoundedHoleIsSafe | flutter/engine/src/flutter/display_list/utils/dl_matrix_clip_tracker.cc:175-191 | a rounded hole hides no point outside the hole, for any cull rectangle, if and only if rounding moves no side outwards or empties it |
| ClipTracker.NarrowingIsConservative | flutter/engine/src/flutter/display_list/utils/dl_matrix_clip_tracker.cc:44-193 | the narrowed cull rectangle keeps every point that the clip keeps, anti-aliased or not, unless a hole rounds outwards |
| ClipTracker.NarrowingIsTight | flutter/engine/src/flutter/display_list/utils/dl_matrix_clip_tracker.cc:150-193 | and no more: intersecting leaves exactly the points of the old cull rectangle in the image of the clip, and cutting out leaves the least rectangle around what is outside the hole |
| ClipTracker.CoveringIsExact | flutter/engine/src/flutter/display_list/utils/dl_matrix_clip_tracker.cc:214-226 | a rectangle is said to cover the cull rectangle if and only if it is not empty and its image holds every point of it |
| Builder.Record | flutter/engine/src/flutter/display_list/dl_builder.cc:63-117 | the object, driven by any calls, returns the list of the state machine |
| Builder.DisplayListBuilder.Push | flutter/engine/src/flutter/display_list/dl_builder.cc:37-61 | appends the record and moves counts, index and depth as the machine does |
| Builder.DisplayListBuilder.CheckForDeferredSave | flutter/engine/src/flutter/display_list/dl_builder.cc:385-393 | pushes the pending save of the top entry, if any, and remembers where and how deep |
| Builder.DisplayListBuilder.SetAttribute | flutter/engine/src/flutter/display_list/dl_builder.h:273-349 | records an attribute only if it changes the paint, and keeps the cached values |
| Builder.DisplayListBuilder.Save | flutter/engine/src/flutter/display_list/dl_builder.cc:395-402 | an entry that shares the layer object of the one below |
| Builder.DisplayListBuilder.SaveLayer | flutter/engine/src/flutter/display_list/dl_builder.cc:404-539 | a nop save or a new layer object, with what the outer layer is told and the cull rectangle that `Culling` and `FilteredLayers` describe |
| Builder.DisplayListBuilder.Restore | flutter/engine/src/flutter/display_list/dl_builder.cc:560-588 | the whole new state of the machine's restore, and the brackets stay sound |
| Builder.DisplayListBuilder.RestoreLayer | flutter/engine/src/flutter/display_list/dl_builder.cc:590-633 | the record is completed from the layer object and the bounds are passed on |
| Builder.DisplayListBuilder.TransferLayerBounds | flutter/engine/src/flutter/display_list/dl_builder.cc:666-762 | the parent's summary and the rtree data become what the machine says, in all four cases, which `FilteredLayers` and `Contents` state by the maps of the filter |
| Builder.DisplayListBuilder.AdjustRTreeRects | flutter/engine/src/flutter/display_list/dl_builder.cc:764-793 | the in-place compaction is an ordered filter-map of the suffix, each rectangle mapped as `FilteredLayers.FilteredRectanglesAreMapped` states, and leaves the prefix alone |
| Builder.DisplayListBuilder.Transform | flutter/engine/src/flutter/display_list/dl_builder.cc:802-928 | identity transforms are dropped, others recorded and applied to both matrices, reset included |
| Builder.DisplayListBuilder.Clip | flutter/engine/src/flutter/display_list/dl_builder.cc:930-961 | the four ways of a clip |
| Builder.DisplayListBuilder.Draw | flutter/engine/src/flutter/display_list/dl_builder.cc:1076-1105 | the verdict, the bounds, the record and the layer summary of a draw |
| Builder.DisplayListBuilder.DrawDisplayList | flutter/engine/src/flutter/display_list/dl_builder.cc:1564-1633 | a nested list with its bounds, depth, count and summary |
| Builder.DisplayListBuilder.AccumulateUnbounded | flutter/engine/src/flutter/display_list/dl_builder.cc:1791-1809 | the clip goes to the box or the rectangles and to the layer, the mark even when nothing does |
| Builder.DisplayListBuilder.AccumulateBounds | flutter/engine/src/flutter/display_list/dl_builder.cc:1820-1843 | the bounds go to the box or the rectangles and to the layer, if something is left of them in both coordinates |
| Builder.DisplayListBuilder.Build | flutter/engine/src/flutter/display_list/dl_builder.cc:63-117 | the list of the finished machine, and the recorder starts afresh |
| Builder.LayerInfo.AccumulateLocal | flutter/engine/src/flutter/display_list/utils/dl_accumulation_rect.cc:31-51 | the box and the overlap flag stay those of the sequence of rectangles so far |
| Storage.DisplayListStorage.Allocate | flutter/engine/src/flutter/display_list/dl_storage.cc:19-37 | the block starts where the last ended, earlier bytes survive, the capacity is the least page multiple strictly above the need if it grew, and exactly the stated bytes are cleared |
| Storage.DisplayListStorage.Realloc | flutter/engine/src/flutter/display_list/dl_storage.cc:13-17 | a new buffer of the given size with the old bytes that fit |
| Storage.DisplayListStorage.MoveFrom | flutter/engine/src/flutter/display_list/dl_storage.cc:39-60 | takes over the buffer and empties the source |
| Storage.BlocksTile | flutter/engine/src/flutter/display_list/dl_storage.cc:33-36 | over any run of allocations every used byte is in exactly one block |
| Storage.CapacitySuffices | flutter/engine/src/flutter/display_list/dl_storage.cc:20-30 | over any run the capacity is whole pages, enough, at most a page more, and never shrinks |
| Storage.PageAboveIsLeast | flutter/engine/src/flutter/display_list/dl_storage.cc:23-24 | the size computed is the least page multiple strictly above the need |
| Storage.MaskRoundsDown | flutter/engine/src/flutter/display_list/dl_storage.cc:21-24 | masking 64-bit sizes with a power-of-two page is rounding down to a page |
| Storage.ClearsAllOnlyWhenFull | flutter/engine/src/flutter/display_list/dl_storage.cc:31 | growth is sure to clear all unused bytes if and only if the buffer was full |
| Comparison.CompareOps | flutter/engine/src/flutter/display_list/display_list.cc:398-461 | true exactly when all types match, every record with its own comparison says equal, and every other record's bytes match |
| Comparison.Equals | flutter/engine/src/flutter/display_list/display_list.cc:463-476 | with the early exits on counts, sizes and identity |
| Comparison.BulkIsEach | flutter/engine/src/flutter/display_list/display_list.cc:437-459 | comparing a run of adjacent records at once is comparing each |
| DiffContext.SubtreeDiscipline | flutter/engine/src/flutter/flow/diff_context.cc:24-45 | over a balanced subtree: its region is exactly what was appended inside, its readback and texture flags say exactly whether one happened inside, and ending it restores states and filters but for texture marks |
| DiffContext.StepConsistent | flutter/engine/src/flutter/flow/diff_context.cc:64-69 | the filter stack always has one filter for each state flagged with one, and regions begin within the list |
| DiffContext.DirtySubtreesAreDamaged | flutter/engine/src/flutter/flow/diff_context.cc:172-190 | everything painted inside a dirty subtree, at any depth, is in the damage; what is painted is stated by `DamageScenes.LayersPaintTheirImages` |
| DamageScenes.RunsFollowScenes | flutter/engine/src/flutter/flow/diff_context.cc:24-69 | over every run, told by a machine of its own that keeps the transforms, culls and filters pushed in the open subtrees: what was appended, in order, and the readbacks, and that a rectangle holds the damage if and only if it holds all that was painted in dirty subtrees and all regions that these had in the last frame |
| DamageScenes.LayersPaintTheirImages | flutter/engine/src/flutter/flow/diff_context.cc:172-190 | in every run a layer appends what the pushed filters, innermost first, make of the image of its bounds under the pushed transforms, or what these snap to, if and only if its unsnapped filtered image meets all the pushed cull rectangles |
| DamageScenes.MapIsImage | flutter/engine/src/flutter/flow/diff_context.cc:139-143 | a rectangle is mapped to exactly the images of its points under the transforms in their order |
| DamageScenes.RetainedRegionIsKept | flutter/engine/src/flutter/flow/diff_context.cc:202-207 | appending the region of a retained layer to a new subtree gives that region back |
| DamageTracker.Tracker.ComputeDamage | flutter/engine/src/flutter/flow/diff_context.cc:104-137 | frame damage lies in buffer damage, both lie in the frame and keep the damage and the accumulated damage within it, and every readback met at its turn is fully covered within the frame |
| DamageTracker.Tracker.AlignRect | flutter/engine/src/flutter/flow/diff_context.cc:80-102 | the aligned rectangle of the specification |
| DamageRects.AlignedIsSmallest | flutter/engine/src/flutter/flow/diff_context.cc:80-102 | that rectangle is the smallest one of the grid that encloses the given one, clipped to the frame |
| DamageTracker.DamageIsSound | flutter/engine/src/flutter/flow/diff_context.h:20-35 | the same promises about the specification, for all damage, readbacks and alignments |
| DamageTracker.OnePassSuffices | flutter/engine/src/flutter/flow/diff_context.cc:110-120 | the single pass leaves no readback half covered if and only if each one that was not met at its turn misses the final damage or is covered by it, and if and only if another pass would add nothing |
| DamageTracker.OnePassSufficesIff | flutter/engine/src/flutter/flow/diff_context.cc:110-120 | the same from the inputs, readback by readback in their order: if and only if each one meets what the damage is at its turn or is not left half painted by the rest |
| DamageTracker.OnePassIsNotEnough | flutter/engine/src/flutter/flow/diff_context.cc:110-120 | and sometimes another pass would |
| DamageTracker.FrameDamageIsLeast | flutter/engine/src/flutter/flow/diff_context.cc:110-120 | the pass damages nothing in vain: its result lies in every rectangle that holds the damage and leaves no readback half painted |
| DamageTracker.DamageIsExact | flutter/engine/src/flutter/flow/diff_context.cc:104-137 | a rectangle holds the damage of the frame, or of the buffer, if and only if it holds that at the start and every readback that is met at its turn |
| DamageTracker.TouchedReadbacksAreCovered | flutter/engine/src/flutter/flow/diff_context.cc:110-120 | a readback is met if and only if the damage at its turn has a point of its paint area or of what it samples, and then all points of both are in the final damage |
| DamageTracker.FinalIsLeast | flutter/engine/src/flutter/flow/diff_context.cc:121-137 | the final damage is the least rectangle of whole pixels, or of the grid, around what of the damage is in the frame, on the grid but where the frame ends |
| DamageTracker.ManyPassesSuffice | flutter/engine/src/flutter/flow/diff_context.cc:110-120 | repeated as often as there are readbacks it always gives the least such rectangle |
| DamageTracker.Tracker.AddLayerBounds | flutter/engine/src/flutter/flow/diff_context.cc:172-190 | culls with the unsnapped transform, then snaps, filters, appends, and adds to the damage of a dirty subtree, as `DamageScenes` states in terms of points |
| DamageTracker.Tracker.MarkSubtreeHasTextureLayer | flutter/engine/src/flutter/flow/diff_context.cc:192-200 | marks the current state and all states around it, and nothing else |
| DamageTracker.Tracker.BeginSubtree | flutter/engine/src/flutter/flow/diff_context.cc:24-36 | the state is saved, and the new one starts at the end of the list without flags |
| DamageTracker.Tracker.EndSubtree | flutter/engine/src/flutter/flow/diff_context.cc:38-45 | the state and the filters from before come back |
| Sync.RunsAreSequential | backend/Aosa.Api/Endpoints/SyncEndpoints.cs:58-120 | over every run the accepted writes to a record have versions 1, 2, 3 and so on without gap or repeat, the request of each but the first named the version before, and the stored version is the last |
| Sync.EachChangeIsJudged | backend/Aosa.Api/Endpoints/SyncEndpoints.cs:69-111 | each change of a batch, over the records as the earlier ones left them: without access it does nothing; with a new id it adds its record at version 1; with the expected version it rewrites blob and time of that record alone and is accepted at the next version; otherwise it is a conflict with the version that is stored and changes no record |
| Sync.AcceptedIff | backend/Aosa.Api/Endpoints/SyncEndpoints.cs:69-111 | a change is accepted if and only if it is permitted and its id is new or its version expected, and in conflict if and only if it is permitted and neither |
| Sync.CreatesAreAnswered | backend/Aosa.Api/Endpoints/OtpEndpoints.cs:36-65 | a create is refused without access, fails if its id is taken, and otherwise adds its record |
| Sync.ChangesAreAnswered | backend/Aosa.Api/Endpoints/OtpEndpoints.cs:67-139 | not found, forbidden, stale with the stored version, or accepted at the next version: each if and only if it has to be |
| Sync.ReadsAreAnswered | backend/Aosa.Api/Endpoints/SyncEndpoints.cs:18-56 | a pull or a status is refused if and only if there is no access; a pull gives exactly the records of the repository above the given version, in order, and both give the repository's counter |
| Sync.AccessIff | backend/Aosa.Api/Endpoints/EndpointHelpers.cs:20-30 | the owner and the members of a repository that exists have access, and nobody else |
| Sync.CounterCountsRequests | backend/Aosa.Api/Endpoints/EndpointHelpers.cs:32-50 | over every run a repository's counter is the number of requests that accepted a write naming it |
| Sync.SumCountsWrites | backend/Aosa.Api/Endpoints/SyncEndpoints.cs:58-120 | over every run the versions of a repository's records add up to the number of accepted writes to them |
| Sync.BoundsAreExact | backend/Aosa.Api/Endpoints/EndpointHelpers.cs:32-50 | a run ends with every counter between the largest version and the sum of versions if and only if no record was written more often than requests named its repository and no repository was named by more requests than there were writes to its records |
| Sync.RequestKeepsBoundsIff | backend/Aosa.Api/Endpoints/SyncEndpoints.cs:58-120 | from bounds that hold, one request, batch or not, keeps them if and only if the writes that it accepts fit, told from the database before it |
| Sync.CountersAreBounded | backend/Aosa.Api/Endpoints/EndpointHelpers.cs:32-50 | over every run in which the writes that each batch accepts name their records' repositories and no record twice, a repository's counter is at least every record version in it and at most their sum |
| Sync.ForeignNamesBreakTheBound | backend/Aosa.Api/Endpoints/SyncEndpoints.cs:69-99 | a change that names another repository breaks the first bound |
| Sync.RepeatedIdsBreakTheBound | backend/Aosa.Api/Endpoints/SyncEndpoints.cs:69-111 | so does a batch that changes a record twice |
| Sync.AcceptedChangeIsLocal | backend/Aosa.Api/Endpoints/OtpEndpoints.cs:67-139 | an accepted update or delete changes the fields it is for, of the one record it names, and moves one counter by one |
| Sync.IdleLeavesNoTrace | backend/Aosa.Api/Endpoints/OtpEndpoints.cs:36-139 | a request that is refused or only reads can be left out of any run: later responses' effects, accepted writes and the final database stay the same |
| Sync.ResponseAccountsForBatch | backend/Aosa.Api/Endpoints/SyncEndpoints.cs:58-120 | every permitted change of a batch is reported once, accepted or in conflict, and exactly the named repositories of accepted ones are bumped |
| Sync.PullIsFilter | backend/Aosa.Api/Endpoints/SyncEndpoints.cs:35-56 | a pull gives exactly the records whose own version is above the given one |
| Sync.PullInOrder | backend/Aosa.Api/Endpoints/SyncEndpoints.cs:43-46 | in the order of their versions |
| Sync.FirstPullIsComplete | backend/Aosa.Api/Endpoints/SyncEndpoints.cs:43-46 | a pull from version 0 misses no record, in any run |
| Sync.WriteIsSeenIff | backend/Aosa.Api/Endpoints/SyncEndpoints.cs:43-54 | an accepted create, update or delete is in the pull from the server version before it if and only if the record's version before it, 0 for a create, was at least that server version |
| Sync.LaterPullIsExact | backend/Aosa.Api/Endpoints/SyncEndpoints.cs:43-54 | over any run: a record is in a pull from the server version of an earlier one if and only if its version then and its accepted writes since are together more than that server version |
| Sync.LaterPullIsCompleteIff | backend/Aosa.Api/Endpoints/SyncEndpoints.cs:43-54 | so such a pull misses nothing written since if and only if that holds of every record written since |
| Sync.LaterPullsMissNewRecords | backend/Aosa.Api/Endpoints/SyncEndpoints.cs:44-54 | a pull from the server version before a creation misses the new record, once that version is at least 1 |
| Sync.Server.PushChanges | backend/Aosa.Api/Endpoints/SyncEndpoints.cs:58-120 | the loop leaves the database and gives the response of the specification, change by change as `Sync.EachChangeIsJudged` states |
| Sync.Server.CreateRecord | backend/Aosa.Api/Endpoints/OtpEndpoints.cs:36-65 | a new record at version 1, or a refusal that saves nothing |
| Sync.Server.UpdateRecord | backend/Aosa.Api/Endpoints/OtpEndpoints.cs:67-103 | not found, forbidden, stale, or accepted, in that order |
| Sync.Server.DeleteRecord | backend/Aosa.Api/Endpoints/OtpEndpoints.cs:105-139 | the same for a delete, which keeps the row |
| Sync.Server.IncrementRepoVersion | backend/Aosa.Api/Endpoints/EndpointHelpers.cs:32-50 | the counter of one repository moves by one, from zero if it has none |

## Left out

- Floating-point rounding, infinities and NaN, rotation, skew and perspective: geometry is exact, over scale-translate matrices; calls with non-finite numbers, which the program ignores, are not calls here.
- The width of counters: operation counts, depths, versions and sizes are unbounded; only the index that stands for "no restore" has its 32-bit value.
- Payloads of images, text, paths, vertices, shadows and effects: an operation carries an opaque payload and the bounds, flags and costs that the recorder asks about.
- Which calls a rounded rectangle or a path is turned into when it is really a rectangle or an oval: the calls of the model are made after that.
- Rounding out of device bounds before and after an image filter is part of the filter's map in the model.
- Nested byte counts, the UI-thread-safety flag and the identity of lists.
- The inside of the rtree and of the merging of its rectangles: a search gives the leaves that meet the query, in order.
- The clip tracker's tests of ovals and rounded rectangles against the corners of the cull rectangle, and the rectangles that it finds safe to cut out of a rounded one: both are parameters with their meaning as contract.
- Geometry helpers that are not in the repository (union, intersection, rounding and cutting out of rectangles) are modelled by what their names and uses say.
- Meaning.RecordingPreservesMeaning: asks for layers without caller bounds, because these drop visible content on purpose; what else it asks for is exact (`Limits.dfy`), but for layers that show under a matrix without inverse, which it excludes. What a filter makes of the content that it reaches is not modelled.
- Extents.BuiltListsHoldTheirDraws: not for runs that give a layer an image filter, which shows content elsewhere than where it is drawn; their rectangles are those of `FilteredLayers.FilteredRectanglesAreMapped`.
- Limits.HolesAreExact: the condition on the hole alone, for rectangles at the root; for any other clip in any other state the exact condition is that of `Limits.ClipsAreExact`, on the narrowed cull rectangles.
- Rebuilding.RebuildingIsExact: not for layers with caller bounds, whose record is overwritten with the bounds of its content when it is restored.
- CulledMeaning.CulledDispatchShowsTheSame: for runs that give no layer an image filter, lists with an rtree and a query that does not cover them; otherwise everything is sent, or nothing for an empty query.
- Modes.RTreeModeIsNeutral: not for filtered layers, whose box is mapped as a whole in one mode and rectangle by rectangle in the other, nor for nested lists, which one mode accumulates by their own rectangles.
- Comparison.Equals: lists of the same sizes are taken to have the same offsets, as the program itself assumes.
- DamageTracker.Tracker.ComputeDamage: an alignment above 1 in one direction and 0 in the other, for which the program divides by zero, is excluded.
- Blend modes without a formula in the enum's documentation are an arbitrary function that leaves the destination alone for a transparent source.
- Sync: deletion of repositories, interleaving inside one request, authentication and the database itself; a create whose key is taken fails and saves nothing.
- Tracing, statistics, the paint region maps of layers, and the partial-repaint ratio of the damage tracker.
