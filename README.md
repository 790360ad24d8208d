# Rerun: video chunk inspection, mesh batching and draw-phase collection in Dafny

This project models four pieces of the Rerun viewer and proves properties of the model.

- **Video chunk inspection** (`frame_inspection.dfy`, module `FrameInspection`).
  - `inspect_video_chunk` refuses every codec except H.264.
  - For H.264, the sample is pushed into an Annex B reader in windows of at most 256 bytes.
  - The reader's NAL handler (`H264InspectionState::nal`) keeps three things: the outcome of the last complete SPS, whether an IDR slice was seen, and the number of slices.
  - The final match turns these into "start of GOP" / "not a start", plus the frame count, or into the SPS error.
- **Draw-phase collection** (`draw_phase_manager.dfy`, module `DrawPhases`).
  - `DrawPhaseManager` keeps a fixed-size array with one drawable list per render phase, plus the draw data added so far.
  - A `DrawableCollector` appends a draw data's drawables to the lists of the phases that are both requested and active.
  - Each drawable is tagged with the draw data's index.
- **Mesh rendering** (`mesh_renderer.dfy`, module `MeshRenderer`).
  - `MeshDrawData::new` groups instances by mesh in ascending mesh order and stages each group outlined-first into one instance buffer. It makes one batch per mesh and decides its draw phases.
  - `collect_drawables` reports one drawable per batch.
  - `MeshRenderer::draw` chooses per phase:
    - the pipeline;
    - the instance range (only the outlined prefix for the outline mask);
    - which materials are drawn, transparent ones twice with front-face then back-face culling.
- **Colour iteration of the custom visualizer example** (`custom_visualizer.dfy`, module `CustomVisualizer`).
  - `clamped_or` yields the values and then repeats the last one, or a fallback when there are none.
  - Zipping it with the positions gives one colour per instance.

`common.dfy` (module `Common`) holds `byte`, `Option`, `Result` and the `as u32` cast.

Imperative code stays imperative, and each method is proved against a pure specification function:
- the NAL handler, the reader, the window loop, the manager and the collector are classes or methods with loops;
- `H264InspectionState::nal` equals one `Step` of the fold `FoldNals`;
- the batching loop of `MeshDrawData::new` builds exactly `MeshDrawDataOf(instances)`;
- the draw loop issues exactly `DrawCalls(phase, instructions)`.

The properties the source promises are lemmas about those functions.

Foreign code is modelled as parameters:
- The Annex B splitter of the `h264_reader` crate is a function `Splitter` from the pushed bytes to the NAL deliveries it makes to the handler.
- SPS decoding (`SeqParameterSet::from_bits` and `encoding_details_from_h264_sps`) is a function `SpsDecoder` returning the details or the debug text of the error.
- The NAL header follows section 7.3.1 of ITU-T H.264:
  - the header parses unless forbidden_zero_bit (bit 7) is set;
  - the unit type is the low five bits;
  - the types are taken from Table 7-1: 7 SPS, 5 IDR slice, 1 non-IDR slice.

## Model

| member | source | states |
|---|---|---|
| FrameInspection.ParseNalHeader | crates/utils/re_video/src/decode/frame_inspection.rs:91-93 | A header byte parses iff its forbidden_zero_bit is clear, and the parsed header keeps the byte. |
| FrameInspection.H264InspectionState.constructor | crates/utils/re_video/src/decode/frame_inspection.rs:82-87 | The derived default handler: no SPS outcome, no IDR slice, zero frames. |
| FrameInspection.H264InspectionState.Nal | crates/utils/re_video/src/decode/frame_inspection.rs:90-137 | The new fields are one step of the fold, and the returned interest is that step's. The frame count never decreases. `Buffer` leaves every field unchanged. |
| FrameInspection.InertUnitIgnored | crates/utils/re_video/src/decode/frame_inspection.rs:91-135 | A unit whose header fails to parse, or whose type is not SPS or slice, is ignored and changes nothing. |
| FrameInspection.BufferOnlyForIncompleteSps | crates/utils/re_video/src/decode/frame_inspection.rs:97-101 | The handler asks to buffer exactly for an incomplete SPS, and then keeps its state. |
| FrameInspection.PartialSpsDeliveriesDeferred | crates/utils/re_video/src/decode/frame_inspection.rs:97-101 | Any number of partial SPS deliveries before a unit leave the same state as that unit alone. |
| FrameInspection.PartialSpsDeliveriesAnywhere | crates/utils/re_video/src/decode/frame_inspection.rs:97-101 | Incomplete SPS deliveries anywhere among the deliveries leave the final state as it would be without them. |
| FrameInspection.LastCompleteSpsWins | crates/utils/re_video/src/decode/frame_inspection.rs:103-119 | After a complete SPS followed only by non-SPS-complete units, the stored outcome is that SPS's, whatever came before. |
| FrameInspection.LastSpsFrom | crates/utils/re_video/src/decode/frame_inspection.rs:97-119 | A stored SPS outcome always comes from some complete SPS delivery. |
| FrameInspection.SpsCommutesWithOtherUnits | crates/utils/re_video/src/decode/frame_inspection.rs:96-133 | Swapping a complete SPS with an adjacent non-SPS unit does not change the final state. |
| FrameInspection.FoldNalsCharacterized | crates/utils/re_video/src/decode/frame_inspection.rs:89-137 | Folding the handler over deliveries gives the last complete SPS outcome (or the old one), "old flag or some IDR slice", and old count plus the number of slices. |
| FrameInspection.SliceCountAppend | crates/utils/re_video/src/decode/frame_inspection.rs:124-133 | Frame counts add up over concatenated deliveries: each slice adds exactly one. |
| FrameInspection.AnnexBReader.Accumulate | crates/utils/re_video/src/decode/frame_inspection.rs:144 | `AnnexBReader::accumulate` holds the given handler, has seen no bytes and has logged no pushes. |
| FrameInspection.AnnexBReader.Push | crates/utils/re_video/src/decode/frame_inspection.rs:151 | Pushing appends the window to the bytes the reader has seen, and logs it as one more push. |
| FrameInspection.AnnexBReader.IntoNalHandler | crates/utils/re_video/src/decode/frame_inspection.rs:155 | The returned handler is the reader's own, and its state is the fold over the splitter's deliveries for all pushed bytes. |
| FrameInspection.PushInWindows | crates/utils/re_video/src/decode/frame_inspection.rs:146-153 | The push loop feeds the whole sample to the reader. Its log of pushes is the returned windows: they concatenate to the sample, each is 1 to 256 bytes, and all but the last are exactly 256. |
| FrameInspection.InspectH264AnnexbSample | crates/utils/re_video/src/decode/frame_inspection.rs:141-181 | The result is the assembled fold over the sample's deliveries. The windows, the reader's log of pushes, concatenate to the sample; each is 1 to 256 bytes, and all but the last are exactly 256. |
| FrameInspection.InspectVideoChunk | crates/utils/re_video/src/decode/frame_inspection.rs:68-80 | H.265, AV1, VP8 and VP9 give `UnsupportedCodec(codec)` without inspecting. H.264 gives the Annex B inspection. |
| FrameInspection.InspectionCharacterized | crates/utils/re_video/src/decode/frame_inspection.rs:157-180 | The result case by case on the last complete SPS. A failed one is the error with its message. A decoded one is "start of GOP" iff an IDR slice was seen. None is "not a start". Both successes report the slice count. |
| FrameInspection.SuccessCountsSlices | crates/utils/re_video/src/decode/frame_inspection.rs:124-180 | A successful inspection reports `Some(k)` frames, k being the number of IDR and non-IDR slices. |
| FrameInspection.StartOfGopIff | crates/utils/re_video/src/decode/frame_inspection.rs:157-168 | The result is `StartOfGop(details)` iff the last complete SPS decoded to `details` and an IDR slice was seen. |
| FrameInspection.FailureIffLastSpsFailed | crates/utils/re_video/src/decode/frame_inspection.rs:117-173 | The inspection fails iff the last complete SPS failed to decode, whatever slices came with it. The message is "Failed reading SPS: " followed by the decoder's text for some complete SPS. |
| FrameInspection.TestHeaderBytes | crates/utils/re_video/src/decode/frame_inspection.rs:214-256 | The test header bytes 0x67, 0x65 and 0x61 select SPS, IDR slice and non-IDR slice. |
| FrameInspection.SpsAndIdrStartGop | crates/utils/re_video/src/decode/frame_inspection.rs:188-256 | An SPS and an IDR slice are a start of GOP with 1 frame. With a further non-IDR slice there are 2 frames. |
| FrameInspection.BrokenSpsFails | crates/utils/re_video/src/decode/frame_inspection.rs:214-229 | A broken SPS followed by a valid IDR slice fails with the decoder's message behind the "Failed reading SPS: " prefix. |
| FrameInspection.TwoNonIdrSlices | crates/utils/re_video/src/decode/frame_inspection.rs:258-274 | Two non-IDR slices without SPS: not a start, 2 frames. |
| FrameInspection.NoSliceNoStart | crates/utils/re_video/src/decode/frame_inspection.rs:276-300 | An SPS alone, complete or not, and bytes with no NAL units: not a start, 0 frames. |
| Common.AsU32 | crates/viewer/re_renderer/src/draw_phase_manager.rs:53 | The `as u32` cast keeps values below 2^32 and always yields a u32. |
| DrawPhases.PhaseIndex | crates/viewer/re_renderer/src/draw_phase_manager.rs:124 | Every phase has an index below `VARIANT_COUNT` that maps back to it, so each phase has its own slot. |
| DrawPhases.Tag | crates/viewer/re_renderer/src/draw_phase_manager.rs:125-128 | Tagging keeps the drawables in order, each carrying the draw data index. |
| DrawPhases.DrawPhaseManager.constructor | crates/viewer/re_renderer/src/draw_phase_manager.rs:40-46 | A new manager has the given active phases, one empty list per phase and no draw data. |
| DrawPhases.DrawPhaseManager.AddDrawData | crates/viewer/re_renderer/src/draw_phase_manager.rs:48-61 | The draw data's collected requests are applied under its future index (the current count, cast to u32). Then the draw data is appended. |
| DrawPhases.ApplyRequestsPerPhase | crates/viewer/re_renderer/src/draw_phase_manager.rs:109-131 | Per phase, an active phase's list grows by exactly what was requested for it, in order. An inactive phase's list is unchanged. |
| DrawPhases.InactiveRequestIsNoOp | crates/viewer/re_renderer/src/draw_phase_manager.rs:105-121 | A request only for inactive phases changes no list. |
| DrawPhases.RestrictingToActivePhasesChangesNothing | crates/viewer/re_renderer/src/draw_phase_manager.rs:145-151 | Narrowing each request to `active_phases()` first leaves every list as it would have been: consulting the active phases only saves work. |
| DrawPhases.DrawableCollector.constructor | crates/viewer/re_renderer/src/draw_phase_manager.rs:98-103 | The collector refers to the manager and the draw data index it was given. |
| DrawPhases.DrawableCollector.AddDrawables | crates/viewer/re_renderer/src/draw_phase_manager.rs:105-131 | Appends the tagged drawables to the list of every phase that is both requested and active, and leaves the other lists alone. |
| DrawPhases.DrawableCollector.AddDrawable | crates/viewer/re_renderer/src/draw_phase_manager.rs:133-143 | The same as `AddDrawables` with the one-element slice. |
| DrawPhases.DrawableCollector.ActivePhases | crates/viewer/re_renderer/src/draw_phase_manager.rs:145-151 | The phases the collector honours are the manager's active phases; that a draw data may skip the others is `RestrictingToActivePhasesChangesNothing`. |
| MeshRenderer.PackOutlineMask | crates/viewer/re_renderer/src/renderer/mesh_renderer.rs:290-293 | The four outline bytes are the two mask ids followed by two zeros, or four zeros without a mask. |
| MeshRenderer.SortedKeysAscending | crates/viewer/re_renderer/src/renderer/mesh_renderer.rs:207-234 | The map is visited with every mesh key exactly once, in strictly ascending order. |
| MeshRenderer.GroupByMeshIsPartition | crates/viewer/re_renderer/src/renderer/mesh_renderer.rs:212-220 | The grouping has one entry per mesh of the input. Each entry is non-empty and holds that mesh's instances in input order. |
| MeshRenderer.OutlinedFirstIsSortedPermutation | crates/viewer/re_renderer/src/renderer/mesh_renderer.rs:238-243 | The stable sort by "has no outline" rearranges the group so that exactly its first `NumOutlined` instances are outlined. |
| MeshRenderer.NumOutlinedOfSorted | crates/viewer/re_renderer/src/renderer/mesh_renderer.rs:259-261 | Counting outlined instances of a group whose first n are exactly the outlined ones gives n. |
| MeshRenderer.TransparencyFlags | crates/viewer/re_renderer/src/renderer/mesh_renderer.rs:250-257 | The `any` and `all` folds over the materials' transparency agree with their quantified meaning. |
| MeshRenderer.BatchPhasesMembership | crates/viewer/re_renderer/src/renderer/mesh_renderer.rs:298-307 | A batch is always drawn in the picking phase. It is in the outline mask phase iff something is outlined, Transparent iff some material is transparent, Opaque iff some material is not. There are no other phases. |
| MeshRenderer.NewMeshDrawData | crates/viewer/re_renderer/src/renderer/mesh_renderer.rs:179-335 | `MeshDrawData::new` builds exactly `MeshDrawDataOf(instances)`: no buffer and no batches for no instances, else grouping, ordered layout and batches. |
| MeshRenderer.LayOutBatches | crates/viewer/re_renderer/src/renderer/mesh_renderer.rs:222-323 | The batching loop over the ordered map yields the batches, the staged buffer and the instance count of the layout in ascending mesh order. |
| MeshRenderer.AppendBatch | crates/viewer/re_renderer/src/renderer/mesh_renderer.rs:245-321 | One mesh's turn: its group is staged at the end of the buffer, its batch appended, and the count advanced by the group's size. |
| MeshRenderer.StageInstances | crates/viewer/re_renderer/src/renderer/mesh_renderer.rs:259-296 | The inner loop packs every instance of the group, in order, at the end of the staging buffer. It counts the instances and the outlined ones. |
| MeshRenderer.PhasesOfBatch | crates/viewer/re_renderer/src/renderer/mesh_renderer.rs:250-307 | The phase set built by the `if` chain is `BatchPhases` of "any outlined" and the materials. |
| MeshRenderer.LayoutTiles | crates/viewer/re_renderer/src/renderer/mesh_renderer.rs:312-321 | One batch per visited mesh. The batch ranges tile the buffer from 0 without gaps, and each outlined end lies within its range. |
| MeshRenderer.LayoutPlaced | crates/viewer/re_renderer/src/renderer/mesh_renderer.rs:238-321 | Each batch covers exactly its mesh's group laid out outlined-first, at its range in the instance order. |
| MeshRenderer.LayoutPermutes | crates/viewer/re_renderer/src/renderer/mesh_renderer.rs:213-234 | Visiting distinct meshes in ascending order rearranges exactly the instances of those meshes. |
| MeshRenderer.LayoutIsPermutation | crates/viewer/re_renderer/src/renderer/mesh_renderer.rs:233-323 | The whole layout is a permutation of the input instances, which is why the final count equals `instances.len()`. |
| MeshRenderer.MeshDrawDataShape | crates/viewer/re_renderer/src/renderer/mesh_renderer.rs:195-323 | For non-empty input: a buffer of exactly as many elements as there are instances holding a rearrangement of the input, one batch per mesh, and batches tiling the buffer. |
| MeshRenderer.MeshDrawDataBatch | crates/viewer/re_renderer/src/renderer/mesh_renderer.rs:234-321 | Batch i belongs to the i-th mesh in ascending order. It has that mesh's instance count and outlined count, the phases those call for, and a buffer slice holding exactly that mesh's instances packed outlined-first. |
| MeshRenderer.MeshDrawDataBatches | crates/viewer/re_renderer/src/renderer/mesh_renderer.rs:234-321 | The same, for every batch at once. |
| MeshRenderer.EmptyInstancesDrawNothing | crates/viewer/re_renderer/src/renderer/mesh_renderer.rs:185-190 | No instances give no instance buffer and no batches. |
| MeshRenderer.CollectDrawables | crates/viewer/re_renderer/src/renderer/mesh_renderer.rs:123-139 | The manager's lists become the result of one `add_drawable` per batch, in batch order, with the batch's phases, the `f32::MAX` sort key and the batch index as payload. |
| MeshRenderer.MeshDrawablesPerPhase | crates/viewer/re_renderer/src/renderer/mesh_renderer.rs:130-138 | Per phase, the mesh draw data requests exactly one drawable per batch drawn in that phase, in batch order, with payload the batch's index. |
| MeshRenderer.CollectedPayloadsInRange | crates/viewer/re_renderer/src/renderer/mesh_renderer.rs:130-138 | Every drawable a mesh draw data collects, in any phase, carries a payload below its number of batches, so `draw` can look the batch up. |
| MeshRenderer.DrawBatch | crates/viewer/re_renderer/src/renderer/mesh_renderer.rs:554-586 | The draws of one batch are exactly `MaterialCalls`. Outside the transparent phase the pipeline is left as it was. |
| MeshRenderer.DrawInstructionDrawables | crates/viewer/re_renderer/src/renderer/mesh_renderer.rs:523-587 | The draws for an instruction's drawables are the batch draws of each drawable's payload, in order. |
| MeshRenderer.Draw | crates/viewer/re_renderer/src/renderer/mesh_renderer.rs:492-590 | The draw calls issued in a mesh phase are exactly `DrawCalls`. An instruction without an instance buffer is skipped. The transparent phase has no fixed pipeline. |
| MeshRenderer.MaterialCallsCount | crates/viewer/re_renderer/src/renderer/mesh_renderer.rs:561-585 | A batch makes two draws per transparent material in the transparent phase, one per non-transparent material in the opaque phase, and one per material otherwise. |
| MeshRenderer.MaterialCallsTargets | crates/viewer/re_renderer/src/renderer/mesh_renderer.rs:501-585 | Every draw is of the batch's mesh, over the phase's instance range (the outlined prefix for the outline mask), with one of its materials. Opaque draws only non-transparent materials, shaded. The outline mask and picking phases use their own pipelines. |
| MeshRenderer.TransparentCallsPaired | crates/viewer/re_renderer/src/renderer/mesh_renderer.rs:571-582 | The transparent phase draws transparent materials only, each as two consecutive draws: front faces culled first, then back faces. |
| CustomVisualizer.ClampedOr | examples/rust/custom_visualizer/src/custom_visualizer.rs:27-33 | The i-th element the iterator yields is `values[i]` while values remain, then the last value forever, or `if_empty` forever for an empty slice. |
| CustomVisualizer.NthSkips | examples/rust/custom_visualizer/src/custom_visualizer.rs:33 | After skipping ahead, the chain yields the remaining values and then the repeated element forever. |
| CustomVisualizer.ZipEnumerateIndexed | examples/rust/custom_visualizer/src/custom_visualizer.rs:86-87 | The zip never runs out of colours: it yields exactly one triple per position, numbered from the start index, with the k-th position and the k-th colour. |
| CustomVisualizer.InstanceColors | examples/rust/custom_visualizer/src/custom_visualizer.rs:82-90 | Instance k gets index k, the k-th position and the k-th colour. That colour is the chunk's k-th colour, else its last one, else the fallback. |

## Left out

- The `h264_reader` internals are parameters, not modelled. This covers Annex B start-code scanning, RBSP emulation-prevention removal and `SeqParameterSet::from_bits` with `encoding_details_from_h264_sps`. The splitter is a function of all bytes pushed so far, and the reader runs the handler when `into_nal_handler` is called. The real reader re-delivers a unit that straddles a push boundary as incomplete units for as long as the handler answers `Buffer`, and stops once it answers `Ignore`; that re-delivery protocol is not modelled, and `IntoNalHandler` discards the handler's answers. What makes the result independent of the windowing on the handler side is proved: incomplete SPS deliveries leave no trace wherever they fall (`PartialSpsDeliveriesAnywhere`); a slice is answered `Ignore` on its first delivery, so the reader hands it over, and it is counted, once.
- The `NalHeaderError` variant is never produced by the inspection path (a bad header is ignored). The hand-written `PartialEq` of the error type is not modelled; Dafny's equality is used instead.
- The `re_log::trace!` call in the handler has no effect on the result and is left out.
- FrameInspection.H264InspectionState.Nal: `num_frames_detected += 1` on a `usize` is unbounded here; overflow would need 2^64 slices, or 2^32 on 32-bit targets such as wasm32.
- MeshRenderer.StageInstances: the `u32` counters `count` and `count_with_outlines`, and `num_processed_instances`, are unbounded here; the source would overflow beyond 2^32 instances.
- MeshRenderer.NewMeshDrawData: the GPU buffer allocation, the staging belt, `copy_to_buffer` and their errors (`CpuWriteGpuReadError`) are left out. The instance buffer is the sequence of staged elements.
- MeshRenderer.PackInstance: the normal matrix (the inverse-transpose of the 3x3 part, or zero when the determinant is 0) is floating-point work and is not part of the packed element. The transform rows are kept as given.
- Mesh identity: meshes are keyed by a number standing for the address of their shared allocation. The batch order (ascending key) follows from that, but the addresses themselves are not modelled.
- MeshRenderer.LayOutBatches, MeshRenderer.AppendBatch, MeshRenderer.StageInstances and MeshRenderer.PhasesOfBatch are parts of the one Rust function `MeshDrawData::new`, split into methods so that each loop is verified on its own.
- FrameInspection.PushInWindows is the push loop of `inspect_h264_annexb_sample`, split out likewise.
- MeshRenderer.DrawBatch and MeshRenderer.DrawInstructionDrawables are the two inner loops of `MeshRenderer::draw`, likewise split out.
- MeshRenderer.Draw: the render pass is the sequence of draw calls. Vertex and index buffer bindings, bind groups and pipeline lookups (and their `DrawError`) are left out. The `unreachable!` for phases the renderer does not subscribe to is a precondition. The debug assertion that an instance range is non-empty is not modelled.
- MeshRenderer.Draw: a payload that does not index a batch would panic in the source; the model requires in-range payloads (`AllPayloadsInRange`). `CollectedPayloadsInRange` proves that every drawable a mesh draw data collects has such a payload.
- `DrawPhaseManager::draw` is not modelled: it only loops over the draw data calling each renderer's `draw` and logs failures.
- The declaration of `DrawPhase` lies in another file. Its variants and their order are taken as Opaque, Background, OutlineMask, PickingLayer, Transparent, Compositing, CompositingScreenshot; only the fact that each phase has its own slot is used.
- CustomVisualizer: only `clamped_or` and the zip/enumerate over positions are modelled. The visualizer's queries, transforms, fallback colour choice and `draw_data.add` are left out, as is the `as u64` cast of the instance index, which cannot overflow.
- The remaining files of the repository (the h264 SPS mapping, the custom renderer and archetypes, GPU resource pools) are not part of this model.
