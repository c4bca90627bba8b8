# A verified model of the WebGPU driver behind the Ultralight bindings

The engine does not touch the GPU itself. It calls back into an embedder-supplied
GPU driver. That driver issues ids, keeps textures, render buffers and geometries
in id-keyed tables, and translates each command list into encoded GPU work. This
project models that driver, `WebGpuDriver` in `examples/wgpu.rs`, as a functional
state machine and proves properties of it in Dafny 4.11.

- `base.dfy` (`Base`): `u32`, bytes, `Option`, and the `Result` type with which
  every operation reports the panic that would abort the process. It also defines
  checked `u32` addition and multiplication (debug-build overflow panics).
- `resources.dfy` (`Resources`): bitmaps, textures, render buffers and geometries.
  It also holds the client-side upload preparation: A8-to-BGRA expansion and row
  strides.
- `vertex_layouts.dfy` (`VertexLayouts`): the two fixed vertex layouts and what
  "packed" means for them.
- `uniforms.dfy` (`Uniforms`): the layout of the per-draw uniform block.
- `pipeline.dfy` (`Pipeline`): shader pairs, blend state, bindings, and the
  abstract log of encoded work (`Clear` / `Draw`). It also says which draws
  survive a clear.
- `driver.dfy` (`Driver`): the driver state and the eleven resource entry points.
- `commands.dfy` (`Commands`): command-list translation, as a fold producing one
  encoded operation per command and one command buffer per list.
- `facade.dfy` (`Facade`): one `Call` per `GpuDriver` trait method, `Dispatch`, and
  `Run` over a sequence of calls. It also proves that texture and geometry ids
  strictly increase.
- `render_buffer_ids.dfy` (`RenderBufferIds`): the render-buffer free list, its
  drain order, and an allocator-soundness invariant kept by every call.
- `scenarios.dfy` (`Scenarios`): an end-to-end run from construction to one pooled
  command buffer, plus a clear/draw/clear/draw list.

A panic in the source (`unwrap` on a missing key, `unreachable!`, `assert!`,
`u32` overflow) is a `Fatal(reason)` result. A fatal `update_command_list`
leaves the pool unchanged, because the source panics before it pushes the
finished buffer.

The model follows the code as written, including these behaviours:

- `create_texture`, `create_render_buffer` and `create_geometry` insert and
  silently overwrite. There is no double-create check (examples/wgpu.rs:203, 272,
  303-304).
- Render-buffer ids start at 0. Texture and geometry ids start at 1.
- The free list is drained by `swap_remove(0)`. The first freed id comes out
  first, then the rest newest first (`DrainIsHeadThenReverse`).
- Id allocation can fail. `next_*_id` panics when its counter is `u32::MAX`
  (debug arithmetic); for render buffers only when the free list is empty,
  since a freed id is reissued without touching the counter.
- `destroy_render_buffer` frees the id even when it is not live. An id destroyed
  twice is therefore issued twice (`DoubleDestroyReissuesId`). The invariant
  `Sound` holds only for callers that destroy live ids (`Respects`).
- `update_texture` reads the bitmap's row stride (`row_bytes`) and never uses it.
  It reads `width * height * bpp` contiguous bytes and uploads them with stride
  `width * bpp`, or `width * 4` after A8 expansion.

## Model

| member | source | states |
|---|---|---|
| Driver.NextTextureId | examples/wgpu.rs:165-169 | returns the counter and leaves it one higher, nothing else changes; panics with overflow exactly when the counter is `u32::MAX` |
| Driver.FirstIdsFromNew | examples/wgpu.rs:141-151 | a freshly constructed driver has empty tables, free list, pipeline cache and pool, and its first ids are texture 1, render buffer 0 and geometry 1 |
| Driver.NextGeometryId | examples/wgpu.rs:275-279 | returns the geometry counter and leaves it one higher, nothing else changes; overflow panic exactly at `u32::MAX` |
| Facade.IssuedIdsIncrease | examples/wgpu.rs:165-169 | over any run of engine calls, the texture ids (and likewise the geometry ids) handed out strictly increase and lie between the counter before and after the run, so none is ever reused |
| Driver.SwapRemoveFront | examples/wgpu.rs:263 | `swap_remove(0)` shortens the list by one and removes exactly one occurrence of its first element from the multiset |
| Driver.NextRenderBufferId | examples/wgpu.rs:261-269 | with a non-empty free list: returns `free[0]`, removes exactly that id from the free list's multiset, counter untouched; with an empty list: returns the counter and increments it, free list untouched |
| Driver.DestroyRenderBuffer | examples/wgpu.rs:726-729 | removes only that table entry and appends the id to the free list, live or not |
| RenderBufferIds.ReuseAfterDestroy | examples/wgpu.rs:726-729 | after destroying a render buffer with no other freed ids pending, the next allocation returns that id and does not move the counter |
| RenderBufferIds.DoubleDestroyReissuesId | examples/wgpu.rs:726-729 | destroying an id twice makes the next two allocations both return it |
| RenderBufferIds.DrainIsHeadThenReverse | examples/wgpu.rs:261-264 | repeated allocation from the free list yields `free[0]`, then the remaining ids newest first |
| RenderBufferIds.DrainIsPermutation | examples/wgpu.rs:261-264 | draining the free list issues every freed id exactly as many times as it was freed |
| RenderBufferIds.AllocationDrainsFreeList | examples/wgpu.rs:261-269 | as many allocations as there are freed ids all succeed, return only freed ids in drain order, leave the counter and tables as they were, and empty the free list |
| RenderBufferIds.SoundInitially | examples/wgpu.rs:141-157 | a new driver satisfies the allocator invariant: no duplicate free ids, no free id live, every free or live id below the counter |
| RenderBufferIds.NextRenderBufferIdKeepsSound | examples/wgpu.rs:261-269 | allocation keeps the invariant and the issued id is neither live nor still free |
| RenderBufferIds.DestroyRenderBufferKeepsSound | examples/wgpu.rs:726-729 | destroying a live render buffer keeps the invariant |
| RenderBufferIds.CreateRenderBufferKeepsSound | examples/wgpu.rs:271-273 | creating an issued, non-free id keeps the invariant |
| RenderBufferIds.DispatchKeepsSound | src/gpu_driver.rs:74-92 | every trait call made under the protocol keeps the invariant; an issued render-buffer id is never live and never still free |
| RenderBufferIds.RunKeepsSound | src/gpu_driver.rs:74-92 | the invariant holds after any run of calls that follows the protocol |
| Driver.CreateRenderBuffer | examples/wgpu.rs:271-273 | stores the descriptor under the id (overwriting), every other entry and all other state unchanged |
| Driver.CreateTexture | examples/wgpu.rs:171-207 | unknown format is fatal; A8 becomes `Bgra8Unorm`, BGRA8 sRGB stays `Bgra8UnormSrgb`; an empty bitmap gets render-attachment usage and no upload; a non-empty one gets binding/copy usage and exactly the prepared upload; other textures and all other state unchanged |
| Driver.UpdateTexture | examples/wgpu.rs:209-259 | missing id, size overflow and size mismatch are fatal in that order; it succeeds exactly when the id is live, the sizes match and the upload fits in `u32`; on success only that texture's contents change, to the prepared upload |
| Resources.PrepareUpload | examples/wgpu.rs:212-235 | succeeds exactly when `w*h`, `w*h*bpp` and the row stride fit in `u32`; A8 data is four times the `w*h*bpp` bytes read, with byte `j` equal to input byte `j/4` and stride `4w`; other formats upload the first `w*h*bpp` bytes unchanged with stride `w*bpp`; rows per image is the height |
| Resources.TextureFormatFor | examples/wgpu.rs:183-189 | only the engine's two bitmap formats have a GPU format, any other is fatal; neither maps to the placeholder's `R8Unorm`, and exactly the sRGB bitmap format maps to the sRGB texture format |
| Resources.UsageFor | examples/wgpu.rs:190-196 | every texture can be sampled and written to; exactly the textures for empty bitmaps (render targets) are render attachments |
| Resources.ExpandA8 | examples/wgpu.rs:227-231 | output is four times as long and byte `j` is input byte `j/4` |
| Resources.ExpandA8Pixels | examples/wgpu.rs:227-231 | output pixel `i` is four copies of input byte `i` |
| Resources.CollapseExpandA8 | examples/wgpu.rs:227-231 | the expansion is lossless: keeping the first channel of each pixel gives back the input |
| Driver.DestroyTexture | examples/wgpu.rs:722-724 | removes only that key; all other textures and state unchanged |
| Driver.CreateGeometry | examples/wgpu.rs:281-305 | stores (vertex bytes, format, index bytes) under the id (overwriting), everything else unchanged |
| Driver.UpdateGeometry | examples/wgpu.rs:307-330 | succeeds exactly for a live id, otherwise panics with that id; replaces the triple and nothing else |
| Driver.DestroyGeometry | examples/wgpu.rs:731-733 | removes only that key; all other geometries and state unchanged |
| Driver.CreateThenDestroyTexture | examples/wgpu.rs:722-724 | destroying a texture right after creating it leaves the driver exactly as destroying it alone would |
| Driver.UpdateTextureIdempotent | examples/wgpu.rs:209-259 | writing the same bitmap to a texture twice gives the same driver as writing it once |
| Driver.CreateTextureUploadsOnce | examples/wgpu.rs:203-206 | rewriting a texture just created from a non-empty bitmap with that bitmap changes nothing: creation already uploaded it |
| Driver.CreateThenDestroyRenderBuffer | examples/wgpu.rs:726-729 | destroying a render buffer right after creating it leaves the driver as destroying it alone would, free-list push included |
| Driver.UpdateAfterCreateGeometry | examples/wgpu.rs:307-330 | updating a geometry right after creating it succeeds and equals creating it with the new buffers |
| Driver.CreateThenDestroyGeometry | examples/wgpu.rs:731-733 | destroying a geometry right after creating it leaves the driver as destroying it alone would |
| VertexLayouts.LayoutFor | examples/wgpu.rs:407-510 | both engine formats give packed layouts whose stride is the byte size the format name spells out (20 and 140), with offsets 0, 8, 12 and 0, 8, 12, 20, 28, 44, 60, 76, 92, 108, 124; any other format is fatal |
| VertexLayouts.SimpleLayoutPacked | examples/wgpu.rs:407-438 | the `2f_4ub_2f` layout is packed, its offsets are 0, 8, 12 and its stride is the named component size |
| VertexLayouts.ExtendedLayoutPacked | examples/wgpu.rs:407-510 | the `2f_4ub_2f_2f_28f` layout is packed, with the eleven offsets above, and its stride is the named component size |
| VertexLayouts.ExtendedStride | examples/wgpu.rs:412-415 | the extended stride, 140, is the size of 2+2+2+28 floats plus four unsigned bytes |
| VertexLayouts.ExtendedLocations | examples/wgpu.rs:442-506 | the extended layout's shader locations are 0..10 in order |
| VertexLayouts.ExtendedAdjacent | examples/wgpu.rs:442-506 | each extended attribute starts where the previous one ends |
| VertexLayouts.PackedAttributesDisjoint | examples/wgpu.rs:407-510 | in a packed layout an earlier attribute ends at or before any later one starts |
| VertexLayouts.PackedAttributesWithinStride | examples/wgpu.rs:407-510 | in a packed layout every attribute lies inside one vertex |
| VertexLayouts.ExtendedExtendsSimple | examples/wgpu.rs:420-458 | the extended layout begins with the simple layout's three attributes |
| Uniforms.UniformBlockLayout | examples/wgpu.rs:40-48 | the block is 192 four-byte words, exactly the 768-byte minimum binding size declared at line 524; every vector or matrix field starts on a 16-byte boundary, the clip matrices at byte 256 |
| Commands.EncodeCommand | examples/wgpu.rs:357-716 | succeeds exactly when the command is encodable; a missing render buffer, a missing target texture and a target that is also sampled are fatal in that order; a clear clears the render buffer's texture; a draw records the geometry, indices `[offset, offset+count)`, the fallback exactly for missing texture 1 or 2, the blend flag, the `Fill` shader pair exactly for `Fill`, the format's packed layout, the target's format and the viewport |
| Commands.BindingFor | examples/wgpu.rs:600-607 | a draw binds the named texture exactly when that id is live, and the placeholder otherwise |
| Commands.SampledTexture | examples/wgpu.rs:337-354 | a missing texture id samples the 1x1 `R8Unorm` placeholder, a live one its own texture; no texture created from a bitmap has the placeholder's format |
| Commands.EncodeCommands | examples/wgpu.rs:356-717 | succeeds exactly when every command is encodable; then one operation per command, in order, each the command's own encoding; otherwise the panic is the first failing command's |
| Commands.UpdateCommandList | examples/wgpu.rs:332-720 | on success the pool gains exactly one buffer, the list's encoding, after the earlier ones; the pipeline cache gains one entry per draw, in order; nothing else changes; on failure the first failing command's panic |
| Commands.EncodeCommandsAppend | examples/wgpu.rs:356-717 | translating a concatenation succeeds exactly when both parts do, and gives the concatenation of the two encodings |
| Commands.ClearDecidesFinalContent | examples/wgpu.rs:387-403 | in a translated list, the draws that survive on a cleared texture are exactly those encoded from the commands after the clear |
| Pipeline.ClearErasesEarlierDraws | examples/wgpu.rs:387-403 | a clear of a texture erases every earlier draw on it from the surviving draws |
| Pipeline.DrawPipelinesCount | examples/wgpu.rs:693 | one pipeline is built per draw and none per clear |
| Pipeline.ShadersFor | examples/wgpu.rs:660-676 | the second (fill) shader pair is chosen exactly for the `Fill` tag, the path pair for every other tag |
| Pipeline.BlendFor | examples/wgpu.rs:639-654 | blending is on exactly when the command enables it, and is then the premultiplied-alpha blend |
| Pipeline.PremultipliedBlendIsOver | examples/wgpu.rs:639-654 | the blend computes premultiplied "source over destination": colour `src + dst(1-srcA)`, alpha `srcA + dstA(1-srcA)`; an opaque source replaces the destination, a transparent one keeps it |
| Facade.Dispatch | src/gpu_driver.rs:74-92 | an id is issued exactly by the three allocator calls; texture and geometry counters move by one exactly on their own allocation call; the render-buffer counter never decreases; non-render-buffer calls leave render-buffer state alone; the pool grows by one exactly on a command-list call and keeps its earlier buffers |
| Facade.Run | src/gpu_driver.rs:74-92 | one reply per call; the pool keeps its earlier buffers and grows by exactly the number of command-list calls |
| Facade.RunFollowsSteps | src/gpu_driver.rs:74-92 | a run whose every call steps from one given state to the next ends in the last state with the replies in order |
| Scenarios.ClearThenDrawScenario | examples/wgpu.rs:141-720 | from a new driver, allocating and creating a texture, a render buffer over it and a geometry, then submitting clear+draw: ids 1, 0, 1 are issued; one buffer holding `Clear(1)` and a draw of indices `[0, 6)` sampling the placeholder twice is pooled; one pipeline is built |
| Scenarios.SecondClearErasesFirstDraw | examples/wgpu.rs:387-403 | in clear, draw, clear, draw on one render buffer only the second draw survives |

## Left out

- wgpu device, queue, encoder, bind-group and pipeline construction
  (examples/wgpu.rs:76-139, 511-568, 609-691), and shader compilation. GPU
  objects are records or tags. The draw's recorded fields stand for the pipeline
  it was built with.
- `ulApplyProjection` and every `f32` value: transform, uniform scalars, vectors
  and clip matrices (examples/wgpu.rs:570-592). This is a foreign call plus
  floating point. Only the uniform block's layout is modelled.
- The windowing, surface and presentation loop and `main`
  (examples/wgpu.rs:736-1069). This includes draining the pool: the model only
  appends to it.
- The `encoder_pool` mutex and the global driver singleton in src/gpu_driver.rs,
  including its "driver not set" panic. This is concurrency and FFI plumbing;
  `Dispatch` is the trait call.
- The depth, stencil and scissor warnings (examples/wgpu.rs:361-369). They only
  print.
- PremultipliedBlendIsOver: states the blend equation over real numbers, so
  it does not model `f32` rounding or the render target's clamping to [0, 1].
- Release-build `u32` wrap-around. The model follows debug builds, where
  overflow panics.
- Raw-pointer reads (bitmap pixels, vertex, index and command arrays). These are
  sequences. `Readable` is the caller's memory-safety obligation for the bytes
  `update_texture` reads.
- The render pass's clip/scissor state, the sampler settings and the viewport
  depth range. These are constants with no effect on the integer model.
- src/javascript.rs, src/platform.rs, src/renderer.rs, src/lib.rs,
  src/ul/string.rs, build.rs, examples/basic.rs and examples/javascript.rs are not
  part of this model. They are FFI wrappers, I/O shims, build scripts and demos.
- Checks the driver does not make. The allocator invariant (`Sound`) is proved
  only for callers that destroy live render buffers and create issued, non-free
  ids (`Respects`). The driver checks neither condition.
