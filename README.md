# hotrod host-side rendering core, in Dafny

This project models the CPU side of the hotrod 2D engine: the Rust code that decides what the
GPU draws, where, and with which data. It covers:

- **Camera and uniforms.** `Map2dView` converts between world and screen, pans and zooms about a
  screen point, and is driven by egui's scroll and drag input. The `World2dView` (binding 201)
  and `WindowSize` (binding 101) uniform records carry it to the shaders.
- **Descriptor bookkeeping.** Both generations of `WriteDescriptorSetManager` file write
  descriptors by binding number.
- **Textures.** `TextureManager` origin identity, sampler modes, the `ImageSystem` upload queue,
  `TextureRegistry`, `TextureView` sub-rectangles and a texture's per-pipeline id list.
- **Sprite geometry.** `SpriteSheet`, its grid generator and the XML atlas, `TileMapLoader` and
  `TileMap2d`, and `SpriteAnimationLoader`'s strips.
- **Draw planning.** Every pipeline's `draw` is modelled: lines, triangles (plain and indexed),
  textured, beautiful lines, glowing balls, terrain, entities, and both egui painters. Each
  flattens its items into shared buffers and records commands with accumulated offsets.
  Vulkano's command builder is an append-only log of abstract commands (`Gpu.CommandBuffer`).
  Each draw method is proved to append exactly a specification function's commands. Lemmas about
  those functions state what the source promises: one draw per item, over exactly its slice of
  the buffer, in order.
- **Stateful helpers.** `BufferedCanvasLayer`'s coalesced action list, the SDL-to-egui input
  mapping and shortcut injection, `FontRenderer`'s text cache, both `FpsManager`s, and
  `InterpolatedScalar`/`InterpolatedPosition`.
- **Configuration records.** `EngineBuilder` and `RawRgbaImage`.

Code that updates state in place is modelled as Dafny classes whose methods carry `modifies`
clauses. Pure code is modelled as datatypes and functions. `f32` is modelled as an exact `real`.
The integer widths are written out where they matter: `as u32` from a float saturates
(`Base.CastU32`), and `as u16`/`as u32` from an integer truncate (`Base.TruncU16`,
`Base.TruncU32`). A `todo!()`, `unimplemented!()` or failed `unwrap()` that depends on state is
modelled as an explicit `Panicked` outcome. Failures of allocation or creation are boolean
parameters that select the error path. The clock, the clipboard and egui's own output are
parameters.

## Model

| member | source | states |
|---|---|---|
| Uniforms.WindowSizeFromExtent | src/engine/system/vulkan/desc/binding_101_window_size.rs:9-17 | the window size is the swapchain image extent, width then height, as floats |
| Uniforms.World2dViewFromSystem | src/engine/system/vulkan/desc/binding_201_world_2d_view.rs:18-27 | the initial view sits at the origin with zoom 1, so its uniform data is [0, 0, 1] |
| Uniforms.Origin.Binding | src/engine/system/vulkan/desc/binding_101_window_size.rs:23-26 | the window size is filed at binding 101, the world view at binding 201 |
| Uniforms.Origin.Data | src/engine/system/vulkan/desc/binding_101_window_size.rs:28-31 | the window size uploads two floats, the world view three |
| Uniforms.ViewArrayRoundTrip | src/engine/system/vulkan/desc/binding_201_world_2d_view.rs:11-16 | a view built from `[x, y, zoom]` uploads exactly that array again (`From<[f32; 3]>` then `data` is the identity) |
| Uniforms.UniformBindingsDistinct | src/engine/system/vulkan/desc/binding_201_world_2d_view.rs:33-36 | the two uniforms never share a binding, so filing one never replaces the other |
| Uniforms.CreateDescriptorSet | src/engine/system/vulkan/desc/mod.rs:20-41 | a buffer write at the origin's binding holding the origin's data; a failed allocation is `FailedToAllocateWriteDescriptorBuffer` naming that binding |
| Uniforms.Update | src/engine/system/vulkan/desc/mod.rs:43-61 | records exactly one buffer update of the current descriptor's binding with the origin's data; a failed update records nothing and names the binding |
| WriteDescriptors.RequiredDescriptors | src/engine/system/vulkan/wds.rs:82-90 | every filed descriptor whose binding the layout has is returned, nothing unfiled is, and there are at most as many as the layout has bindings |
| WriteDescriptors.RequiredDescriptorsBindings | src/engine/system/vulkan/wds.rs:82-90 | with descriptors filed under their own binding, everything returned is a buffer write at one of the layout's bindings |
| WriteDescriptors.WriteDescriptorSetManager.constructor | src/engine/system/vulkan/wds.rs:21-30 | keeps both allocators and starts with nothing filed |
| WriteDescriptors.WriteDescriptorSetManager.Insert | src/engine/system/vulkan/wds.rs:42-53 | files the origin's new write descriptor under its binding, replacing any earlier one; a failed allocation leaves the map as it was and reports the binding |
| WriteDescriptors.WriteDescriptorSetManager.Update | src/engine/system/vulkan/wds.rs:55-66 | an unfiled binding is `Ok(None)` and records nothing; a filed one records its buffer update and returns that descriptor, or the update error with nothing recorded |
| WriteDescriptors.WriteDescriptorSetManager.GetRequiredDescriptors | src/engine/system/vulkan/wds.rs:82-90 | exactly the filed descriptors at the layout's bindings: every one of them is returned, and each returned one is filed under one of those bindings |
| WriteDescriptors.WriteDescriptorSetManager.CreatePersistentDescriptorSet | src/engine/system/vulkan/wds.rs:68-80 | a set of that layout holding every filed descriptor the layout binds and nothing else (each write is filed under one of the layout's bindings), unless creating it fails |
| WriteDescriptorsDevice.WriteDescriptorSetManager.constructor | src/engine/system/vulkan/wds/mod.rs:25-31 | both allocators come from the device, and nothing is filed |
| WriteDescriptorsDevice.WriteDescriptorSetManager.Clone | src/engine/system/vulkan/wds/mod.rs:17-22 | a new manager with the same allocators and the same filed descriptors |
| WriteDescriptorsDevice.WriteDescriptorSetManager.Insert | src/engine/system/vulkan/wds/mod.rs:41-52 | as for the shared-allocator manager: the new descriptor replaces its binding's entry, or nothing changes and the binding is reported |
| WriteDescriptorsDevice.WriteDescriptorSetManager.Update | src/engine/system/vulkan/wds/mod.rs:54-65 | `Ok(None)` for an unfiled binding; otherwise the recorded buffer update and the descriptor, or the update error |
| WriteDescriptorsDevice.WriteDescriptorSetManager.GetRequiredDescriptors | src/engine/system/vulkan/wds/mod.rs:80-89 | exactly the filed descriptors at the layout's bindings: every one of them is returned, and each returned one is filed under one of those bindings |
| WriteDescriptorsDevice.WriteDescriptorSetManager.CreatePersistentDescriptorSet | src/engine/system/vulkan/wds/mod.rs:67-78 | a set of that layout holding exactly the filed descriptors the layout binds: all of them, and each write filed under one of its bindings, unless creating it fails |
| ImageUploads.WithRegion | src/engine/system/vulkan/textures/image.rs:110-134 | a region replaces the whole-image copy's first region and keeps its data, image and the other regions; no region leaves the copy as it was |
| ImageUploads.UpdateCopiesRegion | src/engine/system/vulkan/textures/image.rs:110-134 | an update of a rectangle copies exactly that rectangle of the image and nothing more |
| ImageUploads.ImageSystem.constructor | src/engine/system/vulkan/textures/image.rs:17-22 | keeps the allocator, and nothing is queued yet |
| ImageUploads.ImageSystem.HasUploadInfoEnqueued | src/engine/system/vulkan/textures/image.rs:25-27 | true exactly when some copy is waiting |
| ImageUploads.ImageSystem.NextUploadInfo | src/engine/system/vulkan/textures/image.rs:30-32 | the oldest waiting copy, taken off the queue; `None` and no change when nothing waits |
| ImageUploads.ImageSystem.CreateImage | src/engine/system/vulkan/textures/image.rs:47-66 | a new image of exactly the requested extent, or the image allocation error |
| ImageUploads.ImageSystem.CreateCopy | src/engine/system/vulkan/textures/image.rs:83-108 | the staged bytes copied over the whole image, or the buffer allocation error |
| ImageUploads.ImageSystem.EnqueueImageUpload | src/engine/system/vulkan/textures/image.rs:69-81 | appends one whole-image copy of the bytes behind everything already queued; a staging failure queues nothing |
| ImageUploads.ImageSystem.CreateAndUploadImage | src/engine/system/vulkan/textures/image.rs:35-44 | a new image of the extent whose upload is queued last; either failure reports its own error and queues nothing |
| ImageUploads.ImageSystem.EnqueueImageUpdate | src/engine/system/vulkan/textures/image.rs:110-134 | appends one copy of the bytes into the given rectangle, or over the whole image without one; a staging failure queues nothing |
| Textures.SamplerFor | src/engine/system/vulkan/textures/sampler.rs:14-27 | magnification and minification agree, linear filtering goes with linear mipmaps, and nearest filtering is used exactly in pixel-perfect mode |
| Textures.CreateTextureSampler | src/engine/system/vulkan/textures/sampler.rs:30-43 | the sampler of the mode, unless creation fails |
| Textures.SamplerModesDiffer | src/engine/system/vulkan/textures/sampler.rs:14-27 | the two modes give different samplers |
| Textures.TextureManager.constructor | src/engine/system/vulkan/textures/texture.rs:42-54 | keeps sampler, layout, allocator and binding, with an origin marker no other manager has |
| Textures.TextureManager.ImageDescriptor | src/engine/system/vulkan/textures/texture.rs:84-102 | a set of the manager's layout: the image with the sampler at the manager's binding first, then the extra descriptors in order |
| Textures.TextureManager.PrepareTextureWith | src/engine/system/vulkan/textures/texture.rs:70-82 | a new texture id of this manager over the image with that descriptor set, unless creation fails |
| Textures.TextureManager.PrepareTexture | src/engine/system/vulkan/textures/texture.rs:62-68 | as `prepare_texture_with`, using the manager's own sampler |
| Textures.TextureManager.IsOriginOf | src/engine/system/vulkan/textures/texture.rs:104-107 | a texture is this manager's exactly when its origin is this manager's marker |
| Textures.TextureInner.constructor | src/engine/system/vulkan/textures/texture.rs:75-80 | the id holds the manager's origin marker, the image and the descriptor set it was made with |
| Textures.TextureInner.OriginatesFrom | src/engine/system/vulkan/textures/texture.rs:119-123 | true exactly for the marker the texture was made with (`Arc::ptr_eq` as object identity) |
| Textures.Basic | src/engine/system/vulkan/textures/texture.rs:27-40 | a new manager sampling as the mode says, at the given binding of the layout, with a fresh origin; a sampler failure is the error |
| Textures.ForeignTextureNotRecognised | src/engine/system/vulkan/textures/texture.rs:105-107 | a texture id made by another manager is never recognised as one's own |
| TextureViews.Texture.constructor | src/engine/system/texture/loader.rs:47-52 | the texture starts with no egui handle and no registered ids |
| TextureViews.Texture.Width | src/engine/system/texture/mod.rs:164-167 | the Vulkan image's width |
| TextureViews.Texture.Height | src/engine/system/texture/mod.rs:168-170 | the Vulkan image's height |
| TextureViews.Texture.SetEguiTexture | src/engine/system/texture/mod.rs:187-189 | sets the egui handle and nothing else |
| TextureViews.Texture.LoadAndRegisterForEgui | src/engine/system/texture/mod.rs:226-240 | the texture gets its egui handle; the pipeline ids are untouched |
| TextureViews.Texture.GetTextureId | src/engine/system/texture/mod.rs:191-214 | the first id registered for the pipeline type, and `None` exactly when no id of that type is registered |
| TextureViews.Texture.RegisterTextureId | src/engine/system/texture/mod.rs:242-249 | appends the id, after all earlier ones |
| TextureViews.Texture.LoadAndRegisterFor | src/engine/system/texture/mod.rs:216-223 | a new id of that pipeline's manager over this texture's image, registered last; on failure nothing is registered |
| TextureViews.Texture.CreateView | src/engine/system/texture/mod.rs:256-266 | a view of this texture with exactly the given corners |
| TextureViews.Texture.Finalize | src/engine/system/texture/mod.rs:252-254 | the whole texture: corners (0, 0) and (1, 1), as wide and high as the texture |
| TextureViews.FirstIdOf | src/engine/system/texture/mod.rs:191-214 | the first entry of the type, `None` exactly when there is none |
| TextureViews.TextureView.Subview | src/engine/system/texture/mod.rs:107-139 | a view of the same texture; a missing relative corner keeps the view's own corner |
| TextureViews.TextureView.Uv0OrDefault | src/engine/system/texture/mod.rs:63-65 | the given top-left corner, or (0, 0) when there is none |
| TextureViews.TextureView.Uv1OrDefault | src/engine/system/texture/mod.rs:72-74 | the given bottom-right corner, or (1, 1) when there is none |
| TextureViews.ScaledSpan | src/engine/system/texture/mod.rs:76-84 | a pixel size scaled by a UV span: the whole size for the span 0 to 1, never negative for an ordered span |
| TextureViews.TextureView.Width | src/engine/system/texture/mod.rs:76-79 | the pixel width the view covers: the texture's whole width for a view with no corners, never negative when the corners are ordered |
| TextureViews.TextureView.Height | src/engine/system/texture/mod.rs:81-84 | the pixel height the view covers: the texture's whole height for a view with no corners, never negative when the corners are ordered |
| TextureViews.SubviewCorners | src/engine/system/texture/mod.rs:107-139 | the subview's corners are the relative points mapped into the view |
| TextureViews.SubviewExtent | src/engine/system/texture/mod.rs:107-139 | the subview's UV size is the relative extent scaled by the distance between the view's default-filled corners |
| TextureViews.SubviewIdentity | src/engine/system/texture/mod.rs:107-139 | the relative rectangle (0, 0)–(1, 1), or no corners at all, gives the view back |
| TextureViews.FindLookup | src/engine/system/texture/mod.rs:36-42 | the first view registered under the key, `None` exactly when the key was never registered |
| TextureViews.FindLookupAppend | src/engine/system/texture/mod.rs:21-42 | registering a key again never changes what an earlier registration answers; a new key answers with its view |
| TextureViews.RegisterThenLookup | src/engine/system/texture/mod.rs:21-42 | a lookup after a registration answers as before, except that a key of that type not found before now finds the new view |
| TextureViews.TextureRegistry.constructor | src/engine/system/texture/mod.rs:15-18 | the registry starts empty |
| TextureViews.TextureRegistry.RegisterLookup | src/engine/system/texture/mod.rs:21-34 | appends the key and its view to the entries of the key's type |
| TextureViews.TextureRegistry.Get | src/engine/system/texture/mod.rs:36-42 | `None` exactly when no entry of that type has the key |
| Textured.UvVertices | src/engine/system/vulkan/textured/mod.rs:146-151 | one vertex per input pair, the pair's position and texture coordinate, in order |
| Textured.ItemDrawsStep | src/engine/system/vulkan/textured/mod.rs:157-170 | item k's commands follow those of the items before it, at the offset of all earlier vertices, drawn or not, and that offset is where item k's own vertices lie in the shared buffer |
| Textured.ItemDrawsPrefix | src/engine/system/vulkan/textured/mod.rs:157-170 | the commands of a prefix of the items are a prefix of the commands of all items |
| Textured.OwnCount | src/engine/system/vulkan/textured/mod.rs:158 | at most one per item |
| Textured.DrawsOwnItems | src/engine/system/vulkan/textured/mod.rs:157-170 | exactly one draw per item whose texture this pipeline's manager made, none for the others |
| Textured.IndexedDrawsSnoc | src/engine/system/vulkan/textured/mod.rs:202-218 | an indexed item's commands use the index and vertex counts of all items before it, and each item adds three indices per triangle and its vertices |
| Textured.IndexedDrawsStep | src/engine/system/vulkan/textured/mod.rs:202-218 | an indexed item's first index and vertex offset are where its own indices and vertices lie in the shared buffers |
| Textured.PreparedItemDrawn | src/engine/system/vulkan/textured/mod.rs:157-170 | an item whose texture this pipeline made is drawn: its descriptor bind and its draw of its own vertices, right after the commands of the items before it |
| Textured.TexturedPipeline.constructor | src/engine/system/vulkan/textured/mod.rs:60-74 | keeps the descriptor manager, the texture manager and the layout |
| Textured.TexturedPipeline.Draw | src/engine/system/vulkan/textured/mod.rs:140-173 | binds the pipeline and one vertex buffer of every item's vertices, then records each item's commands; a failed buffer allocation records nothing and reports it |
| Textured.TexturedPipeline.RecordItems | src/engine/system/vulkan/textured/mod.rs:157-170 | the loop appends exactly the commands of every item, in order, with the running offset |
| Textured.TexturedPipeline.RecordItem | src/engine/system/vulkan/textured/mod.rs:158-168 | one item: its bind and draw when its texture is this pipeline's, nothing else otherwise |
| Textured.TexturedPipeline.DrawIndexed | src/engine/system/vulkan/textured/mod.rs:175-221 | binds the pipeline, the index buffer of all items' indices and the vertex buffer, then each item's commands; a failure of either buffer records nothing and reports it |
| Textured.TexturedPipeline.RecordIndexedItems | src/engine/system/vulkan/textured/mod.rs:202-218 | the loop appends exactly the commands of every indexed item, in order, with both running offsets |
| Textured.TexturedPipeline.RecordIndexedItem | src/engine/system/vulkan/textured/mod.rs:203-214 | one indexed item: its bind and draw of three indices per triangle when its texture is this pipeline's, nothing else otherwise |
| Textured.TexturedPipeline.PrepareTexture | src/engine/system/vulkan/textured/mod.rs:223-232 | a new texture of this pipeline's manager over the image, whose descriptor set carries the pipeline's required descriptors after the image sampler |
| Triangles.PosVertices | src/engine/system/vulkan/triangles/mod.rs:147-152 | one vertex per position, in order |
| Triangles.IndexedDraws | src/engine/system/vulkan/triangles/mod.rs:216-234 | two commands per item |
| Triangles.IndexedDrawsAt | src/engine/system/vulkan/triangles/mod.rs:216-234 | item k pushes its colour and then draws three indices per triangle, from the indices and vertices of all items before it |
| Triangles.IndexedDrawCovers | src/engine/system/vulkan/triangles/mod.rs:216-234 | item k's indexed draw covers exactly its own indices, once, with the vertex offset of its own vertices |
| Triangles.ResolveThrough | src/engine/system/vulkan/triangles/mod.rs:216-234 | a draw whose index window holds an item's indices and whose vertex offset starts that item's vertices reads, for index j, the vertex the item's own index j names |
| Triangles.IndexedDrawResolves | src/engine/system/vulkan/triangles/mod.rs:216-234 | the vertex indexed draw k reads for index j (the shared index buffer's entry at the draw's first index plus j, offset by its vertex offset) is the vertex of item k that the item's own index j names, never another item's |
| Triangles.OneDrawPerItem | src/engine/system/vulkan/triangles/mod.rs:164-178 | exactly one draw per item, in both kinds of draw |
| Triangles.TrianglesPipeline.constructor | src/engine/system/vulkan/triangles/mod.rs:57-71 | keeps the pipeline's descriptor set |
| Triangles.TrianglesPipeline.Draw | src/engine/system/vulkan/triangles/mod.rs:140-181 | binds pipeline, vertex buffer and descriptor set, then each item's colour push and draw; a failed buffer allocation records nothing and reports it |
| Triangles.TrianglesPipeline.RecordItems | src/engine/system/vulkan/triangles/mod.rs:164-178 | the loop appends exactly each item's push and draw, in order, with the running offset |
| Triangles.TrianglesPipeline.DrawIndexed | src/engine/system/vulkan/triangles/mod.rs:183-237 | binds pipeline, index and vertex buffers and the descriptor set, then each item's push and indexed draw; a failure of either buffer records nothing and reports it |
| Triangles.TrianglesPipeline.RecordIndexedItems | src/engine/system/vulkan/triangles/mod.rs:216-234 | the loop appends exactly each item's push and indexed draw, with both running offsets |
| Lines.LineVertices | src/engine/system/vulkan/lines/mod.rs:145-150 | one vertex per line point, in order |
| ColorDraws.PushDraws | src/engine/system/vulkan/lines/mod.rs:162-172 | two commands per item (the same loop as src/engine/system/vulkan/triangles/mod.rs:164-178) |
| ColorDraws.PushDrawsAt | src/engine/system/vulkan/lines/mod.rs:162-172 | item k pushes its own colour, then draws its vertex count from the sum of the vertex counts before it, for lines and triangle lists alike |
| ColorDraws.PushDrawCovers | src/engine/system/vulkan/lines/mod.rs:162-172 | item k's draw is one instance of exactly item k's vertices in the shared buffer, for lines and triangle lists alike |
| ColorDraws.OneDrawPerItem | src/engine/system/vulkan/lines/mod.rs:162-172 | exactly one draw per item, for lines and triangle lists alike |
| Lines.LinePipeline.constructor | src/engine/system/vulkan/lines/mod.rs:56-70 | keeps the pipeline's descriptor set |
| Lines.LinePipeline.Draw | src/engine/system/vulkan/lines/mod.rs:139-175 | binds pipeline, the vertex buffer of all lines and the descriptor set, then each line's push and draw; a failed buffer allocation records nothing and reports it |
| Lines.LinePipeline.RecordLines | src/engine/system/vulkan/lines/mod.rs:162-172 | the loop appends exactly each line's push and draw, with the running offset |
| BeautifulLines.Bounds | src/engine/system/vulkan/beautiful_lines/mod.rs:136-141 | the origin only goes down and the far corner only up from the starting scissor |
| BeautifulLines.BoundsInRange | src/engine/system/vulkan/beautiful_lines/mod.rs:136-141 | the bounds stay u32 values |
| BeautifulLines.BoundsContain | src/engine/system/vulkan/beautiful_lines/mod.rs:136-141 | every vertex's pixel lies between the bounds' origin and far corner |
| BeautifulLines.BoundsAttained | src/engine/system/vulkan/beautiful_lines/mod.rs:136-141 | each bound is the starting value or some vertex's pixel coordinate |
| BeautifulLines.ScissorOkIffOrdered | src/engine/system/vulkan/beautiful_lines/mod.rs:142-143 | the subtraction stays in range exactly when the origin does not pass the far corner |
| BeautifulLines.SubU32 | src/engine/system/vulkan/beautiful_lines/mod.rs:142-143 | u32 subtraction: the difference when it is not negative, wrapped modulo 2^32 otherwise |
| BeautifulLines.LineScissor | src/engine/system/vulkan/beautiful_lines/mod.rs:135-143 | the scissor's origin is the bounds' origin and, when no wrap occurs, origin plus dimensions is the bounds' far corner |
| BeautifulLines.VerticesInsideScissor | src/engine/system/vulkan/beautiful_lines/mod.rs:135-143 | every vertex of the line lies inside its scissor |
| BeautifulLines.IrrelevantScissorIgnoresLine | src/engine/system/vulkan/beautiful_lines/mod.rs:135-143 | starting from `Scissor::irrelevant()`, a line within the first 2^31 pixels of each axis gets the irrelevant scissor back |
| BeautifulLines.IrrelevantScissorExample | src/engine/system/vulkan/beautiful_lines/mod.rs:135-143 | the line from (10, 10) to (20, 20) gets the whole framebuffer, where the empty start gives the square from (10, 10) of side 10 |
| BeautifulLines.EmptyScissorBoundsLine | src/engine/system/vulkan/beautiful_lines/mod.rs:135-143 | starting from the empty box, the scissor is exactly the bounding box of the line's pixels: it contains each vertex and each edge is reached by one |
| BeautifulLines.LineVertices | src/engine/system/vulkan/beautiful_lines/mod.rs:127-133 | one vertex per line point with its position and colour, in order |
| BeautifulLines.LineDraws | src/engine/system/vulkan/beautiful_lines/mod.rs:134-161 | five commands per line |
| BeautifulLines.LineDrawsSnoc | src/engine/system/vulkan/beautiful_lines/mod.rs:134-161 | line k's commands follow those of the lines before it and use line k's own scissor |
| BeautifulLines.LineDrawsAt | src/engine/system/vulkan/beautiful_lines/mod.rs:134-161 | commands 5k to 5k+4 are line k's: its width, scissor, slice bind, push and draw |
| BeautifulLines.LineCommandsOneDraw | src/engine/system/vulkan/beautiful_lines/mod.rs:152-160 | each line records one draw |
| BeautifulLines.OneDrawPerLine | src/engine/system/vulkan/beautiful_lines/mod.rs:134-161 | exactly one draw per line |
| BeautifulLines.SliceIsLine | src/engine/system/vulkan/beautiful_lines/mod.rs:145-149 | the slice bound for line k is exactly line k's vertices |
| BeautifulLines.BeautifulLineSystem.ComputeScissor | src/engine/system/vulkan/beautiful_lines/mod.rs:135-143 | the vertex loop and the subtraction compute the line's scissor |
| BeautifulLines.BeautifulLineSystem.Draw | src/engine/system/vulkan/beautiful_lines/mod.rs:117-164 | binds the pipeline, then, if the vertex buffer can be made, every line's commands; a failed allocation leaves only the pipeline bind and reports the error |
| BeautifulLines.BeautifulLineSystem.RecordLine | src/engine/system/vulkan/beautiful_lines/mod.rs:145-160 | line k's width, scissor, own slice, push constants and draw from vertex 0 of the slice |
| BeautifulLines.BeautifulLineSystem.RecordLines | src/engine/system/vulkan/beautiful_lines/mod.rs:134-161 | the loop appends exactly every line's commands, with the offset advancing by each line's length |
| Quads.QuadCorners | src/engine/system/vulkan/glowing_balls/mod.rs:67-72 | four distinct corners, each coordinate ±0.5 |
| Quads.QuadVertices | src/engine/system/vulkan/glowing_balls/mod.rs:67-72 | the quad vertex buffer holds the four corners, in order |
| Quads.QuadCoversUnitSquare | src/engine/system/vulkan/glowing_balls/mod.rs:64-72 | the six quad indices name only the four corners, use each of them, form two counter-clockwise triangles of area one half each, and share the diagonal |
| Quads.InstancedQuadLog | src/engine/system/vulkan/glowing_balls/mod.rs:161-177 | an instanced quad draw is five commands |
| Quads.InstancedQuadLogDraws | src/engine/system/vulkan/glowing_balls/mod.rs:161-177 | pipeline, descriptor, quad indices, quad vertices with the instance buffer, then one indexed draw of all indices for every instance, whose indices stay inside the quad vertex buffer |
| GlowingBalls.Instances | src/engine/system/vulkan/glowing_balls/mod.rs:158 | one instance per ball, in order |
| GlowingBalls.InstancesRoundTrip | src/engine/system/vulkan/glowing_balls/mod.rs:158 | the balls can be read back from the instance buffer unchanged |
| GlowingBalls.DrawLogDrawsEveryBall | src/engine/system/vulkan/glowing_balls/mod.rs:161-177 | one indexed draw of six indices for as many instances as there are balls, over the quad and every ball's instance |
| GlowingBalls.GlowingBallsPipeline.constructor | src/engine/system/vulkan/glowing_balls/mod.rs:62-78 | the quad index and vertex buffers, and the pipeline's descriptor set |
| GlowingBalls.GlowingBallsPipeline.New | src/engine/system/vulkan/glowing_balls/mod.rs:54-79 | a pipeline with the quad buffers and the persistent descriptor set of its layout, unless creation fails |
| GlowingBalls.GlowingBallsPipeline.Draw | src/engine/system/vulkan/glowing_balls/mod.rs:149-180 | the instanced quad draw of all balls; a failed buffer allocation records nothing and reports it |
| Terrain.Instances | src/engine/system/vulkan/world2d/terrain/mod.rs:177-189 | one instance per tile, in order, with the tile's position and shading and the terrain's UV rectangle |
| Terrain.InstancesRoundTrip | src/engine/system/vulkan/world2d/terrain/mod.rs:177-189 | every instance has the terrain's UVs, and the tiles can be read back from the buffer unchanged |
| Terrain.DrawIgnoresTileSize | src/engine/system/vulkan/world2d/terrain/mod.rs:171-213 | the tile size does not affect what is drawn |
| Terrain.DrawLogDrawsEveryTile | src/engine/system/vulkan/world2d/terrain/mod.rs:191-207 | one indexed draw of six indices per tile instance, with the terrain's texture bound |
| Terrain.World2dTerrainPipeline.constructor | src/engine/system/vulkan/world2d/terrain/mod.rs:72-100 | the quad buffers, a nearest-filtering sampler, a fresh origin marker, the layout and the descriptors |
| Terrain.World2dTerrainPipeline.Draw | src/engine/system/vulkan/world2d/terrain/mod.rs:171-213 | panics exactly for a texture this pipeline did not make; otherwise the instanced draw of every tile, or the buffer error with nothing recorded |
| Terrain.World2dTerrainPipeline.TextureDescriptor | src/engine/system/vulkan/world2d/terrain/mod.rs:277-303 | a set of the pipeline's layout: the image with the pipeline's sampler at binding 0, then the required descriptors |
| Terrain.World2dTerrainPipeline.CreateTexture | src/engine/system/vulkan/world2d/terrain/mod.rs:261-353 | a new texture of this pipeline over a new image of the extent, whose upload copy is recorded; each of the three failures reports its own error and records nothing |
| Entities.Instances | src/engine/system/vulkan/world2d/entities/mod.rs:168 | one instance per entity tile, in order |
| Entities.InstancesRoundTrip | src/engine/system/vulkan/world2d/entities/mod.rs:168 | the tiles can be read back from the instance buffer unchanged |
| Entities.BufferCmdsLength | src/engine/system/vulkan/world2d/entities/mod.rs:238-248 | two commands and one draw per vertex buffer |
| Entities.DrawWithLogShape | src/engine/system/vulkan/world2d/entities/mod.rs:227-248 | pipeline, texture descriptor and quad indices, then two commands per buffer, one draw each |
| Entities.DrawWithLogBufferAt | src/engine/system/vulkan/world2d/entities/mod.rs:238-248 | buffer k binds the quad with its own instances and draws six indices for each of its instances |
| Entities.DrawWithLogDrawsEveryBuffer | src/engine/system/vulkan/world2d/entities/mod.rs:218-255 | every buffer is drawn once with the batch's texture bound |
| Entities.BatchEnd | src/engine/system/vulkan/world2d/entities/mod.rs:189-198 | the end of the maximal run of one texture starting at i: everything before it has that texture, the draw at it does not |
| Entities.TakeWhileNext | src/engine/system/vulkan/world2d/entities/mod.rs:189-198 | where the peekable iterator stands after one `take_while`: past the batch, and past the first draw of the next texture when there is one |
| Entities.Buffers | src/engine/system/vulkan/world2d/entities/mod.rs:196 | each prepared draw's vertex buffer, in order |
| Entities.TakeWhileBatches | src/engine/system/vulkan/world2d/entities/mod.rs:189-198 | the batches `draw_prepared` hands to `draw_with`: each of one texture, the first starting at the first draw |
| Entities.Runs | src/engine/system/vulkan/world2d/entities/mod.rs:189-198 | the batches the comment intends: each of one texture, the first starting at the first draw |
| Entities.RunsPartition | src/engine/system/vulkan/world2d/entities/mod.rs:189-198 | the intended batches hold every draw exactly once in order, and neighbouring batches have different textures |
| Entities.TakeWhileDrawsAllIff | src/engine/system/vulkan/world2d/entities/mod.rs:189-198 | the batches as written never hold more than the queue, and all of it exactly when every draw has the first draw's texture |
| Entities.TakeWhileSkipsSecondTexture | src/engine/system/vulkan/world2d/entities/mod.rs:189-198 | for two draws of different textures, the batches as written hold only the first, the intended ones both |
| Entities.FirstForeign | src/engine/system/vulkan/world2d/entities/mod.rs:227 | the first batch whose texture this pipeline did not make, or the count if there is none |
| Entities.TakeWhileLogIsBatches | src/engine/system/vulkan/world2d/entities/mod.rs:179-201 | `draw_prepared` as written panics exactly when one of its batches has a foreign texture, and records the batches before it |
| Entities.RunsLogIsRuns | src/engine/system/vulkan/world2d/entities/mod.rs:179-201 | the corrected loop panics exactly when one of the intended batches has a foreign texture, and records the batches before it |
| Entities.DrawMatchesPrepared | src/engine/system/vulkan/world2d/entities/mod.rs:204-216 | `draw` records what `draw_prepared` records for the one prepared draw of the same tiles |
| Entities.World2dEntitiesPipeline.constructor | src/engine/system/vulkan/world2d/entities/mod.rs:59-88 | keeps the descriptors, texture manager and layout, with the quad buffers |
| Entities.World2dEntitiesPipeline.New | src/engine/system/vulkan/world2d/entities/mod.rs:59-88 | a pipeline whose new texture manager samples pixel-perfect at binding 0 of its layout, unless the sampler fails |
| Entities.World2dEntitiesPipeline.PrepareDraw | src/engine/system/vulkan/world2d/entities/mod.rs:158-176 | panics exactly for a foreign texture; otherwise the texture with one instance per tile, or the buffer error |
| Entities.World2dEntitiesPipeline.DrawWith | src/engine/system/vulkan/world2d/entities/mod.rs:218-255 | panics, recording nothing, exactly for a foreign texture; otherwise records the batch's commands |
| Entities.World2dEntitiesPipeline.RecordBuffers | src/engine/system/vulkan/world2d/entities/mod.rs:238-248 | the loop appends each buffer's bind and draw, in order |
| Entities.World2dEntitiesPipeline.Draw | src/engine/system/vulkan/world2d/entities/mod.rs:204-216 | a failed buffer allocation reports it with nothing recorded; otherwise panics exactly for a foreign texture, or draws the one buffer of all tiles |
| Entities.World2dEntitiesPipeline.ScanBatch | src/engine/system/vulkan/world2d/entities/mod.rs:189-198 | the end of the batch at i and its vertex buffers |
| Entities.World2dEntitiesPipeline.DrawBatchAt | src/engine/system/vulkan/world2d/entities/mod.rs:189-198 | draws the batch at i, panicking exactly for a foreign texture |
| Entities.World2dEntitiesPipeline.DrawPrepared | src/engine/system/vulkan/world2d/entities/mod.rs:179-201 | records and panics as the batches as written say |
| Entities.World2dEntitiesPipeline.DrawPreparedRuns | src/engine/system/vulkan/world2d/entities/mod.rs:179-201 | records and panics as the intended batches say |
| Entities.World2dEntitiesPipeline.PrepareTexture | src/engine/system/vulkan/world2d/entities/mod.rs:257-266 | a new texture of this pipeline's manager over the image, with the required descriptors after the image sampler |
| Entities.BatchEndIs | src/engine/system/vulkan/world2d/entities/mod.rs:189-198 | any index that ends a run of one texture is the batch end |
| Entities.FirstForeignCons | src/engine/system/vulkan/world2d/entities/mod.rs:189-198 | the first foreign batch after a leading batch, and the log of the batches before it |
| EguiMeshes.ToAdapterVertex | src/engine/system/vulkan/egui/mod.rs:433-439 | position and UV carried over, each colour byte scaled to a component in [0, 1] |
| EguiMeshes.AdapterVertexInjective | src/engine/system/vulkan/egui/mod.rs:433-439 | different epaint vertices give different adapter vertices |
| EguiMeshes.KeptMeshes | src/engine/system/vulkan/egui/mod.rs:245-256 | the meshes that are drawn: at most one per primitive, none empty in vertices or indices |
| EguiMeshes.KeptMeshesAppend | src/engine/system/vulkan/egui/mod.rs:245-264 | the kept meshes of two runs of primitives are those of each, in order |
| EguiMeshes.KeptMeshesSingle | src/engine/system/vulkan/egui/mod.rs:246-256 | one primitive is kept exactly when it is a mesh with vertices and indices |
| EguiMeshes.NothingKeptIff | src/engine/system/vulkan/egui/mod.rs:266-269 | nothing is drawn exactly when no primitive is kept |
| EguiMeshes.MeshVertices | src/engine/system/vulkan/egui/mod.rs:261 | one adapter vertex per mesh vertex, in order |
| EguiMeshes.ClipRects | src/engine/system/vulkan/egui/mod.rs:263 | one clip rectangle per kept mesh, its own |
| EguiMeshes.TextureIds | src/engine/system/vulkan/egui/mod.rs:259 | one texture id per kept mesh, its own |
| EguiMeshes.Offsets | src/engine/system/vulkan/egui/mod.rs:258-271 | one offset pair per kept mesh and a final one, each the vertex and index counts before it |
| EguiMeshes.PackedSnoc | src/engine/system/vulkan/egui/mod.rs:258-263 | packing one more mesh appends its vertices, indices, rect, id and the offsets it starts at |
| EguiMeshes.KeptMeshesSnoc | src/engine/system/vulkan/egui/mod.rs:245-264 | one more primitive adds its mesh exactly when it is kept |
| EguiMeshes.Pack | src/engine/system/vulkan/egui/mod.rs:239-264 | the loop packs exactly the kept meshes |
| EguiMeshes.SentinelCompletesOffsets | src/engine/system/vulkan/egui/mod.rs:271 | the final offset pair pushed after the loop completes the offsets of every mesh |
| EguiMeshes.MeshChunk | src/engine/system/vulkan/egui/mod.rs:258-263 | mesh k's vertices and indices lie in the shared buffers between its offsets and the next |
| EguiMeshes.OffsetsIncrease | src/engine/system/vulkan/egui/mod.rs:254-258 | kept meshes have strictly increasing vertex and index offsets |
| EguiMeshes.OffsetsEnds | src/engine/system/vulkan/egui/mod.rs:258-271 | the offsets start at zero and end at the buffers' lengths |
| EguiMeshes.PixelBytesLayout | src/engine/system/vulkan/egui/mod.rs:403-408 | pixel i's four bytes lie at 4i to 4i+3 |
| EguiMeshes.BytesLength | src/engine/system/vulkan/egui/mod.rs:403-408 | four bytes per pixel |
| EguiMeshes.DeltaRegion | src/engine/system/vulkan/egui/mod.rs:395-400 | no region exactly for a whole-image delta; a partial delta's region is its position and its image's size |
| EguiMeshes.UploadCopy | src/engine/system/vulkan/egui/mod.rs:388-417 | a copy of the delta's pixel bytes into the image: the whole image for a whole delta, the delta's region otherwise |
| EguiMeshes.CopiesRecordedStep | src/engine/system/vulkan/egui/mod.rs:339-353 | one more copy of the next delta, into the image its key holds after that entry, extends the copies of the entries before it and their image history |
| EguiMeshes.OnlyInstalledStep | src/engine/system/vulkan/egui/mod.rs:339-353 | two steps that each install only their keys together install only the union |
| EguiVulkan.IdWrapperOf | src/engine/system/vulkan/egui/mod.rs:446-454 | panics exactly for an id with the top bit set; keeps managed ids and sets the top bit of user ids |
| EguiVulkan.IdWrapperInjective | src/engine/system/vulkan/egui/mod.rs:446-454 | different egui ids never share a key |
| EguiVulkan.OptionsSampler | src/engine/system/vulkan/egui/mod.rs:177-200 | both filters carried over, and linear mipmaps exactly when minification is linear |
| EguiVulkan.FromEguiFilter | src/engine/system/vulkan/egui/mod.rs:181-186 | egui's nearest filter becomes Vulkan's nearest and linear becomes linear, and nothing else |
| EguiVulkan.SeededSamplerAgrees | src/engine/system/vulkan/egui/mod.rs:92-108 | the sampler seeded for the default options is the one creation would build for them, and the wrap mode does not change it |
| EguiVulkan.MeshCmds | src/engine/system/vulkan/egui/mod.rs:288-310 | scissor of the mesh's clip rect, its texture's descriptor, and an indexed draw of its own indices at its offsets |
| EguiVulkan.MeshesLogStep | src/engine/system/vulkan/egui/mod.rs:283-312 | a reserved id panics; otherwise a mesh whose texture is known records its commands and an unknown one nothing, then the rest follow |
| EguiVulkan.KnownMeshReadsItsSlices | src/engine/system/vulkan/egui/mod.rs:288-310 | a mesh's draw reads exactly its own indices and vertices in the shared buffers |
| EguiVulkan.OneDrawPerKnownMesh | src/engine/system/vulkan/egui/mod.rs:283-312 | one draw per mesh whose texture is known |
| EguiVulkan.MeshCmdsDrawOnce | src/engine/system/vulkan/egui/mod.rs:288-310 | a known mesh records one draw |
| EguiVulkan.KnownCount | src/engine/system/vulkan/egui/mod.rs:288 | at most one per mesh |
| EguiVulkan.RemoveKeepsValid | src/engine/system/vulkan/egui/mod.rs:320-327 | removing a key from both maps keeps every texture's image recorded |
| EguiVulkan.FreedKeysSnoc | src/engine/system/vulkan/egui/mod.rs:323 | freeing one more id frees its key too |
| EguiVulkan.AppliedNone | src/engine/system/vulkan/egui/mod.rs:329-356 | before any update nothing has changed and the image history holds only the starting images |
| EguiVulkan.AppliedStep | src/engine/system/vulkan/egui/mod.rs:336-353 | a successful update i, after those before it, extends the record: its copy into the image its key then holds, that image added to the history, its key installed |
| EguiVulkan.WholeKeysSnoc | src/engine/system/vulkan/egui/mod.rs:337-344 | one more update installs its key exactly when it is a whole image |
| EguiVulkan.EguiPipeline.constructor | src/engine/system/vulkan/egui/mod.rs:94-116 | no textures, images or pending frees, and the default options' sampler seeded with the manager's |
| EguiVulkan.EguiPipeline.New | src/engine/system/vulkan/egui/mod.rs:83-117 | a pipeline whose manager samples linearly at binding 0, with empty maps and the default sampler seeded |
| EguiVulkan.EguiPipeline.CachedSampler | src/engine/system/vulkan/egui/mod.rs:366-377 | the cached sampler of the options, or a new one cached for them; creating a missing one that fails panics |
| EguiVulkan.EguiPipeline.PrepareTexture | src/engine/system/vulkan/egui/mod.rs:358-379 | a new texture of this manager over the image with the options' sampler and no extra descriptors, unless the descriptor set fails |
| EguiVulkan.EguiPipeline.InstallImage | src/engine/system/vulkan/egui/mod.rs:337-344 | a whole-image delta gets a new image of its size and a texture under its key, replacing both entries; each failure reports its error |
| EguiVulkan.EguiPipeline.UpdateTexture | src/engine/system/vulkan/egui/mod.rs:336-353 | a partial delta copies into the image already under its key, which panics when missing; a whole delta installs a new texture and uploads all of it into the new image; anything but success records nothing |
| EguiVulkan.EguiPipeline.ApplyUpdate | src/engine/system/vulkan/egui/mod.rs:336-353 | panics exactly for a reserved id, a patch of a missing key or a sampler that cannot be made; otherwise returns the first failing call's error, or success, which installs only its own key and appends one copy into that key's image; a failure records nothing and changes at most its own key's image |
| EguiVulkan.EguiPipeline.UpdateTextures | src/engine/system/vulkan/egui/mod.rs:329-356 | the ids to free are queued, then the updates applied in order, each installing only its own key and appending one copy into the image that key then holds; success exactly when all succeed, and otherwise the outcome of the first entry that panics or fails, with the entries before it applied |
| EguiVulkan.EguiPipeline.FreeTextures | src/engine/system/vulkan/egui/mod.rs:320-327 | removes every queued id's texture and image and empties the queue; a reserved id panics |
| EguiVulkan.EguiPipeline.RecordMeshes | src/engine/system/vulkan/egui/mod.rs:283-312 | the loop records every mesh's commands, panicking exactly at a reserved id |
| EguiVulkan.EguiPipeline.RecordMesh | src/engine/system/vulkan/egui/mod.rs:288-310 | one mesh's scissor, bind and draw |
| EguiVulkan.EguiPipeline.DrawInternal | src/engine/system/vulkan/egui/mod.rs:232-318 | nothing kept records nothing and succeeds; a failed buffer records nothing; otherwise the header and every known mesh's commands, then the queued textures freed |
| EguiPainter.MeshDraw | src/engine/system/vulkan/egui/painter.rs:186-205 | six commands with one draw: the mesh's scissor, its own vertex and index slices, its texture, the push of the screen size, and a draw of all its indices |
| EguiPainter.KnownCount | src/engine/system/vulkan/egui/painter.rs:186 | at most the number of meshes looked at |
| EguiPainter.MeshesLogLength | src/engine/system/vulkan/egui/painter.rs:175-207 | six commands per mesh whose texture is known |
| EguiPainter.PushBeforeEachDrawAppend | src/engine/system/vulkan/egui/painter.rs:175-207 | joining two logs that each push the screen size before every draw keeps that order |
| EguiPainter.MeshesLogDraws | src/engine/system/vulkan/egui/painter.rs:175-207 | one draw per known mesh, each right after a push of the screen size |
| EguiPainter.MeshesLogPrefix | src/engine/system/vulkan/egui/painter.rs:175-207 | the commands of the first meshes are a prefix of those of more meshes |
| EguiPainter.MeshDrawnAt | src/engine/system/vulkan/egui/painter.rs:175-207 | a known mesh's six commands come right after those of the known meshes before it |
| EguiPainter.MeshesLogOnlyReadsIds | src/engine/system/vulkan/egui/painter.rs:186 | the recorded commands depend only on the textures of the meshes' own ids |
| EguiPainter.InstalledKeys | src/engine/system/vulkan/egui/painter.rs:246-264 | an update installs its own id exactly when it is a whole image, and nothing else |
| EguiPainter.WholeKeys | src/engine/system/vulkan/egui/painter.rs:246-264 | the ids installed by the updates are exactly those of their whole-image deltas |
| EguiPainter.AppliedNone | src/engine/system/vulkan/egui/painter.rs:238-272 | before any update nothing has changed and the image history holds only the starting images |
| EguiPainter.AppliedStep | src/engine/system/vulkan/egui/painter.rs:246-268 | a successful update i, after those before it, extends the record: its copy into the image its id then holds, that image added to the history, its id installed |
| EguiPainter.EguiOnVulkanoPainter.constructor | src/engine/system/vulkan/egui/painter.rs:46-61 | the layout, the linear sampler, no textures, images or pending frees |
| EguiPainter.EguiOnVulkanoPainter.New | src/engine/system/vulkan/egui/painter.rs:46-61 | a painter with the linear sampler and empty maps; a pipeline failure, else a sampler failure, is the error |
| EguiPainter.EguiOnVulkanoPainter.Draw | src/engine/system/vulkan/egui/painter.rs:128-211 | binds the pipeline first, then, when something is kept and both buffers are made, every known mesh's commands; a failed buffer leaves only the pipeline bind and reports the error |
| EguiPainter.EguiOnVulkanoPainter.RecordMeshes | src/engine/system/vulkan/egui/painter.rs:175-207 | the loop records every known mesh's commands, in order |
| EguiPainter.EguiOnVulkanoPainter.RecordMesh | src/engine/system/vulkan/egui/painter.rs:178-206 | one mesh's scissor, slices, bind, push and draw |
| EguiPainter.EguiOnVulkanoPainter.UpdateTexture | src/engine/system/vulkan/egui/painter.rs:246-268 | a partial delta copies into the image under its id and panics when there is none; a whole delta installs a new image and descriptor set, each failure its own error; the copy's failures are the staging and copy errors; anything but success records nothing |
| EguiPainter.EguiOnVulkanoPainter.CreateTexture | src/engine/system/vulkan/egui/painter.rs:247-263 | a new image of the delta's size and its descriptor set under the id, or the first failure with nothing changed |
| EguiPainter.EguiOnVulkanoPainter.UpdateTextures | src/engine/system/vulkan/egui/painter.rs:238-272 | queues the ids to free, then applies the updates in order, each installing only its own id and appending one copy into the image that id then holds; success exactly when all succeed, and otherwise the outcome of the first entry that panics or fails, with the entries before it applied |
| EguiPainter.EguiOnVulkanoPainter.ApplyUpdate | src/engine/system/vulkan/egui/painter.rs:246-268 | panics exactly for a patch of an id with no image; otherwise returns the first failing call's error, or success, which installs only its own id and appends one copy into that id's image; a failure records nothing and changes at most its own id's image |
| EguiExtensions.ZoomRequest | src/engine/system/egui/extensions.rs:7-15 | a zoom exactly when there is an interaction position and the vertical scroll is non-zero: up multiplies by 1.2, down divides, at that position |
| EguiExtensions.AfterZoomInput | src/engine/system/egui/extensions.rs:7-15 | one frame of scroll input: the zoom stays positive, no request leaves the camera as it was, and a request keeps the world point under the mouse in place |
| EguiExtensions.ScrollUpThenDownRestoresView | src/engine/system/egui/extensions.rs:7-15 | a frame scrolling up and then one scrolling down at the same mouse position give back the same zoom and view position |
| EguiExtensions.UpdateZoomAtScreenPosition | src/engine/system/egui/extensions.rs:6-18 | without a request the view is unchanged; otherwise it is zoomed to the new level about the mouse position |
| EguiExtensions.UpdateViewPositionByDragDelta | src/engine/system/egui/extensions.rs:22-27 | while decidedly dragging the view moves by the mouse's movement; otherwise it is unchanged |
| EguiBinding.DefaultInput | src/engine/system/egui/binding.rs:17-27 | the root viewport with its default info, no events, files or modifiers |
| EguiBinding.KeyFor | src/engine/system/egui/binding.rs:116-211 | no egui key exactly for unmapped keycodes, F21 and above, and the modifier keys |
| EguiBinding.KeyForInjective | src/engine/system/egui/binding.rs:116-196 | different keycodes never map to the same key |
| EguiBinding.KeyForOnto | src/engine/system/egui/binding.rs:116-196 | every egui key up to F20 has a keycode mapping to it |
| EguiBinding.OnCurrentViewport | src/engine/system/egui/binding.rs:303-308 | changes the current viewport's info, and only it; without a current viewport nothing changes |
| EguiBinding.Applied | src/engine/system/egui/binding.rs:112-301 | an SDL event only appends events, touches the files, modifiers or viewports, never the rest of the input |
| EguiBinding.WindowApplied | src/engine/system/egui/binding.rs:273-298 | a window event adds no input events |
| EguiBinding.KeyApplied | src/engine/system/egui/binding.rs:113-220 | a key event only appends events or sets modifiers |
| EguiBinding.ButtonFor | src/engine/system/egui/binding.rs:234-239 | a pointer button exactly for the left, middle and right mouse buttons |
| EguiBinding.ButtonApplied | src/engine/system/egui/binding.rs:228-246 | a mouse button event only appends events |
| EguiBinding.Dropped | src/engine/system/egui/binding.rs:258-268 | one dropped file per hovered file, with its path and nothing else |
| EguiBinding.ModifierKeysOnlySetFlags | src/engine/system/egui/binding.rs:197-209 | a modifier key adds no event and sets only its own flags, ctrl setting command too |
| EguiBinding.KeyEventsOfMappedKeys | src/engine/system/egui/binding.rs:113-220 | a mapped key appends one key event with the current modifiers; an unmapped one changes nothing |
| EguiBinding.ButtonEvents | src/engine/system/egui/binding.rs:228-246 | a mapped button appends one pointer-button event at the position with the current modifiers; others change nothing |
| EguiBinding.DropEvents | src/engine/system/egui/binding.rs:251-269 | a dropped file is added to the hovered ones; completion moves all of them, in order, to the dropped files |
| EguiBinding.WindowEvents | src/engine/system/egui/binding.rs:273-288 | minimising and maximising set both flags of the current viewport; without one nothing changes |
| EguiBinding.Sdl2EguiMapping.constructor | src/engine/system/egui/binding.rs:17-27 | the mapping starts from the default input |
| EguiBinding.Sdl2EguiMapping.TakeInput | src/engine/system/egui/binding.rs:31-45 | hands out the input stamped with the time, and keeps it without events, files or modifiers |
| EguiBinding.Sdl2EguiMapping.SetSdl2ViewArea | src/engine/system/egui/binding.rs:92-102 | the screen rectangle becomes the area |
| EguiBinding.Sdl2EguiMapping.SetFullscreen | src/engine/system/egui/binding.rs:108-110 | the current viewport's fullscreen flag is set |
| EguiBinding.Sdl2EguiMapping.OnCurrentViewportMut | src/engine/system/egui/binding.rs:303-308 | applies the change to the current viewport |
| EguiBinding.Sdl2EguiMapping.OnSdl2Event | src/engine/system/egui/binding.rs:112-301 | the input after the event |
| EguiBinding.Sdl2EguiMapping.OnWindowEvent | src/engine/system/egui/binding.rs:273-298 | the input after the window event |
| EguiBinding.Sdl2EguiMapping.OnKey | src/engine/system/egui/binding.rs:113-220 | the input after the key event |
| EguiBinding.Sdl2EguiMapping.OnButton | src/engine/system/egui/binding.rs:228-246 | the input after the button event |
| EguiBinding.Drained | src/engine/system/egui/binding.rs:31-45 | no events, files or modifiers; everything else kept |
| EguiBinding.ViewArea | src/engine/system/egui/binding.rs:92-102 | a rectangle at the area's position with its size |
| EguiBinding.SystemCursorFor | src/engine/system/egui/binding.rs:47-85 | the arrow for the default-like icons, the hand for pointing and dragging ones, "no" for the forbidden ones, never the wait cursor |
| EguiIntegration.IsKeyPressed | src/engine/system/egui/mod.rs:139-147 | true exactly when some event is that key going down |
| EguiIntegration.KeyPressedAfterAppend | src/engine/system/egui/mod.rs:139-147 | appending events keeps a pressed key pressed |
| EguiIntegration.InjectShortcuts | src/engine/system/egui/mod.rs:123-137 | only the events change, by at most one appended event; with the command modifier a pressed C adds a copy, else X a cut, else V a paste of the clipboard's text when it can be read, and the clipboard is read exactly on the paste path |
| EguiIntegration.InjectionKeepsPressedKeys | src/engine/system/egui/mod.rs:123-147 | injecting never changes which keys are pressed |
| EguiIntegration.CursorUpdate | src/engine/system/egui/mod.rs:82-94 | the icon is remembered, and applied exactly when it differs from the remembered one |
| EguiIntegration.CursorAppliedOnce | src/engine/system/egui/mod.rs:82-94 | the same icon twice in a row is applied at most once |
| EguiIntegration.EguiSystem.constructor | src/engine/system/egui/mod.rs:12-23 | a new mapping with the default input, no cursor, zero size and nothing to paint |
| EguiIntegration.EguiSystem.OnSdl2Event | src/engine/system/egui/mod.rs:32-34 | the mapping's input after the event |
| EguiIntegration.EguiSystem.SetSdl2ViewArea | src/engine/system/egui/mod.rs:47-52 | the area's size becomes the system's and the area the mapping's screen rectangle |
| EguiIntegration.EguiSystem.Update | src/engine/system/egui/mod.rs:61-112 | egui runs on the gathered input stamped with the time and with shortcuts injected; the mapping is drained; the cursor is set only when the icon changed and SDL could make it; the delta and primitives are kept |
| EguiBinding.Sdl2EguiMapping.SetTargetFrameRate | src/engine/system/egui/binding.rs:104-106 | only egui's predicted frame time changes, to one frame at the rate |
| EguiIntegration.EguiSystem.SetTargetFrameRate | src/engine/system/egui/mod.rs:37-39 | the mapping's predicted frame time becomes one frame at the rate |
| EguiIntegration.EguiSystem.SetFullscreen | src/engine/system/egui/mod.rs:42-44 | the mapping's current viewport takes the fullscreen flag |
| MapView.ScaleCancels | src/support/world2d/view.rs:43-52 | scaling by the zoom and dividing by it cancel |
| MapView.WorldScreenRoundTrip | src/support/world2d/view.rs:41-54 | a world position mapped to the screen and back is unchanged |
| MapView.ScreenWorldRoundTrip | src/support/world2d/view.rs:41-54 | a screen position mapped to the world and back is unchanged |
| MapView.ViewPositionAtScreenCentre | src/support/world2d/view.rs:41-46 | the view position appears at the centre of the screen |
| MapView.DistanceIsPositionDifference | src/support/world2d/view.rs:41-59 | a world distance on screen is the difference of its two ends' screen positions |
| MapView.MoveShiftsScreenImage | src/support/world2d/view.rs:30-33 | moving by a screen delta keeps the zoom and shifts every world point's screen image by that delta |
| MapView.ZoomKeepsPointUnderCursor | src/support/world2d/view.rs:61-70 | zooming at a screen position sets the zoom, keeps the screen size, and keeps the world point under that position |
| MapView.ZoomAtCentreKeepsView | src/support/world2d/view.rs:61-70 | zooming at the screen centre keeps the view position |
| MapView.ZoomBackRestores | src/support/world2d/view.rs:61-70 | zooming back to the old zoom at the same screen position restores the camera exactly |
| MapView.Map2dView.constructor | src/support/world2d/view.rs:13-21 | the screen size, the view at the origin and zoom 1 |
| MapView.Map2dView.UpdateScreenSize | src/support/world2d/view.rs:24-27 | only the screen size changes |
| MapView.Map2dView.MoveByScreenDelta | src/support/world2d/view.rs:30-33 | the view moves by the screen delta divided by the zoom, against it |
| MapView.Map2dView.UpdateZoomAtScreenPosition | src/support/world2d/view.rs:61-70 | the new zoom about the position, whose world point stays the same |
| MapView.Map2dView.ToWorld2dView | src/support/world2d/view.rs:73-75 | the uniform uploads the view position and zoom |
| MapView.Map2dView.Zoom | src/support/world2d/view.rs:35-38 | the camera's zoom |
| MapView.Map2dView.PositionWorldToScreen | src/support/world2d/view.rs:40-46 | the view position lands on the screen's centre, and with a non-zero zoom screen-to-world recovers the world position |
| MapView.Map2dView.PositionScreenToWorld | src/support/world2d/view.rs:48-54 | the world position that world-to-screen maps back to the given screen position, so the screen's centre shows the view position |
| MapView.Map2dView.DistanceWorldToScreenOf | src/support/world2d/view.rs:56-59 | the on-screen distance between the images of the origin and of the world offset |
| BufferedLayers.ActionItems | src/engine/system/canvas/buffered_layer.rs:145-148 | the lines or the textured triangles the action holds, in order |
| BufferedLayers.FlattenSnoc | src/engine/system/canvas/buffered_layer.rs:121-141 | one more action adds its own items after the others |
| BufferedLayers.LineCountSnoc | src/engine/system/canvas/buffered_layer.rs:145-148 | one more line action adds its lines to the count |
| BufferedLayers.CoalescedSnoc | src/engine/system/canvas/buffered_layer.rs:60-64 | a non-empty action of the other kind keeps neighbouring actions of different kinds |
| BufferedLayers.CoalescedReplaceLast | src/engine/system/canvas/buffered_layer.rs:60-61 | growing the last action keeps the actions coalesced |
| BufferedLayers.AppendLineSpec | src/engine/system/canvas/buffered_layer.rs:60-64 | a line joins the last action when it holds lines and starts a new one otherwise: the actions stay coalesced and the items gain exactly that line |
| BufferedLayers.AppendTexturedSpec | src/engine/system/canvas/buffered_layer.rs:108-112 | textured triangles join the last action when it is textured and start a new one otherwise, with the same guarantees |
| BufferedLayers.RectPath | src/engine/system/canvas/buffered_layer.rs:40-46 | a closed path of five points round the axis-aligned rectangle from the position with the dimensions |
| BufferedLayers.TexturedRectVertices | src/engine/system/canvas/buffered_layer.rs:76-84 | two triangles over the rectangle, sharing the diagonal, each vertex at the position plus its UV corner times the dimensions |
| BufferedLayers.BufferedCanvasLayer.From | src/engine/system/canvas/buffered_layer.rs:16-24 | the size, no actions, and white |
| BufferedLayers.BufferedCanvasLayer.SetDrawColor | src/engine/system/canvas/buffered_layer.rs:27-29 | only the colour changes |
| BufferedLayers.BufferedCanvasLayer.DrawPath | src/engine/system/canvas/buffered_layer.rs:49-65 | appends one line of the positions in the current colour, coalescing with a trailing line action |
| BufferedLayers.BufferedCanvasLayer.DrawLine | src/engine/system/canvas/buffered_layer.rs:32-34 | the path of the two points |
| BufferedLayers.BufferedCanvasLayer.DrawRect | src/engine/system/canvas/buffered_layer.rs:37-47 | the rectangle's closed path |
| BufferedLayers.BufferedCanvasLayer.DrawTexturedTriangles | src/engine/system/canvas/buffered_layer.rs:90-113 | appends one textured item, coalescing with a trailing textured action |
| BufferedLayers.BufferedCanvasLayer.DrawTexturedRect | src/engine/system/canvas/buffered_layer.rs:68-88 | the two textured triangles over the rectangle |
| BufferedLayers.BufferedCanvasLayer.SubmitToRenderPass | src/engine/system/canvas/buffered_layer.rs:115-142 | one submission per action, in order |
| BufferedLayers.Submissions | src/engine/system/canvas/buffered_layer.rs:121-141 | one submission per action |
| BufferedLayers.SubmissionAt | src/engine/system/canvas/buffered_layer.rs:121-141 | submission i is action i's |
| BufferedLayers.SubmissionsFlatten | src/engine/system/canvas/buffered_layer.rs:121-141 | the submissions draw exactly the items drawn onto the layer, in order |
| BufferedLayers.SubmissionsAtSize | src/engine/system/canvas/buffered_layer.rs:125-135 | every submission uses the layer's size |
| BufferedLayers.SubmissionsAlternate | src/engine/system/canvas/buffered_layer.rs:121-141 | consecutive submissions go to different systems |
| BufferedLayers.SubmissionsReplayDraws | src/engine/system/canvas/buffered_layer.rs:115-142 | the submissions replay every drawn item in order, at the layer's size, alternating between the systems |
| Interpolated.StepNeverOvershoots | src/support/interpolated/scalar.rs:52-57 | a step goes the difference's way and never past it |
| Interpolated.StepIsFraction | src/support/interpolated/scalar.rs:52-57 | for a factor in [0, 1] the step is that fraction of the difference |
| Interpolated.RadialDiffShortest | src/support/interpolated/scalar.rs:32-41 | between angles in [0, 360) the difference is at most half a turn and reaches the same angle modulo a turn |
| Interpolated.RadialResultWraps | src/support/interpolated/scalar.rs:42 | unless the angle sinks 20 turns below zero, the result is in [0, 360) and equals the plain sum modulo a turn |
| Interpolated.RadialResultBelowRange | src/support/interpolated/scalar.rs:42 | below that bound the remainder is negative |
| Interpolated.LinearNextBetween | src/support/interpolated/scalar.rs:20-26 | the linear update stays between the current value and the target, and a reached target stays |
| Interpolated.LinearNextInterpolates | src/support/interpolated/scalar.rs:20-26 | for a factor in [0, 1] the linear update moves that fraction of the way |
| Interpolated.InterpolatedScalar.From | src/support/interpolated/scalar.rs:8-16 | current and target are the value |
| Interpolated.InterpolatedScalar.UpdateWith | src/support/interpolated/scalar.rs:46-59 | the current value becomes the result of the clamped step of the difference; the target stays |
| Interpolated.InterpolatedScalar.Update | src/support/interpolated/scalar.rs:20-26 | the current value moves by the clamped step towards the target |
| Interpolated.InterpolatedScalar.UpdateRadialDegrees | src/support/interpolated/scalar.rs:29-44 | the current angle moves by the clamped step of the wrapped difference, then wraps |
| Interpolated.InterpolatedScalar.Set | src/support/interpolated/scalar.rs:62-65 | current and target are the value |
| Interpolated.InterpolatedScalar.SetTarget | src/support/interpolated/scalar.rs:68-70 | only the target changes |
| Interpolated.InterpolatedScalar.Current | src/support/interpolated/scalar.rs:72-75 | the value reached so far |
| Interpolated.InterpolatedPosition.constructor | src/support/interpolated/position.rs:9-15 | both coordinates start at rest at the given point |
| Interpolated.InterpolatedPosition.Update | src/support/interpolated/position.rs:17-20 | both coordinates move towards their targets; the targets stay |
| Interpolated.InterpolatedPosition.Set | src/support/interpolated/position.rs:23-26 | both coordinates are at rest at the point |
| Interpolated.InterpolatedPosition.SetTarget | src/support/interpolated/position.rs:29-32 | only the targets change |
| Interpolated.InterpolatedPosition.Current | src/support/interpolated/position.rs:35-37 | the two current values |
| SpriteSheets.WithNamesSpec | src/support/sprite_sheet/mod.rs:32-34 | after filing names under an index, a key is filed iff it was before or is one of the names; the names point at the index and every other key keeps its sprite |
| SpriteSheets.WithOneName | src/support/sprite_sheet/mod.rs:32-34 | filing one name is a single map update |
| SpriteSheets.SpriteSheet.constructor | src/support/sprite_sheet/mod.rs:17-23 | the size, no sprites, no names |
| SpriteSheets.SpriteSheet.Add | src/support/sprite_sheet/mod.rs:25-35 | the sprite is appended and its names filed under its index; the size stays and every name keeps pointing at an existing sprite |
| SpriteSheets.SpriteSheet.At | src/support/sprite_sheet/mod.rs:66-73 | the sprite at that position, and a panic exactly when the position is past the sprites |
| SpriteSheets.SpriteSheet.Named | src/support/sprite_sheet/mod.rs:75-82 | the sprite the name is filed under; a panic exactly when the name is unknown or filed past the sprites, which on a valid sheet means exactly an unknown name |
| SpriteSheets.SpriteSheet.Names | src/support/sprite_sheet/mod.rs:37-40 | on a valid sheet, exactly the names that look up a sprite without panicking |
| SpriteSheets.SpriteSheet.Iter | src/support/sprite_sheet/mod.rs:42-45 | the sprites in insertion order: position i holds what indexing at i returns |
| SpriteSheets.UvSprites | src/support/sprite_sheet/mod.rs:53-60 | one UV sprite per pixel sprite, in order |
| SpriteSheets.UvSpriteInUnitSquare | src/support/sprite_sheet/mod.rs:56-59 | a sprite inside the sheet becomes a rectangle inside the unit square |
| SpriteSheets.IntoUv | src/support/sprite_sheet/mod.rs:49-63 | the size as reals, each sprite divided by it, the same names, and names still point at sprites |
| SpriteSheetGrid.Decimal | src/support/sprite_sheet/generator.rs:17 | at least one character, every one a decimal digit |
| SpriteSheetGrid.DecimalInjective | src/support/sprite_sheet/generator.rs:17 | different numbers print differently |
| SpriteSheetGrid.CellNameInjective | src/support/sprite_sheet/generator.rs:17 | a cell's name determines its column and row |
| SpriteSheetGrid.Row | src/support/sprite_sheet/generator.rs:11-19 | a row holds one square per column, at that column's offset |
| SpriteSheetGrid.GridLength | src/support/sprite_sheet/generator.rs:10-20 | rows times columns sprites |
| SpriteSheetGrid.GridAt | src/support/sprite_sheet/generator.rs:10-20 | row-major: cell (x, y) is sprite y · cols + x |
| SpriteSheetGrid.AddRow | src/support/sprite_sheet/generator.rs:11-19 | adding a row extends the grid by that row and files exactly its cell names at their row-major positions |
| SpriteSheetGrid.Generate | src/support/sprite_sheet/generator.rs:7-23 | panics iff the sprite size is zero; otherwise the sheet of the given size holds the whole grid, with exactly the cell names filed |
| SpriteSheetGrid.GridInsideSheet | src/support/sprite_sheet/generator.rs:10-16 | every generated sprite is a square of the sprite size that ends inside the sheet's width and height |
| SpriteSheetGrid.GridUvInUnitSquare | src/support/sprite_sheet/generator.rs:10-16 | every generated sprite, in UV units of the sheet, lies inside the unit square |
| SpriteSheetGrid.NamedGrid | src/support/sprite_sheet/generator.rs:7-23 | in a generated sheet, the name of cell (x, y) leads to that cell's sprite |
| XmlTextureAtlas.SpritesOf | src/support/sprite_sheet/xml_texture_atlas.rs:16-22 | one sprite per sub-texture, with its position and size |
| XmlTextureAtlas.NameIndexOfSpec | src/support/sprite_sheet/xml_texture_atlas.rs:15-23 | a name is filed iff some sub-texture carries it, under the last one that does |
| XmlTextureAtlas.LoadFromStr | src/support/sprite_sheet/xml_texture_atlas.rs:8-25 | a deserialisation error is passed on; otherwise the sheet of the given size with the sub-textures' sprites in UV units and their names |
| SpriteAnimations.SpriteAnimationLoader.WithPadding | src/support/sprite_animation.rs:23-26 | the same padding on all four sides; the sprite size stays |
| SpriteAnimations.SpriteAnimationLoader.WithSpriteSize | src/support/sprite_animation.rs:28-31 | the sprite size is set; the padding stays |
| SpriteAnimations.NewLoader | src/support/sprite_animation.rs:15-21 | no padding and no sprite size |
| SpriteAnimations.FrameSize | src/support/sprite_animation.rs:63-66 | the configured size, or a square of the image's shorter side |
| SpriteAnimations.StripDirection | src/support/sprite_animation.rs:73-77 | a wide image steps horizontally and a tall one vertically, with as many frames as the longer side holds whole squares of the shorter, at least one |
| SpriteAnimations.LoadSpritesFromTexture | src/support/sprite_animation.rs:54-106 | nothing iff the texture has no id for the pipeline; otherwise one frame per strip element, frame i at its place |
| SpriteAnimations.FrameCorners | src/support/sprite_animation.rs:84-102 | each frame carries the id and covers its padded rectangle of the view |
| SpriteAnimations.WideStripSteps | src/support/sprite_animation.rs:84-95 | successive frames of a wide strip are one frame width apart and level |
| SpriteAnimations.DefaultWideFramesInside | src/support/sprite_animation.rs:63-95 | with default frames and a non-negative right padding, every frame of a wide strip ends inside the image |
| TileMaps.TileMapLoader.WithTileSize | src/support/tile_map.rs:22-25 | the loader cuts tiles of the given size |
| TileMaps.DefaultLoader | src/support/tile_map.rs:11-20 | 64 by 64 pixel tiles |
| TileMaps.TileRow | src/support/tile_map.rs:43-60 | a row holds one tile per column |
| TileMaps.TilesLength | src/support/tile_map.rs:41-62 | rows times columns tiles |
| TileMaps.TilesAt | src/support/tile_map.rs:41-62 | row-major: tile (x, y) is number y · cols + x |
| TileMaps.TileCount | src/support/tile_map.rs:37-38 | whole tiles across a length; some only when the length is positive |
| TileMaps.CutTiles | src/support/tile_map.rs:37-65 | rows times columns tiles, with the counts stored truncated to 16 bits |
| TileMaps.LoadTilesFromTexture | src/support/tile_map.rs:27-66 | nothing iff the texture has no id for the pipeline; otherwise the tiles cut from the view's size |
| TileMaps.CutTileAt | src/support/tile_map.rs:44-59 | tile (x, y) carries the id and covers the view's sub-rectangle of that tile |
| TileMaps.TilesInsideView | src/support/tile_map.rs:37-51 | only whole tiles are cut: every tile ends inside the view |
| TileMaps.TilesAdjacent | src/support/tile_map.rs:44-51 | neighbouring tiles share their edge |
| TileMaps.Width | src/support/tile_map.rs:94-97 | the map's width in tiles |
| TileMaps.Height | src/support/tile_map.rs:99-102 | the map's height in tiles |
| TileMaps.GetTile | src/support/tile_map.rs:105-107 | a tile iff y · width + x is in range, and then that tile |
| TileMaps.Index | src/support/tile_map.rs:110-117 | the tile at y · width + x, and a panic exactly when that position is past the tiles |
| TileMaps.GetTileOverrunsRow | src/support/tile_map.rs:105-107 | an unchecked column runs over into the next row |
| TileMaps.GetTileOfCut | src/support/tile_map.rs:37-107 | on a cut map narrower than 65536 tiles, get_tile finds the tile cut at (x, y) |
| TileMaps.IndexOfCut | src/support/tile_map.rs:37-117 | indexing a cut map at one of its cells returns the tile cut there and never panics |
| Ttf.EntryLifetime | src/engine/system/ttf/mod.rs:41-53 | an entry with counter c survives exactly 255 − c unused frames, aging one step per frame with its texture and size unchanged |
| Ttf.AgingOnlyEvicts | src/engine/system/ttf/mod.rs:41-53 | aging never adds an entry |
| Ttf.Latest | src/engine/system/ttf/mod.rs:164-170 | the last rendering of a text is a rendering of that text |
| Ttf.LatestIsLast | src/engine/system/ttf/mod.rs:164-170 | that rendering is in the queue and no later rendering of the text follows it |
| Ttf.Quad | src/engine/system/ttf/mod.rs:107-133 | six vertices forming two triangles that share a diagonal, each at the corner its UV names scaled by the size |
| Ttf.FontRenderer.constructor | src/engine/system/ttf/mod.rs:29-39 | no dummy texture, an empty cache, no requests, an empty result queue |
| Ttf.FontRenderer.RenderCompleted | src/engine/system/ttf/mod.rs:164 | the font thread's rendering joins the back of the result queue; nothing else changes |
| Ttf.FontRenderer.OnFrameCompleted | src/engine/system/ttf/mod.rs:41-53 | the cache is aged by one frame; nothing else changes |
| Ttf.FontRenderer.AdvanceCounters | src/engine/system/ttf/mod.rs:42-49 | the same keys, each counter up to 254 advanced by one, and exactly the keys past 254 set aside |
| Ttf.FontRenderer.RemoveAll | src/engine/system/ttf/mod.rs:50-52 | exactly the given keys leave the cache; the other entries stay |
| Ttf.FontRenderer.RetrieveThreadedUpdates | src/engine/system/ttf/mod.rs:159-171 | panics iff a rendering is waiting and an allocation fails; otherwise the queue is drained, each text cached from its latest rendering at counter 0, and one upload queued per rendering in order |
| Ttf.FontRenderer.GetOrCreateDummyTexture | src/engine/system/ttf/mod.rs:138-157 | an existing dummy is returned with no upload; otherwise one 1×1 transparent image is uploaded and its texture remembered, panicking iff an allocation fails |
| Ttf.FontRenderer.PrepareRender | src/engine/system/ttf/mod.rs:57-136 | after the renderings are taken in, a cached text has its counter reset and is drawn with its texture and size; an uncached one is requested once and cached with the dummy at 1×1; the result is the quad over the cached size |
| Fps.TargetDuration | src/engine/system/fps.rs:35-37 | panics iff the rate is zero; otherwise a positive duration that times the rate is one second |
| Fps.Elapsed | src/engine/system/fps.rs:23 | the time since the instant, never negative |
| Fps.Slept | src/engine/system/fps.rs:20-32 | nothing on the first frame; otherwise a sleep iff the frame is shorter than the target, and then up to the target |
| Fps.FramePaced | src/engine/system/fps.rs:20-32 | from the recorded instant to the end of the sleep a frame lasts at least the target duration |
| Fps.FpsManager.New | src/engine/system/fps.rs:9-14 | panics iff the rate is zero; otherwise no instant and the duration of one frame |
| Fps.FpsManager.SetTargetFrameRate | src/engine/system/fps.rs:16-18 | the duration follows the new rate; the instant stays |
| Fps.FpsManager.Delay | src/engine/system/fps.rs:20-32 | sleeps what the frame has left and always records the instant after |
| VulkanFps.FpsManager.New | src/engine/system/vulkan/fps.rs:10-16 | panics iff the rate is zero; otherwise the rate, no instant and the duration of one frame |
| VulkanFps.FpsManager.SetTargetFrameRate | src/engine/system/vulkan/fps.rs:18-20 | only the stored rate changes |
| VulkanFps.FpsManager.Delay | src/engine/system/vulkan/fps.rs:22-34 | sleeps what the frame has left; a sleep leaves no instant, otherwise the instant after is recorded |
| VulkanFps.RateChangeIgnored | src/engine/system/vulkan/fps.rs:18-20 | a manager made for 60 keeps pacing to 1/60 s after the rate is set to 30 |
| VulkanFps.FrameAfterSleepUnpaced | src/engine/system/vulkan/fps.rs:22-34 | at 50 frames per second the frame after a sleep is not paced |
| VulkanFps.FrameAfterSleepPaced | src/engine/system/fps.rs:20-32 | the system manager paces that same frame |
| Builder.Default | src/engine/builder.rs:96-112 | no icon, the default title, 1024 by 768, windowed, 60 frames per second, no clear colour, font or multisampling |
| Builder.WithWindowIcon | src/engine/builder.rs:34-37 | only the icon changes |
| Builder.WithWindowTitle | src/engine/builder.rs:40-43 | only the title changes |
| Builder.WithWindowWidth | src/engine/builder.rs:46-49 | only the width changes |
| Builder.WithWindowHeight | src/engine/builder.rs:52-55 | only the height changes |
| Builder.WithFullscreen | src/engine/builder.rs:58-61 | only the fullscreen flag changes |
| Builder.WithTargetFrameRate | src/engine/builder.rs:64-67 | only the frame rate changes |
| Builder.WithBackgroundClearColor | src/engine/builder.rs:70-73 | only the clear colour changes |
| Builder.WithTtfFontRenderer | src/engine/builder.rs:76-82 | only the font changes |
| Builder.WithMsaa | src/engine/builder.rs:85-88 | only the multisampling changes |
| RawImage.New | src/support/image.rs:11-17 | the accessors return the bytes, width and height it was made with |
| RawImage.Data | src/support/image.rs:19-22 | the stored bytes |
| RawImage.Width | src/support/image.rs:24-27 | the stored width |
| RawImage.Height | src/support/image.rs:29-32 | the stored height |
| RawImage.Destruct | src/support/image.rs:35-37 | the parts are what the accessors return |
| RawImage.DestructRoundTrip | src/support/image.rs:11-37 | taking apart what new built gives its arguments back, and building from an image's parts gives the image back |
| Base.CastU32 | src/support/tile_map.rs:37-38 | Rust's float-to-u32 cast: zero at or below zero, the whole part in range, and the maximum beyond it |
| Base.TruncU16 | src/support/tile_map.rs:63-64 | Rust's cast to u16: below 65536 and the value itself when it fits |
| Base.TruncU32 | src/engine/system/vulkan/egui/painter.rs:280-281 | Rust's cast to u32: at most the maximum and the value itself when it fits |

## Left out

- Device and frame plumbing are not modelled: src/engine/system/vulkan/system.rs, src/engine/system/vulkan/mod.rs, the engine loop and the demo program. They are driver queries, window setup and I/O.
- Pipeline construction (`create_pipeline`, shader loading, buffer and sampler creation) is not modelled: these are thin vulkano wrappers. A buffer is the `seq` of its contents, and whether creating it succeeds is a boolean parameter.
- The GLSL shader programs are not part of this model, so fragment colour, blending, discard and sampling are not modelled.
- Errors returned by vulkano's command-recording calls are not modelled (the `?` on binds, pushes, scissors and draws, including the painter's `draw_indexed`): recording always succeeds.
- Image decoding (src/engine/system/texture/loader.rs), the egui image helpers of src/engine/system/texture/mod.rs, SDL icon blitting and src/engine/system/egui/styling.rs are left out: they only call foreign libraries.
- `SpriteAnimationLoader::load_sprites` is left out: it decodes and uploads an image and then unwraps `load_sprites_from_texture`, which is modelled.
- `EguiSystem::update` takes egui's run, tessellation, clipboard and system cursor as parameters: `context.run`, `tessellate`, the clipboard closure and `Cursor::from_system` are foreign. `wants_input` and `context` only ask egui and are left out. SDL's clamping of rectangle sizes is not modelled.
- `EguiSystem::update` does not model the platform output's commands: each `OutputCommand::CopyText` is written to the SDL clipboard and a failure is only logged (src/engine/system/egui/mod.rs:96-105), and `CopyImage` and `OpenUrl` are ignored. None of this changes the system's state.
- `with_injected_shortcuts` is the input half of `EguiIntegration.InjectShortcuts`.
- The font thread (`FontRendererThread`) is threaded and foreign. Its requests form the log `requests`, and each finished rendering reaches the result queue through `Ttf.FontRenderer.RenderCompleted`. A send to a disconnected channel is only logged, so a failed send is not modelled.
- The lock-free `SegQueue`s are sequential FIFO queues, and the egui painter's `RwLock`s are plain fields.
- Font rasterisation and the font atlas' coverage-to-sRGBA conversion are not modelled: a font image carries its sRGBA pixels.
- `ImageSystem::update_image` is called by src/engine/system/vulkan/egui/mod.rs but is not defined in src/engine/system/vulkan/textures/image.rs. The call is modelled as one copy of the delta's region into the image (`EguiMeshes.UploadCopy`).
- The painter takes `set_layouts()[0]` as the layout of its descriptor sets.
- `f32` is modelled as an exact real number. Rounding, infinities and NaN are not represented, so divisions by a zero float are excluded; each such exclusion is listed below.
- MapView: a zero zoom divides by zero in `f32` and gives infinite or NaN coordinates rather than a panic; `ScreenToWorld`, `MovedBy`, `ZoomedAt`, `Map2dView.MoveByScreenDelta`, `Map2dView.PositionScreenToWorld`, `Map2dView.UpdateZoomAtScreenPosition` and the lemmas about them require a non-zero zoom.
- `hotrod_draw` and `hotrod_draw_indexed` are engine extension methods on the command buffer builder that none of the modelled files define; the calls in src/engine/system/vulkan/triangles/mod.rs, lines/mod.rs and glowing_balls/mod.rs are recorded as plain `Draw` and `DrawIndexed` commands.
- `usize`, `u32`, `u64` and `i32` counts and offsets are unbounded naturals. A vertex or index count past `u32::MAX` is not modelled, nor is a vertex offset past `i32::MAX` in the `as i32` casts of src/engine/system/vulkan/textured/mod.rs:216, src/engine/system/vulkan/triangles/mod.rs:232 and src/engine/system/vulkan/egui/mod.rs:309.
- Fps.FpsManager.Delay: the clock is passed in: `now` is read before the sleep decision and `after` once the sleep is over. The sleep itself is the returned duration, and `Duration`'s nanosecond rounding is not modelled.
- VulkanFps.FpsManager.Delay: the same clock abstraction as `Fps.FpsManager.Delay`.
- Interpolated.InterpolatedScalar.Update: the factor `(8/9)^(dt·1000)` is the parameter `factor`, since `powf` is not modelled. The same holds for `UpdateRadialDegrees`, `UpdateWith` and `InterpolatedPosition.Update`.
- Uniforms.Update: a descriptor that is not a buffer write reaches `unimplemented!()` in the source; the model excludes it by precondition.
- SpriteSheets.IntoUv: a zero sheet size with sprites to divide gives infinite or NaN coordinates in `f32`; the model excludes it by precondition.
- XmlTextureAtlas.LoadFromStr: the same exclusion as `SpriteSheets.IntoUv`, and parsing the XML is a parameter (its result or `MalformedXml`).
- SpriteAnimations.LoadSpritesFromTexture: an empty memory image makes the integer divisions panic; the model excludes it by precondition.
- TileMaps.LoadTilesFromTexture: a zero tile size divides by zero in `f32`; the model excludes it by precondition.
- TileMaps.GetTile: `y * width + x` past 65535 overflows `u16`; the model excludes it by precondition.
- TileMaps.Index: the same `u16` exclusion as `TileMaps.GetTile`.
- EguiVulkan.EguiPipeline.UpdateTextures: a panic at entry `stop` is stated through its cause, but a failed sampler creation is not tied to the sampler cache missing the entry's options, because the cache at that point is not part of the image history; `ApplyUpdate` states it for one entry.
- EguiExtensions.UpdateZoomAtScreenPosition: requires a positive zoom, because a zoom of zero divides by zero in `f32`.
- EguiExtensions.UpdateViewPositionByDragDelta: requires a non-zero zoom, for the same reason.
- EguiBinding.Sdl2EguiMapping.SetTargetFrameRate: a zero rate gives an infinite frame time in `f32`; the model excludes it by precondition.
- EguiIntegration.EguiSystem.SetTargetFrameRate: the same exclusion as the mapping's.
- BeautifulLines.LineScissor: the initial scissor's coordinates must fit in `u32`, as its type guarantees in the source.
- BeautifulLines.SubU32: models the wrap-around of a release build; a debug build panics on the overflow of `scissor.dimensions[0] -= scissor.origin[0]` (src/engine/system/vulkan/beautiful_lines/mod.rs:142-143) instead. Neither happens in the source: from `Scissor::irrelevant()` the origin stays 0. Only the general `initial` scissor of `BeautifulLines.LineScissor` reaches the wrap.
- Ttf.FontRenderer.RetrieveThreadedUpdates: one `Allocation` flag set covers every upload of the call, so a failure part-way through the queue is not distinguished from one at its start.
- Builder: `instance_info` (from Cargo metadata) and `build` (`Engine::new`) are left out, as foreign setup.

## Findings

| source | as written | input that shows it | evidently intended | confidence | as-written member | corrected member |
|---|---|---|---|---|---|---|
| src/engine/system/vulkan/beautiful_lines/mod.rs:135-143 | the scissor starts from `Scissor::irrelevant()`, and a min/max over the vertices never shrinks it | any line within the first 2^31 pixels, e.g. one from (10, 10) to (20, 20), gets the whole-framebuffer scissor | the scissor bounds the line's vertices, starting from an empty box | not executed | BeautifulLines.IrrelevantScissorIgnoresLine | BeautifulLines.EmptyScissorBoundsLine |
| src/engine/system/vulkan/world2d/entities/mod.rs:189-198 | `(&mut prepared).take_while(..)` pulls and drops the first draw of the next texture | two prepared draws with different textures: only the first is drawn | one batch per run of equal textures, every draw drawn once | not executed | Entities.TakeWhileSkipsSecondTexture | Entities.World2dEntitiesPipeline.DrawPreparedRuns |
| src/engine/system/vulkan/fps.rs:18-20 | `set_target_frame_rate` stores the rate but keeps the old `target_duration` | a manager made for 60 frames per second, set to 30, still paces to 1/60 s | pacing follows the new rate, as src/engine/system/fps.rs:16-18 does | not executed | VulkanFps.RateChangeIgnored | Fps.FpsManager.SetTargetFrameRate |
| src/engine/system/vulkan/fps.rs:22-34 | a `delay` that sleeps returns before recording an instant, so the next frame is not paced | at 50 frames per second, delays at 0 s, 0.01 s and 0.021 s sleep 0, 0.01 and then 0 s | every call records the instant, and the third call sleeps 0.019 s | not executed | VulkanFps.FrameAfterSleepUnpaced | VulkanFps.FrameAfterSleepPaced |
