# molten-engine core, modelled in Dafny

This project models the sequential core of the molten-engine C++ renderer and
proves properties of that model. The core is:

- **The index pool** (`core::Pool`). It is a stack of free slot indices: a pool
  of `size` slots hands out `1 .. size-1`, and `0` is the "exhausted /
  invalid" sentinel.
- **The asset manager** (`core::AssetManager`). It keeps a table of five voxel
  scenes whose slots come from a pool.
- **The front-end facade** (`gfx::Renderer`). It keeps one `uint32_t` handle
  counter per resource kind and forwards every call to the backend selected
  at build time.
- **The immediate-mode GL backend** (`gfx::GLRenderer`). It owns the fixed
  resource tables and one current-state record. The GL context is replaced by
  the sequence of GL calls the backend makes.
- **The enum-to-GL mapping tables** of `gl_utils.h`, in both copies (molten-core
  and molten-gfx).
- **The double-buffered frame-slot selection** of the Vulkan backend.

Files and modules:

| file | module | models |
|---|---|---|
| `uint.dfy` | `Uint` | `uint16_t` / `uint32_t` and their wrap-around |
| `wrappers.dfy` | `Wrappers` | `Option` |
| `gfx_types.dfy` | `GfxTypes` | enums, descriptors and defaults of `molten-core/include/renderer.h` |
| `facade_types.dfy` | `FacadeTypes` | the older descriptors of `molten-core/src/gfx/renderer.h` |
| `gl_utils.dfy` | `GlUtils` | `molten-core/src/gfx/gl_utils.h` |
| `legacy_gl_utils.dfy` | `LegacyGlUtils` | `molten-gfx/src/gl_utils.h`, and its agreement with the molten-core copy |
| `pool.dfy` | `CorePool` | `Pool` as pure functions over its three fields, plus a class that updates them in place |
| `asset_manager.dfy` | `Assets` | `AssetManager` over an array of scenes and a `Pool` |
| `facade.dfy` | `Facade` | `Renderer`, which appends each forwarded call to a log |
| `gl_backend.dfy` | `GlBackend` | `GLRenderer`, which appends each GL call to a trace |
| `vk_backend.dfy` | `VkBackend` | `VKRenderer`'s frame slots |

How the model is built:

- **State.** The pool's state is given twice. `PoolState` and the functions
  `InitState` / `Alloc` / `Free` specify it. The class `Pool` updates its
  fields in place and is proved to agree with those functions after each step.
  The pool invariant is stated against a ghost set of live indices.
- **Invariant.** `Partition` holds the free indices below `queue_top` to be
  distinct, disjoint from the live set, and together with it exactly
  `1 .. size-1`.
- **GL backend tables.** They are arrays indexed by handle. A pointer into a
  table is modelled as the index it points at.
- **GL backend loops.** The layout loops of `GLShader::create` and
  `new_pipeline` are methods with loop invariants. They are proved equal to
  the reference definitions `UniformLayout` and `AttributeLayout`, which are
  prefix sums (`BlockSize`, `VertexSize`).
- **Driver results as inputs.** Names the driver generates (`glGen*`) are
  inputs. So are the default framebuffer binding, the compile and link
  outcome (`ShaderBuild`), the uniform locations (`location: string -> int`)
  and the GL loader's result.

Deliberate modelling choices, following the code where it differs from its
intent:

- **Byte sizes.** `get_gl_type_size(GL_FLOAT)` is 32, as written. The byte
  offsets and strides of vertex attributes are therefore 32 per float
  component, not 4.
- **FLOAT4 attributes.** `get_gl_attribute_type` and `get_gl_attribute_size`
  have no `FLOAT4` case. Such an attribute gets `GL_NONE` and 0 components and
  adds nothing to the offsets.
- **Enumerator names in gl_utils.h.** The molten-core `gl_utils.h` names the
  texture formats `RGB` / `RGBA`. They are read as the `RGB8` / `RGBA8` of the
  descriptor header. `DEPTH` and `TEXTURE_3D` have no case and map to
  `GL_NONE`.
- **Uniform sizes.** The backend calls `get_gl_uniform_type_size`, which is not
  part of this model. The table `gl_size_of_type` (`SizeOfType`) is used in
  its place.
- **Index types.** `get_gl_index_type` is also not part of this model. The
  standard correspondence is assumed (`NONE → GL_NONE`,
  `UINT16 → GL_UNSIGNED_SHORT`, `UINT32 → GL_UNSIGNED_INT`). `DrawCommands`
  and `GLRenderer.Draw` rely only on `GL_NONE ⇔ NONE`; the second `ensures`
  of `DrawSelectsByIndexType` also uses the assumed `UINT16` value.
- **Primitive topology.** `draw` reads the topology from
  `current_pip->pipeline_common.primitive_type`, but the `GLPipeline` struct
  of molten-core/src/gfx/gl_renderer.h:77-84 declares no `pipeline_common`
  member. The model assumes one (`GLPipeline.pipelineCommon`), with the
  `PipelineCommon` default of molten-core/include/renderer.h:121-123,
  `TRIANGLES`. `new_pipeline` never writes it, so `GLRenderer.Valid` keeps
  it at `TRIANGLES` in every slot and `GLRenderer.Draw` ensures that the
  draw uses `GL_TRIANGLES`. The declared member `primitive_type` is not
  written by `new_pipeline` and not read by `draw` either.
- **Texture target.** `GLTexture::create` assigns the target to a local
  variable, so the slot's `target` member is never written.
- **Vertex buffer binding.** `set_bindings` binds the vertex buffer to
  `GL_VERTEX_ARRAY`, as written.
- **Uniform uploads.** `set_uniforms` uploads all sixteen layout entries, not
  only the declared ones.
- **Re-created shaders.** Re-creating a shader in the same slot appends to its
  sampler entries.
- **`Pool::init(0)`.** It makes `queue_top` wrap to 2^32 - 1. The model keeps
  this, and the invariants are proved only for `size >= 1`.

## Model

| member | source | states |
|---|---|---|
| `Uint.Inc32` | molten-core/src/gfx/renderer.cpp:61 | `uint32_t` post-increment: one more, except that 2^32 - 1 wraps to 0 |
| `Uint.Dec32` | molten-core/src/pool.cpp:10 | `pool_size - 1` on `uint32_t`: one less, and 0 wraps to 2^32 - 1 |
| `Uint.Add16` | molten-core/src/gfx/gl_renderer.cpp:107 | adding into a `uint16_t` gives the exact sum when it stays below 65536 |
| `GfxTypes.DefaultActionsClear` | molten-core/include/renderer.h:100-119 | colour, depth and stencil actions each default to CLEAR |
| `GfxTypes.DefaultTextureDesc` | molten-core/include/renderer.h:156-164 | `TextureDesc` defaults to TEXTURE_2D, RGB8, mipmaps on, width/height/depth 0 |
| `FacadeTypes.DefaultVertexAttribute` | molten-core/src/gfx/renderer.h:133-137 | `VertexAttribute` defaults to index 0, stride 0, FLOAT3 |
| `GlUtils.TextureTarget` | molten-core/src/gfx/gl_utils.h:6-12 | 1D and 2D map to their GL targets, and exactly the unlisted 3D maps to `GL_NONE` |
| `GlUtils.TextureFormatGl` | molten-core/src/gfx/gl_utils.h:14-20 | RGB and RGBA map to `GL_RGB` / `GL_RGBA`, and exactly the unlisted DEPTH maps to `GL_NONE` |
| `GlUtils.PrimitiveTypeGl` | molten-core/src/gfx/gl_utils.h:22-30 | every topology maps to one of the four GL primitives |
| `GlUtils.PrimitiveTypeInjective` | molten-core/src/gfx/gl_utils.h:22-30 | two topologies map to the same GL primitive exactly when they are equal |
| `GlUtils.AttributeType` | molten-core/src/gfx/gl_utils.h:32-38 | FLOAT2/FLOAT3 are `GL_FLOAT`; the unlisted FLOAT4 is `GL_NONE` |
| `GlUtils.AttributeSize` | molten-core/src/gfx/gl_utils.h:40-46 | FLOAT2 → 2, FLOAT3 → 3, FLOAT4 → 0 components |
| `GlUtils.TypeSize` | molten-core/src/gfx/gl_utils.h:48-53 | `GL_FLOAT` → 32, every other type → 0 |
| `GlUtils.AttributeGapsAgree` | molten-core/src/gfx/gl_utils.h:32-53 | an attribute has a GL type exactly when it has components, and its size is 32 per component |
| `GlUtils.BufferTypeGl` | molten-core/src/gfx/gl_utils.h:55-61 | VERTEX → `GL_ARRAY_BUFFER`, INDEX → `GL_ELEMENT_ARRAY_BUFFER` |
| `GlUtils.IndexTypeGl` | molten-core/src/gfx/gl_renderer.cpp:291 | an index type maps to `GL_NONE` exactly when it is NONE |
| `GlUtils.Components` | molten-core/src/gfx/gl_utils.h:63-74 | each uniform type holds between 1 and 16 floats |
| `GlUtils.SizeOfType` | molten-core/src/gfx/gl_utils.h:63-74 | a uniform's byte size is 4 × its float count, so between 4 and 64 |
| `GlUtils.DefaultTextureMapsTo2DRgb` | molten-core/include/renderer.h:156-159 | the default texture descriptor maps to `GL_TEXTURE_2D` with `GL_RGB` pixels |
| `LegacyGlUtils.TextureTarget` | molten-gfx/src/gl_utils.h:6-12 | 1D and 2D map to their GL targets |
| `LegacyGlUtils.TextureFormatGl` | molten-gfx/src/gl_utils.h:14-20 | RGB and RGBA map to `GL_RGB` / `GL_RGBA` |
| `LegacyGlUtils.PrimitiveTypeGl` | molten-gfx/src/gl_utils.h:22-30 | every topology maps to one of the four GL primitives |
| `LegacyGlUtils.PrimitiveTypeInjective` | molten-gfx/src/gl_utils.h:22-30 | two topologies share a GL primitive exactly when they are equal |
| `LegacyGlUtils.AttributeType` | molten-gfx/src/gl_utils.h:32-38 | both older attribute formats are `GL_FLOAT` |
| `LegacyGlUtils.AttributeSize` | molten-gfx/src/gl_utils.h:40-46 | FLOAT2 → 2, FLOAT3 → 3 components |
| `LegacyGlUtils.TypeSize` | molten-gfx/src/gl_utils.h:48-53 | `GL_FLOAT` → 32, every other type → 0 |
| `LegacyGlUtils.BufferTypeGl` | molten-gfx/src/gl_utils.h:55-61 | VERTEX → `GL_ARRAY_BUFFER`, INDEX → `GL_ELEMENT_ARRAY_BUFFER` |
| `LegacyGlUtils.CopiesAgree` | molten-gfx/src/gl_utils.h:6-61 | every table of the older copy gives the same GL value as the molten-core copy, reading older enumerators as their newer counterparts |
| `LegacyGlUtils.DefaultAttributeIsThreeFloats` | molten-core/src/gfx/renderer.h:133-137 | the facade's default attribute is three `GL_FLOAT` components |
| `LegacyGlUtils.DefaultTextureIs2DRgb` | molten-core/src/gfx/renderer.h:120-126 | the facade's default texture descriptor maps to `GL_TEXTURE_2D` with `GL_RGB` pixels |
| `CorePool.Slots` | molten-core/src/pool.cpp:16 | an index is a slot of a pool of `size` exactly when `1 <= i < size` |
| `CorePool.InitState` | molten-core/src/pool.cpp:6-11 | `init(n)` sets the size to n; for n >= 1 the stack is safe with `queue_top = n-1`; `init(0)` wraps `queue_top` to 2^32 - 1 and is not safe |
| `CorePool.Alloc` | molten-core/src/pool.cpp:13-22 | returns 0 exactly when `queue_top == 0`, and then changes nothing; otherwise returns the entry under the top, a slot in `(0, size)`, with the top one lower and the queue untouched |
| `CorePool.Free` | molten-core/src/pool.cpp:24-27 | requires `0 < i < size`; pushes i at the old top, the top one higher, every other entry unchanged |
| `CorePool.FreeThenAlloc` | molten-core/src/pool.cpp:15-26 | LIFO: an index just freed is the next one allocated, and the top is back where it was |
| `CorePool.AllocMany` | molten-core/src/pool.cpp:13-22 | k allocations return k indices and never change the queue or the size |
| `CorePool.InitThenAllocInOrder` | molten-core/src/pool.cpp:6-17 | after `init(n)` the first k allocations return 1, 2, …, k in order, and the top is `n-1-k` |
| `CorePool.InitExhaustsAfterAll` | molten-core/src/pool.cpp:10-21 | after `init(n)` and n-1 allocations, the next allocation returns the sentinel 0 |
| `CorePool.InitPartition` | molten-core/src/pool.cpp:6-11 | a freshly initialised pool (n >= 1) satisfies the invariant with nothing live |
| `CorePool.DistinctCard` | molten-core/src/pool.cpp:15 | a stack of distinct indices holds as many different indices as entries |
| `CorePool.SlotsCard` | molten-core/src/pool.cpp:16 | a pool of n >= 1 slots has n-1 usable indices |
| `CorePool.LiveCount` | molten-core/src/pool.cpp:10-17 | under the invariant, live indices plus `queue_top` make `size-1`, so at most `size-1` indices are live |
| `CorePool.AllocKeepsPartition` | molten-core/src/pool.cpp:13-22 | an allocated index is never one already live, and the invariant carries over with it added to the live set |
| `CorePool.FreeSetPush` | molten-core/src/pool.cpp:26 | a push adds exactly the pushed index to the free indices |
| `CorePool.FreeKeepsPartition` | molten-core/src/pool.cpp:24-27 | freeing a live index is always within bounds and keeps the invariant with the index removed from the live set |
| `CorePool.Pool.constructor` | molten-core/src/pool.h:9-11 | a new pool has an empty queue, `queue_top = 0`, `size = 0` |
| `CorePool.Pool.Init` | molten-core/src/pool.cpp:6-11 | the resize-and-iota loop leaves exactly `InitState(n)`, and for n >= 1 the invariant holds |
| `CorePool.Pool.AllocIndex` | molten-core/src/pool.cpp:13-22 | the fields and result are those of `Alloc`, and the invariant is kept |
| `CorePool.Pool.FreeIndex` | molten-core/src/pool.cpp:24-27 | the fields are those of `Free`, and the invariant is kept when a live index is freed |
| `Assets.AtMostFourLiveScenes` | molten-core/src/asset_manager.h:7 | a pool sized to MAX_VOX_SCENES = 5 has at most four live scenes, all in slots 1..4 |
| `Assets.FifthSceneGoesToSentinel` | molten-core/src/asset_manager.cpp:8-14 | after `init`, five new scenes get slots 1, 2, 3, 4 and then the sentinel 0 |
| `Assets.AssetManager.constructor` | molten-core/src/asset_manager.h:19-20 | five empty scenes and a default pool |
| `Assets.AssetManager.Init` | molten-core/src/asset_manager.cpp:4-6 | the pool is initialised to MAX_VOX_SCENES slots, with the invariant and nothing live |
| `Assets.AssetManager.NewVoxScene` | molten-core/src/asset_manager.cpp:8-14 | the scene goes into exactly the slot the pool hands out (slot 0 when exhausted), which is returned; every other slot is unchanged |
| `Assets.AssetManager.DestroyVoxScene` | molten-core/src/asset_manager.cpp:16-21 | slot `id` is reset to an empty scene and `id` goes back to the pool; every other slot is unchanged |
| `Facade.NthHandleValue` | molten-core/src/gfx/renderer.cpp:59-82 | the (k+1)-th handle of one kind is the start plus k, modulo 2^32 |
| `Facade.HandlesRepeatIff` | molten-core/src/gfx/renderer.cpp:59-82 | two handles of one kind coincide exactly when a multiple of 2^32 calls separates them |
| `Facade.HandlesDistinctBeforeWrap` | molten-core/src/gfx/renderer.cpp:59-82 | no handle is reused within 2^32 calls of one kind |
| `Facade.Renderer.constructor` | molten-core/src/gfx/renderer.h:170-176 | all five counters start at 0, and there are MAX_PASSES = 4096 pass records |
| `Facade.Renderer.Init` | molten-core/src/gfx/renderer.cpp:18-20 | forwards `init` unchanged, and no counter changes |
| `Facade.Renderer.Shutdown` | molten-core/src/gfx/renderer.cpp:22-24 | forwards `shutdown`, and no counter changes |
| `Facade.Renderer.Draw` | molten-core/src/gfx/renderer.cpp:26-28 | forwards its arguments unchanged, and no counter changes |
| `Facade.Renderer.SetViewport` | molten-core/src/gfx/renderer.cpp:30-32 | forwards the rectangle unchanged |
| `Facade.Renderer.SetScissor` | molten-core/src/gfx/renderer.cpp:34-36 | forwards the rectangle unchanged |
| `Facade.Renderer.BeginPass` | molten-core/src/gfx/renderer.cpp:38-41 | requires `p < MAX_PASSES`, and forwards pass record p |
| `Facade.Renderer.BeginDefaultPass` | molten-core/src/gfx/renderer.cpp:43-45 | forwards a null pass |
| `Facade.Renderer.SetPipeline` | molten-core/src/gfx/renderer.cpp:47-49 | forwards the handle unchanged |
| `Facade.Renderer.SetBindings` | molten-core/src/gfx/renderer.cpp:51-53 | forwards the bindings unchanged |
| `Facade.Renderer.SetUniforms` | molten-core/src/gfx/renderer.cpp:55-57 | forwards stage and memory unchanged |
| `Facade.Renderer.NewBuffer` | molten-core/src/gfx/renderer.cpp:59-62 | hands the current buffer counter to the backend, returns it, and leaves the counter one further on (mod 2^32); no other counter changes |
| `Facade.Renderer.NewTexture` | molten-core/src/gfx/renderer.cpp:64-67 | the same for the texture counter |
| `Facade.Renderer.NewShader` | molten-core/src/gfx/renderer.cpp:69-72 | the same for the shader counter |
| `Facade.Renderer.NewPass` | molten-core/src/gfx/renderer.cpp:74-77 | the same for the pass counter |
| `Facade.Renderer.NewPipeline` | molten-core/src/gfx/renderer.cpp:79-82 | the same for the pipeline counter |
| `Facade.ConsecutiveBuffers` | molten-core/src/gfx/renderer.cpp:59-67 | two buffers created around a texture get consecutive, distinct handles; the texture moves only its own counter |
| `GlBackend.BlockSize` | molten-core/src/gfx/gl_renderer.cpp:98-108 | uniforms packed in declaration order take at most 64 bytes each |
| `GlBackend.UniformOffset` | molten-core/src/gfx/gl_renderer.cpp:98-108 | the k-th uniform's offset (the size of the uniforms declared before it) is at most 64 per earlier uniform, so it fits the `uint16_t` field |
| `GlBackend.UniformOffsetsAdvance` | molten-core/src/gfx/gl_renderer.cpp:105-107 | each uniform starts where the one declared before it ends |
| `GlBackend.BuildUniformLayout` | molten-core/src/gfx/gl_renderer.cpp:98-108 | the `uniform_idx` / `uint16_t` offset loop gives entry k = the k-th declared uniform at its prefix-sum offset, and leaves later entries as they were |
| `GlBackend.CreateShader` | molten-core/src/gfx/gl_renderer.cpp:49-117 | `GLShader::create` has the effect `CreatedShader` specifies, for every compile/link outcome |
| `GlBackend.FailedShaderKeepsLayout` | molten-core/src/gfx/gl_renderer.cpp:58-92 | a failed compile leaves the slot as it was; a failed link changes only the program id; neither fills the layout or the sampler entries |
| `GlBackend.LinkedShaderLayout` | molten-core/src/gfx/gl_renderer.cpp:98-116 | for a linked shader, the k-th uniform has its declared type at the sum of the sizes before it, and there is exactly one new sampler entry per texture name, in order |
| `GlBackend.Mat4ThenFloat3` | molten-core/src/gfx/gl_renderer.cpp:98-108 | the layout `[MAT4, FLOAT3]` puts the FLOAT3 at byte 64 |
| `GlBackend.UploadCommands` | molten-core/src/gfx/gl_renderer.cpp:204-237 | one upload call per layout entry |
| `GlBackend.UploadCommandsInOrder` | molten-core/src/gfx/gl_renderer.cpp:204-237 | upload k is for layout entry k, with its type and location, reading at its offset |
| `GlBackend.UploadReadsDeclaredOffset` | molten-core/src/gfx/gl_renderer.cpp:98-108 | after a link, the k-th upload reads the k-th declared uniform at the sum of the sizes declared before it |
| `GlBackend.VertexSize` | molten-core/src/gfx/gl_renderer.cpp:293-301 | summed attribute sizes are at most 96 per attribute |
| `GlBackend.BuildOffsets` | molten-core/src/gfx/gl_renderer.cpp:293-301 | the first attribute loop gives attribute i its type, its size and the sizes of attributes 0..i-1 as offset, and returns the total |
| `GlBackend.BuildAttributes` | molten-core/src/gfx/gl_renderer.cpp:293-307 | both attribute loops together give the layout `AttributeLayout` specifies: prefix-sum offsets and one shared stride equal to the total |
| `GlBackend.AttributeOffsetsAdvance` | molten-core/src/gfx/gl_renderer.cpp:293-307 | the first offset is 0, each attribute starts where the previous one ends, and every stride is where the last one ends |
| `GlBackend.Float3ThenFloat2Layout` | molten-core/src/gfx/gl_renderer.cpp:293-307 | FLOAT3, FLOAT2, then FLOAT4s: the second offset is 96 and the stride 160 |
| `GlBackend.AttribPointerCommands` | molten-core/src/gfx/gl_renderer.cpp:180-184 | two calls per attribute slot |
| `GlBackend.AttribPointerCommandsInOrder` | molten-core/src/gfx/gl_renderer.cpp:180-184 | for each slot i in order, a pointer with the slot's size, type, stride and offset, then an enable of i |
| `GlBackend.TextureBindCommands` | molten-core/src/gfx/gl_renderer.cpp:191-198 | three calls per bound texture |
| `GlBackend.TextureBindCommandsByUnit` | molten-core/src/gfx/gl_renderer.cpp:191-198 | texture i is made active on unit `GL_TEXTURE0 + i` and bound as `GL_TEXTURE_2D`, and sampler i is set to i |
| `GlBackend.AttribCommandsTouchNoTexture` | molten-core/src/gfx/gl_renderer.cpp:178-189 | the buffer and attribute part of `set_bindings` binds no texture unit and sets no sampler |
| `GlBackend.ClearMask` | molten-core/src/gfx/gl_renderer.cpp:149-161 | each of the colour, depth and stencil bits is set exactly when its action is CLEAR, and no other bit is set |
| `GlBackend.DefaultPassActionClearsAll` | molten-core/src/gfx/gl_renderer.cpp:149-162 | the default pass action clears colour, depth and stencil |
| `GlBackend.DrawCommands` | molten-core/src/gfx/gl_renderer.cpp:244-251 | no draw for zero instances, otherwise exactly one; non-indexed from `first` exactly when the index type is `GL_NONE`; indexed draws take `count` at offset 0 with the pipeline's index type |
| `GlBackend.DrawSelectsByIndexType` | molten-core/src/gfx/gl_renderer.cpp:240-251 | `draw(0, n, 1)` draws n vertices for index type NONE and n `GL_UNSIGNED_SHORT` indices for UINT16 |
| `GlBackend.GLRenderer.constructor` | molten-core/src/gfx/gl_renderer.h:107-126 | every buffer, texture, shader, render-pass and pipeline entry is the zero entry, the state is the zero state, and the tables have the capacities of the header |
| `GlBackend.GLRenderer.Init` | molten-core/src/gfx/gl_renderer.cpp:123-135 | nothing happens when the loader fails; otherwise the vertex array is bound and kept, and the default framebuffer is recorded |
| `GlBackend.GLRenderer.Shutdown` | molten-core/src/gfx/gl_renderer.cpp:137-140 | deletes the global vertex array |
| `GlBackend.GLRenderer.BeginPass` | molten-core/src/gfx/gl_renderer.cpp:142-163 | binds the default framebuffer only for a null pass, then exactly one clear with `ClearMask(action)` |
| `GlBackend.GLRenderer.SetPipeline` | molten-core/src/gfx/gl_renderer.cpp:165-169 | the current pipeline becomes table entry `pipe`, and its shader's program is used |
| `GlBackend.GLRenderer.SetBindings` | molten-core/src/gfx/gl_renderer.cpp:171-199 | index then vertex buffer, then the sixteen attribute calls, then no texture call when more textures than samplers are bound, else the texture-unit binding |
| `GlBackend.GLRenderer.PointAttributes` | molten-core/src/gfx/gl_renderer.cpp:180-184 | the attribute loop appends exactly `AttribPointerCommands` |
| `GlBackend.GLRenderer.BindTextures` | molten-core/src/gfx/gl_renderer.cpp:191-198 | the texture loop appends exactly `TextureBindCommands` |
| `GlBackend.GLRenderer.SetUniforms` | molten-core/src/gfx/gl_renderer.cpp:201-238 | appends `UploadCommands` of the current shader's sixteen-entry layout |
| `GlBackend.GLRenderer.Draw` | molten-core/src/gfx/gl_renderer.cpp:240-253 | appends `DrawCommands` for the current pipeline's topology and index type; that topology is always `GL_TRIANGLES`, because `Valid` keeps every pipeline's `pipeline_common` at its default |
| `GlBackend.GLRenderer.SetViewport` | molten-core/src/gfx/gl_renderer.cpp:255-257 | one viewport call with the rectangle |
| `GlBackend.GLRenderer.SetScissor` | molten-core/src/gfx/gl_renderer.cpp:259-261 | one scissor call with the rectangle |
| `GlBackend.GLRenderer.NewBuffer` | molten-core/src/gfx/gl_renderer.cpp:263-268 | slot h gets the generated name and the data is uploaded to the mapped target; only slot h changes; returns true |
| `GlBackend.GLRenderer.NewTexture` | molten-core/src/gfx/gl_renderer.cpp:270-275 | slot h gets the generated name (its `target` stays), and the pixels are uploaded to the mapped target; only slot h changes; returns true |
| `GlBackend.GLRenderer.NewShader` | molten-core/src/gfx/gl_renderer.cpp:277-282 | slot h becomes `CreatedShader` of its old contents, and only slot h changes; returns true whatever the build did |
| `GlBackend.GLRenderer.NewPass` | molten-core/src/gfx/gl_renderer.cpp:284-286 | ignores the descriptor, returns false and changes nothing |
| `GlBackend.GLRenderer.NewPipeline` | molten-core/src/gfx/gl_renderer.cpp:288-310 | slot h points at the descriptor's shader, with the mapped index type and `AttributeLayout`; only slot h changes; returns true |
| `VkBackend.FrameSlot` | molten-core/src/gfx/vk_renderer.h:43 | the slot is below FRAME_OVERLAP = 2, and it is 0 exactly for even frame numbers |
| `VkBackend.ConsecutiveFramesAlternate` | molten-core/src/gfx/vk_renderer.h:43 | frames n and n+1 use different slots, also across the `uint32_t` wrap |
| `VkBackend.FramesTwoApartShareSlot` | molten-core/src/gfx/vk_renderer.h:43 | frames n and n+2 use the same slot |
| `VkBackend.VKRenderer.constructor` | molten-core/src/gfx/vk_renderer.h:55-60 | two frame slots, frame 0, not initialised, so the first frame uses slot 0 |
| `VkBackend.VKRenderer.CurrentFrame` | molten-core/src/gfx/vk_renderer.h:43-55 | `get_current_frame` always returns one of the two `_frames` |

## Left out

- GL and Vulkan effects (pixels, clear colours, float clear values, uniform
  bytes) are not modelled. A GL call is a trace entry with its integer
  arguments only; uploads are (type, location, offset).
- Texture parameters (`glTexParameteri`), shader source, compile, attach and
  delete calls and the info logs are not in the trace. Only their outcome is,
  as the `ShaderBuild` input.
- Vulkan initialisation (a wrapper over VkBootstrap), the empty stub methods
  of `VKRenderer` and the fence/semaphore frame protocol are not modelled;
  only frame-slot selection and the initial field values are.
- `VoxScene::load` / `destroy` are file I/O and a foreign decoder. The loaded
  scene is an input of `NewVoxScene`.
- `GLBuffer::destroy`, `GLTexture::destroy`, `GLShader::destroy` and
  `GLRenderPass::create` are never called by the modelled code and are not
  modelled.
- The GL loader, `glGetIntegerv` and the `glGen*` calls are replaced by their
  results, passed in as parameters.
- GlBackend.GLRenderer.SetPipeline: requires the pipeline slot to have a
  shader. In the source, setting a never-created pipeline dereferences a null
  shader pointer.
- GlBackend.GLRenderer.SetBindings: requires a current pipeline and
  in-range buffer and texture handles, since the source indexes its tables
  and the pipeline pointer without checks.
- GlBackend.GLRenderer.SetUniforms: requires a current pipeline, for the same reason.
- GlBackend.GLRenderer.Draw: requires a current pipeline, for the same reason.
  Its `GL_TRIANGLES` ensures rests on the assumed `pipeline_common` member
  (see "Primitive topology"), which the header does not declare; with the
  struct as declared the draw call has no topology to read.
- GlBackend.GLRenderer.NewShader: requires at most sixteen declared uniforms
  when the build links. More would write beyond the fixed layout array.
- CorePool.Free: requires `queue_top < size` besides the source's
  `0 < i < size`, since the source writes `free_queue[queue_top]` unguarded.
  `FreeKeepsPartition` proves that this always holds when a live index
  is freed.
- The texture-binding array and the cull mode of `GLState`, and the
  `GLRenderPass` table, start zeroed and are never read or written by the
  modelled operations, nor by the source. The same holds for the
  `vertex_buffer` and `index_buffer` fields of `GLState`: `set_bindings`
  binds buffers directly and never records them there. The cull mode is a
  number here, since the `CullMode` enumeration is not part of this model.
- The implicit conversions of `uint32_t` arguments to `GLint` / `GLsizei`
  are not modelled: `first` and `count` of `draw`, the rectangles of
  `set_viewport` and `set_scissor`, and the texture width and height. The
  trace records the unsigned values; a value of 2^31 or more reaches the
  driver as a negative number.
- The diagnostic messages written to standard output are not modelled: the
  GL loader failure in `init` (molten-core/src/gfx/gl_renderer.cpp:125) and
  the texture-count mismatch in `set_bindings` (gl_renderer.cpp:187). Only
  the control flow around them is.
- `MAKE_MEMORY` (molten-core/include/renderer.h:92) only builds a `Memory`
  value from an address and a `sizeof`, so it is the `Memory` constructor
  here and has no member of its own.
- The molten-gfx copies of the renderer and GL backend, which are an earlier
  snapshot, are not part of this model. Only their mapping table
  (`molten-gfx/src/gl_utils.h`) is.
