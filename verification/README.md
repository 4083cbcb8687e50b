# Resource binding of a deferred OpenGL renderer

This is a Dafny model of the part of the engine that decides which GPU
resources each draw uses. The engine renders each frame in three passes:

1. a geometry pass into a four-target G-buffer;
2. a lighting pass into an off-screen colour target;
3. a post-processing pass onto the window.

The model covers:

- **The vertex array cache.** `FindVAO` looks up a submesh's VAO for a
  program. On a miss it reconciles the program's reflected vertex inputs
  against the submesh's stored vertex layout. Module `VertexBinding`.
- **Program reflection and the program table.** `LoadProgram`, in module
  `ProgramReflection`.
- **The texture table.** `LoadTexture2D` deduplicates textures by path. Module
  `TextureRegistry`.
- **The built-in plane.** `CreateTextureQuadGeometry` builds the plane's
  vertex layout and seeds its VAO cache. Module `PlaneGeometry`.
- **The uniform-buffer layout that `Update` writes.** This is the global block
  with its 16-byte aligned light blocks, followed by one aligned block per
  entity. Module `UniformPacking`.
- **The framebuffers and their attachments.** `FrameBufferInit`, in module
  `Framebuffers`.
- **The render trace.** `Render` and its three passes become a trace that
  records, for each pass, its target, its program, and each draw's vertex
  array, textures per unit and uniform range. Module `PassSequencer`.
- **The camera's input handling.** `ProcessInput` and `ProcessMouseInput`,
  in module `CameraControl`.
- **The engine's records.** Modules `EngineTypes`, `BufferObjects` and
  `AppState`.

**The GL driver is replaced by data.**
- Every generated object name is a `Name` (a natural number) passed in. The
  geometry pass draws new vertex-array names from a counter.
- Every GL call that configures state is returned as a record: the buffers
  and attribute pointers of a new VAO, and the binding of each pass and draw.
- Compiling and linking a program is an oracle: it supplies the program
  name and the list of active attributes.
- Decoding and uploading an image is an oracle as well: it supplies either a
  texture name or nothing.
- `glm::normalize` is a parameter.
- Each `Push*` helper of the uniform buffer advances the head by a byte size
  given as a parameter.

**Failed assertion.** The assertion in `FindVAO` that every vertex input was
linked becomes an error result naming the first unlinked location. The frame
stops at that error.

**Integers.** Widths are modelled where the code depends on them:
- an attribute location stored into a `u8` is taken modulo 256;
- `size() - 1` and VAO attribute offsets wrap modulo 2^32;
- the texture sentinel is `UINT32_MAX`.

## Model

| member | source | states |
|---|---|---|
| Common.ToU8 | Engine/Code/engine.cpp:113 | A `GLint` stored in a `u8` keeps its value when it is in 0..255. Otherwise it is congruent modulo 256. |
| Common.WrapU32 | Engine/Code/engine.cpp:355 | 32-bit unsigned arithmetic: values in range are unchanged. Otherwise the result is congruent modulo 2^32. |
| Common.FirstWhere | Engine/Code/engine.cpp:328-332 | The hand-written linear scans return the first index that matches. None is returned exactly when no element matches. |
| VertexBinding.Reconcile | Engine/Code/engine.cpp:344-365 | Reconciliation succeeds exactly when every program input is provided by the layout. On success it yields one binding per input, built from the first stored attribute at that input's location. On failure it names the first unprovided location. |
| VertexBinding.ReconcileUsesLayout | Engine/Code/engine.cpp:348-357 | Each emitted binding uses the input's location and the layout's stride. Its component count comes from the first stored attribute at that location. Its offset is that attribute's offset plus the submesh vertex offset, wrapped to 32 bits. |
| VertexBinding.FindVao | Engine/Code/engine.cpp:323-374 | On a hit, returns the first cached object for the program and leaves the mesh untouched. On a miss that reconciles, returns the new name and appends exactly one cache entry to that submesh. It records the mesh's two buffers and the bindings. A failed reconciliation becomes the assertion failure. |
| VertexBinding.ExtendsKeepsCached | Engine/Code/engine.cpp:369-371 | Entries are only ever appended, so a program that is cached stays cached. |
| VertexBinding.FindVaoExtends | Engine/Code/engine.cpp:323-374 | A successful lookup only grows that submesh's cache. Afterwards the program is cached with the returned handle. The mesh is unchanged exactly when the program was already cached, which is also exactly when nothing was created. |
| VertexBinding.SecondLookupHits | Engine/Code/engine.cpp:328-371 | Right after any successful lookup, a second lookup for the same submesh and program hits. It returns the same name, creates nothing and changes nothing. |
| VertexBinding.NewSubmeshMisses | Engine/Code/engine.h:79-86 | A newly constructed submesh has an empty cache and an empty layout. Its first lookup misses. It succeeds exactly for programs without vertex inputs, and otherwise fails on the first input. |
| VertexBinding.CachedHandleStable | Engine/Code/engine.cpp:328-332 | Appending to a cache never changes the object it answers for a program it already held. |
| VertexBinding.ReflectedInputsReconcile | Engine/Code/engine.cpp:344-357 | A program whose inputs are the reflected active attributes, as `LoadProgram` stores them, reconciles against a layout exactly when the layout provides every reflected location. It then gets one binding per active attribute, in driver order, at that attribute's byte-sized location. |
| TextureRegistry.LoadTexture2D | Engine/Code/engine.cpp:189-209 | A path already in the table returns the index of its first entry and leaves the table unchanged. A new path that decodes is appended at index `size()`. A new path that does not decode returns `UINT32_MAX` and leaves the table unchanged. |
| TextureRegistry.LoadKeepsPathsDistinct | Engine/Code/engine.cpp:191-203 | Loading keeps paths unique in the table and adds at most one entry. |
| TextureRegistry.LoadedIndexIsValid | Engine/Code/engine.cpp:202-208 | The result is not the sentinel exactly when the path was loaded or it decodes. A non-sentinel result indexes a texture with that path. |
| TextureRegistry.LoadTwiceSameIndex | Engine/Code/engine.cpp:191-193 | Loading a path a second time returns the same index and leaves the table unchanged. The image is uploaded at most once. |
| TextureRegistry.FailedLoadIsRetried | Engine/Code/engine.cpp:195-208 | A failed decode leaves no trace. The next load of that path behaves as if it were the first. |
| ProgramReflection.ComponentCount | Engine/Code/engine.cpp:115-132 | The component count is 2, 3 or 4 exactly for float vectors of that size. Every other type gives 1. |
| ProgramReflection.ReflectAttributes | Engine/Code/engine.cpp:107-134 | Produces one layout entry per active attribute, in driver order. Each entry has the type's component count. Its location is the reported location when that fits in a byte, and 255 for -1. |
| ProgramReflection.LoadProgram | Engine/Code/engine.cpp:88-137 | Appends exactly one program carrying the given name, path, timestamp and reflected layout, and leaves earlier programs unchanged. The returned `size() - 1` is the new program's index while the table fits in 32 bits. |
| Framebuffers.FrameBufferInit | Engine/Code/engine.cpp:493-568 | The first generated framebuffer name is the geometry framebuffer and the second the post-processing one. The six generated textures are, in order, position, normal, albedo, specular, depth and final colour. The geometry framebuffer's colour attachments are the first four generated textures, in attachment order. The post-processing framebuffer's only colour attachment is the sixth. The names are separated exactly when the two framebuffer names are distinct, the six texture names are distinct, and neither framebuffer name is 0 (the window surface). |
| Framebuffers.SeparatedAttachmentsDisjoint | Engine/Code/engine.cpp:495-561 | When names are separated, the two framebuffers share no attachment and the window surface owns none. The geometry framebuffer owns the five G-buffer textures. The post-processing framebuffer owns the final colour. |
| CameraControl.InitialCamera | Engine/Code/Camera.h:15-28 | The member initializers start the pitch inside the [-89, 89] range and the view at the identity matrix. |
| CameraControl.ProcessMouseInput | Engine/Code/Camera.h:65-74 | Yaw moves by half the horizontal delta. Pitch moves against half the vertical delta and is clamped to [-89, 89], hitting the bound it overshoots. Nothing else changes. |
| CameraControl.YawAccumulates | Engine/Code/Camera.h:67 | Yaw is never clamped, so a run of mouse deltas turns it by half their summed horizontal movement. |
| CameraControl.PitchPinnedAtTop | Engine/Code/Camera.h:68-71 | Once pitch reaches the upper clamp, further upward-only movement keeps it at exactly 89. |
| CameraControl.PitchPinnedAtBottom | Engine/Code/Camera.h:72-73 | The same at the lower clamp: pitch stays at exactly -89. |
| CameraControl.ProcessInput | Engine/Code/Camera.h:30-47 | Only the position changes. It moves by the speed along the front vector (forward/back) or along the normalized right vector (right/left). |
| CameraControl.OppositeInputsCancel | Engine/Code/Camera.h:30-47 | An input followed by its opposite returns the camera to where it started. |
| CameraControl.OppositeSteps | Engine/Code/Camera.h:30-47 | Opposite inputs step by negated vectors. |
| UniformPacking.AlignHead | Engine/Code/engine.cpp:715 | The aligned head is a multiple of the boundary and lies within one boundary above the head. |
| UniformPacking.AlignHeadIsLeast | Engine/Code/engine.cpp:730 | The aligned head is the least multiple of the boundary that is not below the head. An aligned head is left where it is. |
| UniformPacking.AlignHeadIdempotent | Engine/Code/engine.cpp:715 | Aligning twice is the same as aligning once. |
| UniformPacking.PackLights | Engine/Code/engine.cpp:713-724 | There is one block per light. Each block starts on a 16-byte boundary, they are in light order, they do not overlap, and all end by the final head. |
| UniformPacking.PackLightsBounds | Engine/Code/engine.cpp:713-725 | The light region is the pushed bytes plus less than 16 bytes of padding per light. |
| UniformPacking.PackLightsExact | Engine/Code/engine.cpp:713-725 | When the head and the block size are multiples of 16, the lights take exactly count times the block size. |
| UniformPacking.PackEntities | Engine/Code/engine.cpp:728-740 | Each entity gets a range aligned to the device alignment, two matrices long, in entity order and without overlap. Nothing else of the entity changes. |
| UniformPacking.PackEntitiesOffsets | Engine/Code/engine.cpp:728-740 | The first entity's range starts at the head aligned up. Each later range starts at the end of the previous one aligned up. The loop ends at the end of the last range. |
| UniformPacking.PackEntitiesBounds | Engine/Code/engine.cpp:728-740 | The entity loop advances the head by every entity's pushed bytes plus less than one alignment of padding per entity. |
| UniformPacking.UpdatePinsEntityRanges | Engine/Code/engine.cpp:725-740 | In `Update`, the entity ranges are chained from the end of the global block. The final head exceeds that end by the entities' pushed bytes plus less than one device alignment per entity. |
| UniformPacking.ConsecutiveRangesDisjoint | Engine/Code/engine.cpp:728-740 | Ranges that do not overlap their successor do not overlap any later range either. |
| UniformPacking.Update | Engine/Code/engine.cpp:705-744 | The head restarts at 0. The global range starts at 0 and contains every light block. Each entity range is aligned, lies after the global range and before the final head, and is disjoint from every other entity's range. Only the head, the global range and the entity ranges change. |
| UniformPacking.GlobalBlockSize | Engine/Code/engine.cpp:709-725 | The global block size is bounded below by the camera position, the count and the light blocks, and above by that plus 15 bytes per light. It is exact when no padding is needed. |
| UniformPacking.PackEntitiesIgnoresRanges | Engine/Code/engine.cpp:728-740 | The entity loop's output depends only on the entities' transforms and models, not on the ranges they carried. |
| UniformPacking.UpdateIgnoresPreviousFrame | Engine/Code/engine.cpp:707-740 | The previous head and the previous frame's entity ranges have no influence on the new layout. |
| UniformPacking.RangesWithinCapacity | Engine/Code/engine.cpp:455-460 | The code never checks the capacity. When the final head is within the buffer size, every recorded range lies inside the buffer. |
| PlaneGeometry.PlaneLayout | Engine/Code/engine.cpp:298-305 | The plane's vertex format is tightly packed: position at 0, normal at 12, texture coordinate at 24, stride 32. |
| PlaneGeometry.TightlyPackedFits | Engine/Code/engine.cpp:298-305 | In a tightly packed layout every attribute lies within one vertex stride. |
| PlaneGeometry.PlaneSeedBindings | Engine/Code/engine.cpp:283-296 | Corrected seeding: the seeded object's bindings are exactly what `FindVAO` would build for the plane, and each uses the 32-byte vertex stride. |
| PlaneGeometry.SeedStrideMismatch | Engine/Code/engine.cpp:287-292 | The bindings as written match the intended ones only when the vector object is 32 bytes. They differ for the usual 24. |
| PlaneGeometry.CreateTextureQuadGeometry | Engine/Code/engine.cpp:250-321 | Appends one material, one single-submesh mesh and one model linking them, and records the model index. The submesh's cache holds the seeded object for the textured-mesh program. The seeded object receives the bindings as written, whose stride is the vector object's size; they are the intended ones exactly when that size is 32. Nothing else changes. |
| PlaneGeometry.PlaneSeedBindingsAsWritten | Engine/Code/engine.cpp:287-292 | The three seeded bindings as written are the intended bindings with the stride replaced by the vector object's size. |
| PlaneGeometry.PlaneSubmesh | Engine/Code/engine.cpp:265-308 | The plane's submesh has the tightly packed plane layout, zero offsets, the six indices and the first 20 floats. Its cache answers the textured-mesh program with the seeded object. |
| PlaneGeometry.PlaneHitsSeededVao | Engine/Code/engine.cpp:296 | Looking up the plane for the textured-mesh program hits the seeded object and creates nothing. |
| EngineTypes.NewSubmesh | Engine/Code/engine.h:79-86 | A constructed submesh keeps the given offsets and starts with an empty layout of stride 0, no vertices or indices, and an empty vertex array cache. |
| EngineTypes.NewMaterial | Engine/Code/engine.h:120-139 | Corrected constructor: every argument, emissive included, becomes the member of the same name. |
| EngineTypes.NewEntity | Engine/Code/engine.h:149-151 | A constructed entity keeps its transform and model, and its uniform range defaults to offset 0 and size 0. |
| EngineTypes.MaterialAsWritten | Engine/Code/engine.h:120-139 | The ten-argument constructor as written always yields a zero emissive colour. It equals the intended constructor given a zero emissive. |
| EngineTypes.EmissiveArgumentDropped | Engine/Code/engine.h:120-139 | A non-zero emissive argument is lost as written and kept by the intended constructor. |
| PassSequencer.DrawSubmeshes | Engine/Code/engine.cpp:788-807 | The submesh loop only grows VAO caches and never moves the name counter backwards. |
| PassSequencer.DrawEntities | Engine/Code/engine.cpp:777-808 | The entity loop only grows VAO caches and never moves the name counter backwards. |
| PassSequencer.DrawEntitiesShape | Engine/Code/engine.cpp:777-806 | Every geometry draw belongs to one entity. It binds one registry texture on unit 0 and that entity's own uniform range. |
| PassSequencer.SentinelAlbedoNotReady | Engine/Code/engine.cpp:798 | A drawn material whose albedo index is the `UINT32_MAX` of a failed texture load makes the application not ready to draw. The geometry pass would index the texture table out of range. |
| PassSequencer.Geometry | Engine/Code/engine.cpp:763-809 | The geometry pass draws into the geometry framebuffer with the textured-mesh program, with depth testing on and the global range bound. Every draw belongs to an entity. It only grows vertex array caches. |
| PassSequencer.Lighting | Engine/Code/engine.cpp:811-844 | The lighting pass draws one six-index quad into the post-processing framebuffer with the lighting program and depth testing off. Geometry colour attachment `u` is bound on unit `u`. |
| PassSequencer.PostProcessingAsWritten | Engine/Code/engine.cpp:846-860 | As written, the post-processing pass draws one six-index quad onto the window with the lighting pass's program. The post-processing framebuffer's colour attachment is on unit 0. |
| PassSequencer.GeometryBindsRegistry | Engine/Code/engine.cpp:796-798 | The geometry pass binds only textures from the texture table. |
| PassSequencer.PostProcessing | Engine/Code/engine.cpp:846-860 | Corrected pass: it draws with the post-processing program loaded by `Init`. In every other respect it is the pass as written. |
| PassSequencer.PostProcessingUsesLightingProgram | Engine/Code/engine.cpp:851 | As written, the post-processing pass draws with the lighting program, never the post-processing one, whenever the two differ. |
| PassSequencer.Render | Engine/Code/engine.cpp:746-761 | A frame is the geometry, lighting and post-processing passes in that order. Their targets are the geometry framebuffer, the post-processing framebuffer and the window. As written, the passes use the mesh program, then the lighting program twice. |
| PassSequencer.RenderIntended | Engine/Code/engine.cpp:421-422 | The intended frame succeeds exactly when the written one does. It differs only in its last pass, which uses the post-processing program. |
| PassSequencer.LightingBindsGeometryColors | Engine/Code/engine.cpp:811-844 | The lighting pass binds geometry colour attachment `u` to texture unit `u`, for u = 0..3. It binds exactly those four textures. |
| PassSequencer.PostProcessingBindsFinalColor | Engine/Code/engine.cpp:854-857 | The post-processing pass binds exactly one texture itself: the post-processing framebuffer's colour attachment, on unit 0. |
| PassSequencer.NoSelfBinding | Engine/Code/engine.cpp:763-860 | No pass binds a texture attached to the framebuffer it draws into, given separated names and registry textures distinct from the G-buffer. |
| PassSequencer.BindsFollowWrites | Engine/Code/engine.cpp:758-760 | The lighting pass binds only what the geometry pass wrote, and the post-processing pass binds only what the lighting pass wrote. The final pass does not write anything the lighting pass binds. |
| PassSequencer.BindUnits | Engine/Code/engine.cpp:824-840 | A sequence of `glActiveTexture`/`glBindTexture` pairs leaves each unit it binds holding the texture of its last binding there. Every other unit keeps what it held. |
| PassSequencer.QuadPassesUnits | Engine/Code/engine.cpp:824-856 | Whatever the units held before, after the lighting pass and the post-processing pass as written, unit 0 holds the final colour. Units 1 to 3 hold the normal, albedo and specular attachments. |
| PassSequencer.PostProcessingInheritsUnits | Engine/Code/engine.cpp:829-859 | As written, the post-processing draw uses the lighting program while units 1 to 3 still hold the normal, albedo and specular attachments from the lighting pass. With separated names those are the geometry pass's output, not the lighting pass's. |
| PassSequencer.HitsWhenCached | Engine/Code/engine.cpp:788-791 | When every submesh of an entity is cached for the mesh program, the submesh loop changes nothing and takes no name. Its draws use the cached objects. |
| PassSequencer.DrawSubmeshesCaches | Engine/Code/engine.cpp:788-791 | After the submesh loop, every submesh it visited is cached. Its draws are exactly the draws the cache would produce. |
| PassSequencer.CachedDrawsStable | Engine/Code/engine.cpp:328-332 | Further cache growth does not change the draws a fully cached entity produces. |
| PassSequencer.DrawSubmeshesReplay | Engine/Code/engine.cpp:788-807 | Replaying the submesh loop on any later state reproduces its draws, creates nothing and changes nothing. |
| PassSequencer.DrawEntitiesReplay | Engine/Code/engine.cpp:777-808 | Replaying the entity loop on any later state reproduces its draws, creates nothing and changes nothing. |
| PassSequencer.SecondFrameHitsCache | Engine/Code/engine.cpp:746-761 | After one frame renders, the next frame reconciles nothing. It produces the same trace, leaves the state as it was and takes no new name. |
| PassSequencer.UpdatedDrawRangesAligned | Engine/Code/engine.cpp:780 | After `Update`, every geometry draw binds a uniform range that is aligned to the device alignment, lies past the global block and ends within the bytes written this frame. |

## Left out

- `CreateProgramFromSource`, shader compilation and linking: the program name and active attributes are parameters.
- `LoadImage`, `CreateTexture2DFromImage` and `FreeImage`: decode and upload are one oracle result.
- `CreateTextureQuad` (the full-screen quad's buffers): the model keeps only the name it returns (`vaoIdx`).
- `FrameBufferCheck`, texture storage and filtering parameters: these are driver state with no effect on which resource is bound.
- `Gui`, `InfoInit` and `DebugInit`: diagnostics and I/O.
- `Camera::UpdateCamera`, the view, projection and MVP matrices: trigonometry and floating point; matrices are opaque values.
- The frame-time bookkeeping and sprint speed in `Update`: clocks and keyboard state. The camera speed is simply a field.
- The bytes the `Push*` helpers write and their sizes. The sizes are a parameter, because buffer_management.h (the `Push*` and `AlignHead` definitions) is not part of this model. `AlignHead` is modelled from its name and its use.
- Uniforms that are not textures or ranges (render target selector, material specular and shininess), `GL_CULL_FACE`, clears and the viewport: none of them selects a resource.
- Loading models through assimp (assimp_model_loading.h) and MeshObjects.h: not part of this model.
- Running out of GL names: names are unbounded naturals.
- UniformPacking.Update: the `GLint` head and size (engine.h:180-181), the `int` alignment (engine.h:231, required positive) and the `u32` offsets and sizes (engine.h:146, 225-226) are all unbounded naturals. Signed overflow of the head past `INT_MAX` is not modelled. Neither are the `GLint`-to-`u32` conversions when the head is stored as an offset or a size (engine.cpp:725, 735).
- TextureRegistry.LoadTexture2D: requires the table to hold at most `UINT32_MAX` entries, because the `u32` loop counter of the scan would never terminate beyond that.
- `Program::vertexInputLayout` is declared as a `VertexBufferLayout` (engine.h:48), but `LoadProgram` fills it with location and component-count pairs and `FindVAO` reads only locations. It is modelled as a `VertexShaderLayout`.
- `App::entities` is declared as a vector of pointers (engine.h:210), but the code constructs and reads entities by value. They are modelled as values.
- The plane's CPU-side vertex copy keeps only the first 20 floats, as the copy loop is written. It is never read again.
- The failed assertion in `FindVAO` ends the frame with an error. A release build would carry on with an incomplete vertex array; that behaviour is not modelled.
- Floating point is modelled as real arithmetic.
- Uniform binding points carry over between passes like texture units do. The geometry pass leaves binding point 0 on the global range and binding point 1 on the last entity's range (engine.cpp:774, 780). The quad passes do not rebind them, so their draws still see those ranges. A pass record's `globalRange` and draw `localRange` hold only what the pass itself binds. Binding points are not tracked across passes the way `PassSequencer.TraceUnits` tracks texture units. `depthTest`, by contrast, is the state in effect: the post-processing pass inherits it from the lighting pass.
- Which texture unit each sampler of a program reads is not part of the trace. A pass records the textures it binds (`Bound`). The units carried over from earlier passes are tracked separately, by `PassSequencer.TraceUnits`. `PassSequencer.PostProcessingInheritsUnits` shows that the final pass as written draws with units 1 to 3 still holding G-buffer textures. The lighting program's samplers point at those units (engine.cpp:826-841). Line 857 sets, on that same program, the location `finalImage` has in the post-processing program. Whether that location hits one of the lighting program's samplers depends on the shader compiler and is not modelled.
- Out-of-range table indices in the geometry pass (engine.cpp:784-798) are undefined behaviour in the engine. The model requires every drawn index to be in range (`GeometryReady`). This includes the albedo index of a material built from a texture whose load failed and returned `UINT32_MAX` (engine.cpp:208). `PassSequencer.SentinelAlbedoNotReady` shows that such an application is excluded, not drawn.

## Findings

| source | as written | input that shows it | evidently intended | confidence | as-written member | corrected member |
|---|---|---|---|---|---|---|
| Engine/Code/engine.h:120-139 | The ten-argument `Material` constructor's initializer list omits `emissive`, so `_emissive` is discarded. | `Material("m", 0, (1,1,1), 0)` has emissive (0,0,0). | Every argument, `_emissive` included, initializes its member. | high; not executed | EngineTypes.EmissiveArgumentDropped | EngineTypes.NewMaterial |
| Engine/Code/engine.cpp:287-292 | The plane's seeded VAO passes `sizeof(submesh.vertices)` as the stride. That is the size of the `std::vector` object. | A 24-byte `std::vector` gives stride 24 against a 32-byte vertex. | The stride is the vertex size, 32, as the layout at lines 298-305 states. | high; not executed | PlaneGeometry.SeedStrideMismatch | PlaneGeometry.PlaneSeedBindings |
| Engine/Code/engine.cpp:851 | `PostProcessingPass` uses the program at `texturedQuadProgramIdx` (the lighting program). `Render` models the frame with this pass as written. Its draw also sees units 1 to 3 still holding G-buffer textures (`PassSequencer.PostProcessingInheritsUnits`). | Any state where the lighting and post-processing programs differ, as `Init` loads them at lines 415 and 421. | The pass uses `postProcessingProgramIdx`, whose `finalImage` sampler it sets (lines 421-422, 857). | medium; not executed | PassSequencer.PostProcessingUsesLightingProgram | PassSequencer.PostProcessing |
