# grt renderer core in Dafny

grt is a small wgpu renderer built on the `specs` entity-component system.
Each frame, the application dispatches these stages:

- three parallel stages: the model builder, the camera and the rotation;
- two thread-local stages, run after them in order: resizing, then rendering.

After the stages, the application maintains the world. This project models the per-frame bookkeeping of those stages over abstract GPU handles, together with two more systems the source defines but `run` does not register (src/lib.rs:24-30), so they run in no frame:

- **Lazy resource builders.** The model builder (a per-frame stage), the mesh builder and the material builder (the two systems no frame runs) each visit a join of two component storages. They fill a "built" slot only while it is empty.
- **Shader registry.** A name-to-shader map. Adding a name replaces any earlier entry, and looking up a missing name is fatal.
- **Resize state machine.** `Application::resize` ignores zero-area sizes. The resizing stage does nothing while the size matches the surface configuration. Otherwise it copies the size into the configuration, sets every camera's aspect, and reconfigures the surface once.
- **Render stage.** It produces a command trace: one render pass that clears the frame and draws every joined renderable in entity order. The commands are then submitted once and the frame is presented.
- **Component types.** The component datatypes and their defaults.

Modelling choices:

- **Storages.** A storage is a `seq<Option<T>>` indexed by entity id. A system that writes a storage gets it as an `array<Option<T>>`. A join visits, in ascending order, the entities present in both storages (`Ecs`).
- **GPU objects.** Every GPU object is a value with a handle id and the descriptor data the code passes. The `Gpu` class has two fields:
  - `next`, the next handle to hand out;
  - `calls`, the log of surface and queue calls.
- **Floats.** A float is its IEEE-754 bit pattern. A camera aspect written by resizing is the pair (width, height).
- **Panics.** Every `unwrap`, `expect` and out-of-range index is a `Panic` reported as an error value. The state a panicking loop leaves behind is what the loop had done before it stopped.
- **Systems.** Each system method is proved against a pure function `...UpTo(k)`, which gives the state after visiting entities `0 .. k-1`. The properties are lemmas about that function.

The source files are snapshots of a design in motion and do not agree on field names:

- the mesh builder reads `MeshRenderer` and `mesh.vertices`;
- the material builder and the render stage read `renderer.diffuse`, `vertex_buffer`, `index_buffer` and `indices_count`;
- `components/rendering.rs` declares `Renderer` with only `meshes` and `materials`.

Each system is therefore modelled on the fields it reads and writes: `MeshSource`, `MeshRenderer`, `MaterialSource`, `DrawRenderer`. The model builder works on `Renderer` as declared.

## Model

| member | source | states |
|---|---|---|
| Base.AsU32 | src/systems/model_builder.rs:123 | `len() as u32` keeps the length modulo 2^32, and is the length itself below 2^32 |
| Ecs.JoinedUpToIsInnerJoin | src/systems/mesh_builder.rs:17 | a join yields exactly the entities present in both storages, in strictly ascending order |
| Ecs.NothingJoined | src/systems/rendering.rs:57 | with no entity present in both storages the join yields nothing |
| Ecs.CountBelowMonotone | src/systems/mesh_builder.rs:17-27 | a builder that takes one handle per entity it has work for hands them out in increasing entity order; both the mesh and material builders count their pending entities this way |
| Ecs.NothingCounted | src/systems/material_builder.rs:21-26 | with no entity to work on, a builder takes no handle |
| Backend.TextureEntries | src/systems/material_builder.rs:32-41 | a texture bind group has two entries: the view at binding 0 and the sampler at binding 1 |
| Components.DefaultModel | src/components/rendering.rs:6-10 | the default model names the empty file |
| Components.DefaultRenderer | src/components/rendering.rs:12-17 | the default renderer has no meshes and no materials |
| Components.DefaultMesh | src/components/rendering.rs:19-26 | the default mesh has an empty name, no vertex buffer, no index buffer, zero elements and material 0 |
| Components.DefaultMaterial | src/components/rendering.rs:28-32 | the default material has an empty name and no diffuse bind group |
| Components.DefaultTransform | src/components/rendering.rs:110-122 | the default transform is at the origin, with the identity rotation about z, scale (1,1,1) and no bind group |
| Components.DefaultCamera | src/components/rendering.rs:87-98 | the default camera looks at the origin with up = unit y, aspect 1.0, fovy 45, znear 0.001 and zfar 1000 |
| Components.NewCameraUniform | src/components/rendering.rs:63-69 | a new camera uniform holds the identity matrix |
| Components.SetProjection | src/components/rendering.rs:71-73 | every entry of the new matrix is the projection's, whatever the uniform held before |
| Components.VertexWords | src/components/rendering.rs:34-40 | a `#[repr(C)]` vertex is eight 4-byte words |
| Components.Descriptor | src/components/rendering.rs:42-55 | stride 32 and per-vertex stepping; attributes Float32x3 at byte 0 location 0, Float32x2 at 12 location 1, Float32x3 at 20 location 2 |
| Components.BufferWordsAt | src/components/rendering.rs:34-40 | a cast vertex slice is 8 words per vertex, and vertex i occupies words 8i .. 8i+8 |
| Components.BufferWordsLength | src/components/rendering.rs:34-40 | a cast vertex slice has 8 words per vertex |
| Components.VertexFetch | src/components/rendering.rs:42-55 | through the descriptor, locations 0, 1 and 2 of vertex i fetch exactly its position, texture coordinates and normal |
| Components.FetchField | src/components/rendering.rs:42-55 | from a vertex's 8-word block, the descriptor's attribute at each location reads that location's field |
| Components.FetchSlice | src/components/rendering.rs:50 | with a 32-byte stride, an attribute at word offset off of vertex i is read from inside that vertex's block |
| Materials.GetTexture | src/systems/material_builder.rs:28 | the lookup succeeds iff the path was loaded, yields the cached texture, and otherwise fails with TextureNotLoaded(path) |
| Materials.LoadedTexture | src/material_manager.rs:140-148 | a loaded texture takes the next three handles: texture, view, sampler |
| Materials.AddTextureFromPath | src/material_manager.rs:140-148 | succeeds iff the image exists, creating texture, view and sampler from the next three handles; otherwise panics with TextureUnreadable(path) and creates nothing |
| MeshBuilder.VertexBufferFor | src/systems/mesh_builder.rs:19-25 | the new buffer has the given handle, vertex usage, and holds exactly the mesh's vertices cast to words |
| MeshBuilder.BuildUpToAt | src/systems/mesh_builder.rs:17-27 | after visiting entities below k, each joined entity with no buffer that was visited has the next handle in visiting order, and all others are unchanged |
| MeshBuilder.BuildFillsEveryJoined | src/systems/mesh_builder.rs:17-27 | after the run every joined entity has a vertex buffer |
| MeshBuilder.BuildChangesOnlyPending | src/systems/mesh_builder.rs:18-26 | an entity not both joined and lacking a buffer is unchanged; one that is gets exactly a buffer of its mesh's vertices, with every other field kept |
| MeshBuilder.BuildHandlesDistinct | src/systems/mesh_builder.rs:19-25 | two entities filled in one run get buffers with distinct handles |
| MeshBuilder.BuildIdempotent | src/systems/mesh_builder.rs:18 | a second run changes no renderer and creates no buffer |
| MeshBuilder.Run | src/systems/mesh_builder.rs:13-28 | the loop leaves the renderer storage and the handle counter exactly as the build function says |
| MaterialBuilder.DiffuseBindGroup | src/systems/material_builder.rs:30-43 | the bind group uses the texture layout with the texture's view at binding 0 and its sampler at binding 1 |
| MaterialBuilder.BuildUpToAt | src/systems/material_builder.rs:21-46 | while every visited texture is cached, no failure occurs, one handle is used per renderer lacking a diffuse group, those renderers get the group, and the rest are unchanged |
| MaterialBuilder.BuildUpToStops | src/systems/material_builder.rs:28 | the first renderer whose texture is not cached stops the loop with TextureNotLoaded |
| MaterialBuilder.FailureSticks | src/systems/material_builder.rs:28 | once the loop has panicked, later entities change nothing |
| MaterialBuilder.MissingFails | src/systems/material_builder.rs:28 | an uncached texture for a renderer being built makes the run fail |
| MaterialBuilder.BuildFailsIff | src/systems/material_builder.rs:21-46 | the run fails iff some joined renderer lacking a diffuse group names an uncached texture |
| MaterialBuilder.BuildFailure | src/systems/material_builder.rs:21-46 | on failure the panic names the first such texture; entities from it onward are unchanged, and earlier ones being built got their group |
| MaterialBuilder.BuildSuccess | src/systems/material_builder.rs:21-46 | with every needed texture cached the run succeeds; only renderers lacking a diffuse group change, each gaining a group over its material's cached texture with a fresh handle, and the material is untouched |
| MaterialBuilder.BuildHandlesDistinct | src/systems/material_builder.rs:30 | two renderers built in one run get bind groups with distinct handles |
| MaterialBuilder.BuildIdempotent | src/systems/material_builder.rs:24-26 | after a successful run a second run, even against another manager, changes nothing and creates nothing |
| MaterialBuilder.Run | src/systems/material_builder.rs:17-47 | the loop's renderer storage, handle counter and panic agree with the build function |
| ModelBuilder.Interleave | src/systems/model_builder.rs:88-102 | on success there is one vertex per position triple |
| ModelBuilder.InterleaveFailsIff | src/systems/model_builder.rs:88-102 | interleaving panics iff some vertex below the count lacks its texture-coordinate pair or normal triple |
| ModelBuilder.VertexCountBound | src/systems/model_builder.rs:88 | the count's triples fit in the positions, with fewer than three left over |
| ModelBuilder.VerticesUpToAt | src/systems/model_builder.rs:88-102 | vertex i of the interleaving is built from position triple i, texcoord pair i and normal triple i |
| ModelBuilder.PositionsRoundTrip | src/systems/model_builder.rs:90-94 | flattening the positions of vertices read from triples of an array gives that array's first 3n floats back |
| ModelBuilder.TexCoordsRoundTrip | src/systems/model_builder.rs:95 | flattening texture coordinates read from pairs of an array gives its first 2n floats back |
| ModelBuilder.NormalsRoundTrip | src/systems/model_builder.rs:96-100 | flattening normals read from triples of an array gives its first 3n floats back |
| ModelBuilder.InterleaveRoundTrip | src/systems/model_builder.rs:88-102 | vertex i is positions[3i..3i+3], texcoords[2i..2i+2] and normals[3i..3i+3], and splitting the vertices back gives those prefixes |
| ModelBuilder.MeshesUpToSpec | src/systems/model_builder.rs:85-127 | the meshes succeed iff every import is in bounds. On success there is one mesh per import, in order. Mesh i has vertex buffer next+2i with its interleaved vertices and index buffer next+2i+1 with its indices. Its name is the file, its element count the index count, and its material the imported id or 0. Otherwise VertexIndexOutOfBounds(file) |
| ModelBuilder.MeshesUpToOk | src/systems/model_builder.rs:85-102 | the first k meshes build iff each of their imports is in bounds; the panic otherwise is VertexIndexOutOfBounds(file) |
| ModelBuilder.MeshesUpToAt | src/systems/model_builder.rs:104-125 | mesh i is the record of import i with buffer handles next+2i and next+2i+1 |
| ModelBuilder.MaterialsUpToSpec | src/systems/model_builder.rs:53-83 | the materials succeed iff every diffuse image exists. On success there is one material per import, in order, with the imported name. Each binds view and sampler of the texture at handles next+4i.. through an unlabelled group next+4i+3 on the texture layout. Otherwise the first unreadable image is named |
| ModelBuilder.MaterialsUpToOk | src/systems/model_builder.rs:55-60 | the first k materials build iff each diffuse image exists; otherwise the panic names the first missing one |
| ModelBuilder.MaterialsUpToAt | src/systems/model_builder.rs:56-82 | material i is the record of import i over the texture at handles next+4i .. with bind group next+4i+3 |
| ModelBuilder.MaterialsFailureSticks | src/systems/model_builder.rs:56-60 | after an unreadable image no further material is built |
| ModelBuilder.BuildMaterials | src/systems/model_builder.rs:53-83 | the loop returns exactly the materials function's result, using four handles per material on success |
| ModelBuilder.RebuildSpec | src/systems/model_builder.rs:32-137 | a rebuild succeeds iff the file, its parse, its material library, every image and every index are good. On success materials and meshes realize the imports in order, with 4 handles per material and 2 per mesh |
| ModelBuilder.RebuildOk | src/systems/model_builder.rs:32-127 | a rebuild succeeds iff the file reads and parses, its material library loads, every image opens and every mesh is in bounds |
| ModelBuilder.RebuildRealizes | src/systems/model_builder.rs:53-137 | a successful rebuild realizes the import and advances the counter by 4 per material and 2 per mesh |
| ModelBuilder.RebuildFailsEarly | src/systems/model_builder.rs:32-55 | an unreadable model file panics first; a parse that reaches an unreadable material library panics inside the loader closure, naming that library; an unparsable file panics at the loader's `unwrap`; a material library that fails to parse panics at `imported_materials.unwrap()`; each before any texture or buffer is created |
| ModelBuilder.RebuildEntity | src/systems/model_builder.rs:32-137 | the per-entity work agrees with the rebuild function, including the handle counter on success |
| ModelBuilder.FailureSticks | src/systems/model_builder.rs:24 | once a rebuild has panicked, the pass changes nothing more |
| ModelBuilder.PassUpToAt | src/systems/model_builder.rs:24-30 | with no failing rebuild below k, each stale visited entity holds its rebuilt renderer and every other entity is unchanged |
| ModelBuilder.PassUpToStops | src/systems/model_builder.rs:24-137 | the first stale entity whose rebuild fails stops the pass with that rebuild's own panic; the storage and the model's handle counter stay as they were before that entity, for every later prefix |
| ModelBuilder.BrokenFails | src/systems/model_builder.rs:24-137 | a stale entity that cannot be rebuilt makes the pass fail |
| ModelBuilder.PassFailsIff | src/systems/model_builder.rs:24-137 | the pass fails iff some stale entity cannot be rebuilt |
| ModelBuilder.PassSuccess | src/systems/model_builder.rs:26-30 | on success a renderer with both meshes and materials is unchanged, and a stale one realizes its model |
| ModelBuilder.SecondRunStale | src/systems/model_builder.rs:26 | after a successful pass, an entity is stale again iff it was stale and its import produced no meshes or no materials |
| ModelBuilder.SecondRunNoOp | src/systems/model_builder.rs:26-30 | when no rebuilt import is empty, a second pass changes nothing and creates nothing |
| ModelBuilder.NoStaleKeepsCounter | src/systems/model_builder.rs:28-30 | with no stale entity the pass creates no GPU object |
| ModelBuilder.Run | src/systems/model_builder.rs:19-139 | the loop's renderer storage and panic match the pass function, and so does the handle counter on success |
| Shaders.ShaderFile | src/shader_manager.rs:30 | the shader's file name starts with the name and ends with exactly the five characters `.wgsl` |
| Shaders.ShaderFileInjective | src/shader_manager.rs:30 | distinct shader names read distinct files |
| Shaders.ShaderInfoWired | src/shader_manager.rs:33-84 | the pipeline uses the module and the empty layout created with it and the vertex layout of `Vertex`. It targets the surface format. The three handles are distinct |
| Shaders.Find | src/shader_manager.rs:96-98 | lookup succeeds iff the name is registered, yields its entry, and otherwise fails with ShaderNotFound(name) |
| Shaders.FindRegistered | src/shader_manager.rs:86-98 | after adding a name its lookup returns the entry just added |
| Shaders.FindOther | src/shader_manager.rs:86 | adding a name does not change the lookup of any other name |
| Shaders.RegisterReplaces | src/shader_manager.rs:86-93 | re-adding a name replaces the earlier entry |
| Shaders.ShaderManager.constructor | src/shader_manager.rs:16-20 | a new manager holds no shaders: every lookup fails |
| Shaders.ShaderManager.AddShader | src/shader_manager.rs:22-94 | fails iff `<name>.wgsl` is missing, then changing nothing. Otherwise it registers the module, layout and pipeline built from the next three handles |
| Shaders.ShaderManager.GetShader | src/shader_manager.rs:96-98 | the registry lookup |
| Resizing.Resized | src/systems/resizing.rs:22-23 | only width and height change, to the window size, after which the size no longer differs |
| Resizing.CamerasUpToAt | src/systems/resizing.rs:25-27 | each visited camera has aspect width / height with its other fields kept; other entities are unchanged |
| Resizing.StageUnchanged | src/systems/resizing.rs:18-20 | an unchanged size changes nothing and configures nothing |
| Resizing.StageChanged | src/systems/resizing.rs:22-29 | on a change only width and height of the configuration change. Every camera, and only cameras, gets aspect (width, height). The surface is configured exactly once, with the new configuration |
| Resizing.StageTwice | src/systems/resizing.rs:18-23 | a second run with the same size does nothing |
| Resizing.Run | src/systems/resizing.rs:15-30 | the stage's configuration, camera storage and surface calls agree with the stage function |
| Rendering.CheckIsReady | src/systems/rendering.rs:58-66 | an entity passes all the `unwrap`s iff the shader and its four resources are present |
| Rendering.DrawBlock | src/systems/rendering.rs:59-70 | every drawn entity records six commands |
| Rendering.Blocks | src/systems/rendering.rs:57-71 | six commands per drawn entity |
| Rendering.BlocksAt | src/systems/rendering.rs:57-71 | command 6j+c of the draws is command c of the j-th joined entity's block |
| Rendering.PassAt | src/systems/rendering.rs:38-71 | inside the pass, after its opening command, command 6j+c+1 is command c of the j-th joined entity's block |
| Rendering.BlockCommands | src/systems/rendering.rs:57-71 | the j-th joined entity's six commands in the pass: pipeline "default", group 0 diffuse, group 1 transform, vertex slot 0, index buffer Uint16, then the draw |
| Rendering.JoinedDrawable | src/systems/rendering.rs:57 | while every joined entity is ready, every entity the join yields can be drawn |
| Rendering.TraceUpToBlocks | src/systems/rendering.rs:57-71 | while every visited joined entity is ready, the commands are the blocks of the joined entities in join order |
| Rendering.TraceUpToStops | src/systems/rendering.rs:58-66 | the first joined entity that is not ready stops the pass with its `unwrap`'s panic |
| Rendering.UnreadyFails | src/systems/rendering.rs:58-66 | a joined entity lacking a resource makes the pass fail; it is not skipped |
| Rendering.TraceFailureSticks | src/systems/rendering.rs:57-71 | after a panic nothing more is recorded |
| Rendering.FrameFailsIff | src/systems/rendering.rs:29-76 | the frame fails iff acquiring fails or some joined entity lacks the shader or a resource |
| Rendering.FrameFirstFailure | src/systems/rendering.rs:29-66 | the frame's panic is that of the first entity that is not ready, naming the missing binding, and ShaderNotFound when there is no "default" shader |
| Rendering.FrameSuccess | src/systems/rendering.rs:30-76 | a good frame makes exactly two calls: one submit, then present of the acquired texture. The pass renders into the view and clears to (0.1, 0.2, 0.3, 1.0). For each joined entity in order it holds: pipeline "default", group 0 diffuse, group 1 transform, vertex slot 0, index buffer Uint16, draw 0..count with instances 0..1 |
| Rendering.PassReadyWhenOk | src/systems/rendering.rs:29-66 | a good frame means the acquire succeeded and every joined entity was ready |
| Rendering.EmptyFrame | src/systems/rendering.rs:38-76 | with nothing to draw the frame is a cleared pass, submitted and presented |
| Rendering.Run | src/systems/rendering.rs:25-77 | the stage's calls agree with the frame function; a panic submits and presents nothing; the handle counter advances by one, for the view, unless the acquire fails |
| App.NewDispatcher | src/lib.rs:24 | a new dispatcher builder has no stages |
| App.With | src/lib.rs:25-27 | `with` appends a parallel stage and keeps the thread-local ones |
| App.WithThreadLocal | src/lib.rs:28-29 | `with_thread_local` appends a thread-local stage and keeps the parallel ones |
| App.SystemsSpec | src/lib.rs:245 | the parallel group runs exactly the registered parallel systems |
| App.ThreadLocalEventsSpec | src/lib.rs:245 | thread-local stages run one at a time in registration order |
| App.AppDispatcherStages | src/lib.rs:24-30 | the parallel stages are model_builder, camera and rotate, with no dependencies, and the thread-local stages are resizing then rendering |
| App.AppUpdateOrder | src/lib.rs:24-30 | an update runs the model builder, camera and rotation as the parallel group, then resizing, then rendering, then maintains |
| App.UpdateEndsWithMaintain | src/lib.rs:244-247 | an update dispatches the parallel group first, then each thread-local stage, then maintains last |
| App.FirstSrgb | src/lib.rs:184-189 | finds a format iff some format is sRGB, and then the first such |
| App.InitialConfig | src/lib.rs:183-198 | the initial configuration exists iff there is an sRGB format, a present mode and an alpha mode. It is 1 x 1 in the first sRGB format of the list, with the first present and alpha modes, render-attachment usage and no view formats. Failures come in the order of the code: no sRGB format, then no present mode, then no alpha mode |
| App.FirstResizeReconfigures | src/lib.rs:190-200 | the first resize stage reconfigures the surface once unless the window is 1 x 1, and otherwise not at all |
| App.AcceptResize | src/lib.rs:230-238 | the stored size is either the requested or the current one |
| App.AcceptResizeSpec | src/lib.rs:230-238 | a size with positive width and height is stored exactly, any other is ignored, and a positive stored size stays positive |
| App.ResizeAllLastPositive | src/lib.rs:230-238 | after a series of resizes that includes a positive request, the stored size is the last positive one; with none, it is the original |
| App.Application.Resize | src/lib.rs:230-238 | the stored size becomes the accepted size |
| App.Application.Input | src/lib.rs:240-242 | no window event is consumed |
| App.Application.Update | src/lib.rs:244-247 | an update appends the dispatcher's events followed by maintain |

## Left out

- OBJ/MTL parsing and file reads. The model builder takes the parsed import (`ObjFile`) and the readable images (`Files`) as inputs. The four early error cases are: the file is unreadable; the parse reaches a material library that cannot be read; the file does not parse; the material library does not parse. Which of the middle two a malformed file with an unreadable library meets depends on where the parser finds `mtllib`, so `ObjFile` records the outcome rather than the text.
- Image decoding and the texture upload in `add_texture` are not modelled. Only the three handles it creates are.
- systems/camera.rs and `RotateSystem` are float matrix and quaternion arithmetic, so they are not part of this model. They appear only as stage names in the dispatcher.
- `run` and `Application::new` are modelled only for the dispatcher `run` builds and the surface configuration `Application::new` makes. Left out are the logging and the window and canvas setup in `run`, and adapter, device and surface creation and world registration in `Application::new`, along with the order of those calls. The event loop closure is left out too: `input` always returns false, so every event falls through to its default handling.
- The dispatcher's parallel scheduling and storage locking are left out. The parallel group is one event holding a set of systems, and its internal order is not modelled.
- Floating-point arithmetic is left out. Floats are bit patterns. The aspect `width as f32 / height as f32` is modelled as the pair (width, height).
- ModelBuilder.MeshesUpToSpec: the buffer labels use `"` + file + `"` for `{:?}`. Rust's debug escaping of quotes and control characters inside the file name is not modelled.
- ModelBuilder.Run, ModelBuilder.PassUpToStops: after a panic the device's handle counter is not specified, although a failing rebuild may already have created textures or buffers for earlier materials or meshes; `Pass.next` is the counter before the failing entity. The process ends there, so no later object is observable.
- Materials.GetTexture: src/material_manager.rs defines no `get_texture`; src/systems/material_builder.rs:28 calls it. It is modelled as a lookup in a cache of loaded textures by path, fatal when the path is missing. `add_texture_from_path` takes `&self`, so it does not fill that cache.
- Rendering.Run: the render stage calls `get_shader` on the material manager. It is modelled as a lookup in the `ShaderManager` registry, because that is where shaders are registered. The command encoder and the texture view are handles, and the encoder does not take a handle from the counter.
- Rendering.DrawBlock: the index buffer is bound as Uint16, as the code says, although the model builder fills index buffers with `u32` indices. Because the components disagree, the two stages work on different records, so the mismatch is recorded here without a proof.
- Rendering.FrameSuccess: a renderer with zero indices still records its draw, as the code does.
- The pipeline layout created by `add_shader` has no bind-group layouts, following src/shader_manager.rs:41. The text-only variant in src/material_manager.rs:85-88, which lists texture then camera, is not modelled.
