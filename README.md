# GAMES202-HW-vulkano, modelled in Dafny

GAMES202-HW-vulkano is a small Vulkan scene viewer written in Rust on top of
vulkano, winit and imgui. It loads a Wavefront OBJ model and draws it with a
Phong material, next to a point light drawn as an emissive cube. The user flies
a perspective camera with the W/S/A/D/Z/X keys and turns it by dragging with
the middle mouse button.

This project models the sequential logic under the GPU plumbing, as Dafny over
mathematical reals, and proves what that logic promises:

- **`Cameras`** (`camera.dfy`) models the scene camera.
  - `Camera::new` checks its parameters in a fixed order.
  - It builds a symmetric-frustum projection whose depth range is [0, 1] and whose aspect can be read back.
  - `look_at` and `set_position` update its fields in place.
  - The default methods of `CameraControl` give the direction table and the rotation target.
- **`Materials`** (`materials.dfy`) models the uniform records and the one-field setters.
  - The `UniformsT` trait becomes the class `Uniforms`, including the default `set_view_proj_matrix_from_camera`.
  - It gives the buffer-update commands and the descriptor-binding slots of each material.
- **`MeshRenderer`** (`mesh_renderer.dfy`) models the mesh side.
  - `MeshData::create` validates indices, and `MeshData::cube` is the unit cube.
  - `create_mesh` turns bindings into descriptor sets.
  - `draw_commands` records a fixed command order.
  - `CubeGeometry` (`cube.dfy`) proves the cube's data by computation.
- **`Objects`** (`object.dfy`) models OBJ vertex assembly.
  - The hash-map dedup loop turns a vertex stream into unique vertices and an index list.
  - It also covers the assembly of the textured and untextured vertex streams.
- **`Lights`** (`light.dfy`) models the point light.
  - Its cube mesh, its emissive uniforms, its per-frame update and its position.
- **`EmptyBindings`** (`macros.dfy`) models the `add_empty_descriptor_bindings!` procedural macro.
  - It covers argument validation and the emitted gap of bindings.
- **`App`** (`app.dfy`) models the application input state machine.
  - The camera is created lazily and rebuilt when the window's aspect changes.
  - It covers key-driven moves in table order, middle-button hold and cursor lock, and the mouse-delta clamp.
  - It also covers the one-second frame-time window behind the FPS counter.
- **`Support`** (`support.dfy`) models the window title and the process exit code.
  - The window title is the basename of the program path.
  - The exit code is derived from the event loop's stored result.
- **`Gpu`** (`gpu.dfy`) and **`Geometry`** (`geometry.dfy`) model the outside world.
  - **`Gpu`**: buffers, images and uploads are opaque handles, and a command builder is a log of commands.
  - **`Geometry`**: vectors and matrices follow euclid's row-vector convention (`p·M`). The entries `m11`…`m44` are row-major and 1-based.
  - `Geometry.Libm` carries `tan`, `sqrt` and the matrix inverse as abstract functions. `atan2` is abstract too. Each comes with only the facts the proofs need: `tan` is positive on (0, π/2); `sqrt` is non-negative, and positive exactly off zero; `atan2(0, x)` is 0 for x > 0 and `atan2(y, 0)` is π/2 for y > 0; the inverse of an affine matrix is affine. An exact square root (`ExactSqrt`) is assumed only by the lemmas that need it.

`App.Application.RotateCameraTo` uses the corrected rotation target described
under "Findings"; the target as the code writes it is kept beside it as
`Cameras.ProjectedTargetAsWritten`.

Failures are values. `Result<T, E>` and `Outcome<E>` (for `Result<(), E>`) in
`wrappers.dfy` carry every error path the Rust code returns with `?`.

## Model

| member | source | states |
|---|---|---|
| Cameras.ConfigurationError | src/scene/camera.rs:18-72 | `Camera::new` rejects exactly the invalid configurations. The fov check comes first, then far ≤ near; aspect is checked only once fov, far and near pass; the target and up checks only once the frustum is valid. |
| Cameras.RejectedConfigurations | src/scene/camera.rs:246-466 | The test suite's rejected inputs give the expected errors: fov π and 0, far < near, near 0 and −1, aspect −2 and 0, target = position, up = 0, and up = 1.5 × the viewing offset (colinear). |
| Cameras.ParallelIsColinear | src/scene/camera.rs:65-72 | An up vector that is a positive multiple of the offset to the target is colinear with the normalized view direction, so `Camera::new` rejects it. |
| Cameras.FrustumShape | src/scene/camera.rs:74-84 | For half-height t, the perspective matrix has m11 = n/(t·aspect) > 0, m22 = −n/t < 0, m33 = −f/(f−n) < 0, m34 = −1, m43 = −fn/(f−n) < 0, and the other eleven entries 0. |
| Cameras.HalfHeightPositive | src/scene/camera.rs:74-76 | For a fov in range and near ≥ ε, the near-plane half-height near·tan(fov/2) is positive, so the frustum is well formed. |
| Cameras.DepthRange | src/scene/camera.rs:79-84 | The projection maps view-space z = −near to NDC depth 0 and z = −far to NDC depth 1. |
| Cameras.AspectRoundTrip | src/scene/camera.rs:139-142 | `get_aspect_ratio` (−m22/m11) of the projection returns the aspect it was built from. |
| Cameras.ProjectionExample | src/scene/camera.rs:213-243 | For fov π/3, aspect 2, near 1 and far 5, the projection is the matrix of the unit test. |
| Cameras.ViewCentersCamera | src/scene/camera.rs:117-129 | The view transform is affine and maps the camera position to the origin. |
| Cameras.ViewOfMovedCamera | src/scene/camera.rs:117-129 | Moving the camera changes only the translation row of its view matrix, never its basis. |
| Cameras.MovedCameraMatchesFresh | src/scene/camera.rs:479-513 | A camera moved with `set_position` has the view transform of a fresh camera at the new position looking the same way. |
| Cameras.LookAtError | src/scene/camera.rs:93-104 | `look_at` fails exactly when the target is too close to the position or colinear with up, and closeness is reported first. |
| Cameras.MoveSign | src/scene/camera.rs:166-169 | Backward, Up and Right move with sign +1; Forward, Down and Left with −1. |
| Cameras.MoveAxis | src/scene/camera.rs:171-175 | Forward/Backward use the view z axis, Left/Right the x axis, Up/Down the y axis, and each iff. |
| Cameras.OppositeMovesCancel | src/scene/camera.rs:160-181 | Opposite directions share an axis with opposite signs, so their displacements over the same time cancel. |
| Cameras.StillWithoutTime | src/scene/camera.rs:176-178 | With zero speed or zero elapsed time, a move displaces the camera by nothing. |
| Cameras.TargetInBackHalf | src/scene/camera.rs:185-190 | Inside the unit disk the rotation target has z ≤ 0, both as written and corrected. |
| Cameras.ProjectedTargetIsUnit | src/scene/camera.rs:184-190 | The corrected rotation target lies on the unit sphere for every point of the unit disk. |
| Cameras.ProjectedTargetAsWrittenNotUnit | src/scene/camera.rs:186-190 | The target as written has squared length 0.76, not 1, for p = (0.6, 0). |
| Cameras.Camera.New | src/scene/camera.rs:18-91 | `Camera::new` fails iff `ConfigurationError` reports an error, and with that error. On success the camera keeps every parameter and looks along the normalized direction to the target. |
| Cameras.Camera.LookAt | src/scene/camera.rs:93-107 | On failure nothing changes. On success only the direction changes, to the normalized direction from the position to the target; position, up and projection stay. |
| Cameras.Camera.SetPosition | src/scene/camera.rs:109-111 | Only the position changes. |
| Cameras.Camera.View | src/scene/camera.rs:117-129 | `get_view_transform` returns the view matrix of the current pose (`ViewMatrix`). It is affine and takes the camera's position to the view-space origin. |
| Cameras.Camera.AspectRatio | src/scene/camera.rs:139-142 | The aspect read from the projection matrix is the one the camera was built with. |
| Materials.Seed | src/scene/object.rs:243-256 | Object uniforms start with ks padded by w = 0 and every other field zero. Emissive uniforms take the light's intensity and its colour with alpha 1. |
| Materials.Uniforms.SetModelMatrix | src/scene/object.rs:97-99 | Only the model matrix changes. |
| Materials.Uniforms.SetViewMatrix | src/scene/object.rs:101-103 | Only the view matrix changes. |
| Materials.Uniforms.SetProjMatrix | src/scene/object.rs:105-107 | Only the projection matrix changes. |
| Materials.Uniforms.SetViewProjMatrixFromCamera | src/scene/material.rs:33-36 | View becomes the camera's view transform and proj its projection. The model matrix and the fragment record are untouched. |
| Materials.Uniforms.SetLightPos | src/scene/object.rs:155-157 | Only the light position changes, to the point [x, y, z, 1]. |
| Materials.Uniforms.SetCameraPos | src/scene/object.rs:159-162 | Only the camera position changes, to the camera's position with w = 1. |
| Materials.Uniforms.SetLightIntensity | src/scene/object.rs:164-166 | Only the light intensity changes. |
| Materials.Uniforms.UpdateCommands | src/scene/object.rs:109-122 | One update command per uniform buffer, in buffer order; for objects the vertex record goes to buffer 0 and the fragment record to buffer 1. |
| Materials.Uniforms.Emissive | src/scene/light.rs:44-61 | The emissive record carries the current matrices, intensity and colour. |
| Materials.Uniforms.UpdateBuffers | src/scene/object.rs:109-122 | Outside a render pass, appends exactly `UpdateCommands()` to the log. Inside one, fails and leaves the log unchanged. |
| Materials.Uniforms.DescriptorBindings | src/scene/object.rs:125-151 | Slots are numbered 0, 1, …: a buffer slot per uniform buffer, then an image slot only when a texture is present. |
| Materials.Uniforms.CreateDescriptorSets | src/scene/object.rs:125-151 | Fails iff the layout has no set 0. Otherwise it gives one set whose slots hold exactly the declared bindings. |
| Materials.CreateUniforms | src/scene/object.rs:224-257 | Fresh uniforms with default matrices and the material's seeded fragment record, using only freshly allocated buffers, and starting no upload. |
| Gpu.CommandBuilder.Update | src/scene/object.rs:109-122 | A buffer update is logged only outside a render pass; inside one it fails and changes nothing. |
| Gpu.CommandBuilder.BeginRenderPass | src/scene/renderer/mesh_renderer.rs:145-151 | Logged and entering a render pass only when not already inside one. |
| Gpu.CommandBuilder.DrawIndexed | src/scene/renderer/mesh_renderer.rs:152-160 | Logged only inside a render pass. |
| Gpu.CommandBuilder.EndRenderPass | src/scene/renderer/mesh_renderer.rs:161-162 | Logged and leaving the render pass only when inside one. |
| Gpu.Device.UploadBuffer | src/scene/renderer/mesh_renderer.rs:253-265 | Each buffer created from data gets a fresh handle and starts one new, unfinished upload. |
| Gpu.Device.UploadImage | src/scene/renderer/mesh_renderer.rs:301-316 | Each image created from pixels gets a fresh handle and starts one new upload. |
| Gpu.Device.Wait | src/scene/renderer/mesh_renderer.rs:336-346 | Waiting finishes exactly the given started uploads. |
| MeshRenderer.Create | src/scene/renderer/mesh_renderer.rs:52-64 | Succeeds iff every index is below the vertex count, keeping both vectors. Otherwise it fails on the first offending index. |
| MeshRenderer.CubeVertices | src/scene/renderer/mesh_renderer.rs:69-101 | The cube's vertices are the 24 listed corners passed through the vertex constructor, in order. |
| MeshRenderer.Cube | src/scene/renderer/mesh_renderer.rs:68-113 | `cube()` is the 24 corners with the 36 listed indices, all below 24, so its internal `create` never fails. |
| MeshRenderer.Mesh.DrawCommands | src/scene/renderer/mesh_renderer.rs:127-164 | Sets model, then view and proj. Outside a render pass, it logs the uniform updates, begin render pass, one indexed draw with the mesh's buffers and sets, and end render pass, in that order. Otherwise it fails and logs nothing. |
| MeshRenderer.Renderer.CreateMesh | src/scene/renderer/mesh_renderer.rs:244-355 | Succeeds iff every declared binding's set index is in the pipeline layout, with one set per binding in declaration order. It fails on the first missing index. On success the mesh's buffers hold the given vertices and indices, and every upload it started has finished. |
| CubeGeometry.CubeSizes | src/scene/renderer/mesh_renderer.rs:72-110 | 24 vertices and 36 indices, every index below 24. |
| CubeGeometry.CubeFaceTriangles | src/scene/renderer/mesh_renderer.rs:103-110 | Face f's triangles are (4f, 4f+1, 4f+2) and (4f, 4f+2, 4f+3). |
| CubeGeometry.CubeFacePlanes | src/scene/renderer/mesh_renderer.rs:72-101 | Every coordinate is ±1, and the four vertices of each face share that face's fixed coordinate. |
| CubeGeometry.CubeWindingOutward | src/scene/renderer/mesh_renderer.rs:72-110 | For both triangles of each face, (v1−v0)×(v2−v0) points out along the face's normal. |
| Objects.Find | src/scene/object.rs:314-322 | The hash-map lookup: the first position of a key among the unique vertices, or their count when absent. |
| Objects.UniqueKeysDistinct | src/scene/object.rs:317-324 | The output vertices have pairwise distinct keys. |
| Objects.UniqueCoversKeys | src/scene/object.rs:317-324 | Every input key occurs among the output vertices. |
| Objects.UniqueFirstOccurrences | src/scene/object.rs:317-324 | Each output vertex is the first input vertex with its key. |
| Objects.UniqueKeepsOrder | src/scene/object.rs:317-324 | Output vertices appear in the order of their keys' first appearance. |
| Objects.DedupRoundTrip | src/scene/object.rs:316-326 | Every index points into the output. With at most 65536 distinct keys, the indexed vertex has the input vertex's key. |
| Objects.DedupWrapsPast65536 | src/scene/object.rs:320 | The `as u16` cast wraps: with more than 65536 distinct keys, the 65537th new key gets index 0, which names a vertex with another key. |
| Objects.Dedup | src/scene/object.rs:303-328 | Fails iff some input is an error, with the first one. Otherwise it yields the first-occurrence unique vertices and one index per input, each the (wrapped) position of its key. |
| Objects.Resolve | src/scene/object.rs:350-378 | Out-of-range position, texture or normal indices are errors. A missing texture index or texture list gives no texture, and a missing normal index gives no normal. Otherwise it picks the indexed attributes. |
| Objects.AssembleTextured | src/scene/object.rs:405-416 | Errors pass through, and a missing normal or texture coordinate is an error. Otherwise position is padded with w = 1 and the normal with w = 0. |
| Objects.AssemblePlain | src/scene/object.rs:451-459 | Errors pass through, and a missing normal is an error. Otherwise position is padded with w = 1 and the normal with w = 0. |
| Objects.TexturedStream | src/scene/object.rs:396-416 | One assembled vertex per index tuple of the flattened polygons, in order. |
| Objects.PlainStream | src/scene/object.rs:442-459 | One assembled vertex per index tuple of the flattened polygons, in order. |
| Objects.DedupDraws | src/scene/object.rs:418-430 | The deduplicated vertices with their per-vertex indices draw the input stream whenever there are at most 65536 distinct vertices. |
| Objects.Object.WithTexture | src/scene/object.rs:387-435 | A vertex error aborts with the stream's first error. Otherwise the object is created iff the layout has every material set, with fresh uniforms seeded from the material. Its mesh holds the deduplicated stream and one (wrapped) index per input vertex, and draws the stream when there are at most 65536 distinct vertices. |
| Objects.Object.WithoutTexture | src/scene/object.rs:438-477 | The same as `WithTexture`, for the untextured stream. |
| Lights.CreateFromPosition | src/scene/light.rs:72-77 | The vertex is the point (x, y, z, 1). |
| Lights.LightCubeVertices | src/scene/light.rs:94-96 | The light's mesh has 24 vertices, all points whose coordinates are ±1. |
| Lights.PositionOf | src/scene/light.rs:120-123 | The light's position is the model matrix's image of the origin: defined iff m44 > 0, and then (m41, m42, m43)/m44. |
| Lights.AffinePosition | src/scene/light.rs:120-123 | For an affine model matrix the position is its translation. |
| Lights.PointLight.New | src/scene/light.rs:88-101 | Built from the cube; succeeds iff the layout has set 0. Its mesh holds the cube's 24 points and 36 indices; its intensity is the given one and its colour the given one with alpha 1. |
| Lights.PointLight.Intensity | src/scene/light.rs:126-128 | `get_intensity` returns the intensity in the light's uniform. It is always the intensity the light was created with: `Valid` keeps the fragment record seeded from the material, `PointLight.New` returns the given intensity and `PrepareDrawCommands` never changes it. |
| Lights.PointLight.Position | src/scene/light.rs:120-124 | `get_position` is `PositionOf` the current model matrix: defined iff m44 > 0, and then (m41, m42, m43)/m44; otherwise the invalid-transform error. For an affine model matrix it is the translation row. |
| Lights.PointLight.PrepareDrawCommands | src/scene/light.rs:104-117 | Writes model, view and proj, then logs the emissive buffer update. The matrices change even when logging fails; intensity and colour never change. |
| EmptyBindings.AsI32 | games202-hw-vulkano-macros/src/lib.rs:30-31 | A `u32` read as an `i32` wraps past 2^31 − 1. |
| EmptyBindings.Parse | games202-hw-vulkano-macros/src/lib.rs:17-47 | Accepts iff −1 ≤ previous < next < 2^31 and keeps the arguments. A previous below −1 is an illegal binding id, and non-increasing pairs are rejected. |
| EmptyBindings.LargeNextRejected | games202-hw-vulkano-macros/src/lib.rs:31-40 | A next of 2^31 or more wraps negative and is rejected as not increasing. |
| EmptyBindings.Expand | games202-hw-vulkano-macros/src/lib.rs:50-70 | Exactly next − previous − 1 statements, the k-th for binding previous + 1 + k. |
| EmptyBindings.ExpandCoversGap | games202-hw-vulkano-macros/src/lib.rs:58-66 | A binding is emitted iff it lies strictly between previous and next, each once and in increasing order. |
| EmptyBindings.ExpandEdges | games202-hw-vulkano-macros/src/lib.rs:58-66 | Adjacent bindings emit nothing, and previous = −1 starts at binding 0. |
| App.Build | src/main.rs:222-258 | The camera `get_camera_mut` builds with its fixed fov, near, far and up fails iff `Camera::new` would reject it. Otherwise it is at the given position looking at the target. |
| App.PrepareCamera | src/main.rs:230-256 | With no camera a new one is built at (0, 0, 5). A camera whose aspect matches is kept as is. A mismatched one is rebuilt at the same position. An error is possible only when building. |
| App.InitialViewNotColinear | src/main.rs:245-254 | The first camera looks from (0, 0, 5) along −z at the origin, at a right angle to up = +y, so the colinearity check never rejects it. |
| App.InitialCameraBuilds | src/main.rs:245-254 | The first camera is built iff the window's aspect is at least ε; a narrower window fails with `AspectTooSmall`. |
| App.RebuildKeepsDirection | src/main.rs:230-242 | A rebuilt camera keeps the old direction (normalized) and has up = +y. |
| App.MovedAlong | src/main.rs:282-289 | Successive moves change only the camera position; direction and up stay. |
| App.MovedAlongSnoc | src/main.rs:282-289 | One more pressed key adds one more move after the earlier ones. |
| App.StillInZeroTime | src/main.rs:282-289 | With zero elapsed time, any sequence of moves leaves the camera where it is. |
| App.HeldMovesPrefix | src/main.rs:282-289 | A prefix of the key table yields no more moves than the whole table. |
| App.HeldMovesInOrder | src/main.rs:271-289 | The first k table entries yield exactly the directions ranked below k whose key is held, in table order. |
| App.PressedMovesInOrder | src/main.rs:271-289 | A direction is moved along iff its key (W→Forward, S→Backward, A→Left, D→Right, Z→Up, X→Down) is pressed, and moves follow table order. |
| App.RecentKeepsLastSecond | src/main.rs:122-125 | The window keeps a frame time iff it was recorded and is less than one second old, and never grows. |
| App.MouseDeltaInDisk | src/main.rs:189-194 | After the clamp, the scaled mouse delta lies in the unit disk, so the rotation's disk check cannot fire. |
| App.Application.constructor | src/main.rs:78-95 | No camera, middle button not held, no cursor lock, cursor at (0, 0), colour [1, 0, 0], no frame times, speed 1. |
| App.Application.GetCameraMut | src/main.rs:222-258 | Succeeds iff the lazily created or rebuilt camera builds, and the stored camera is the returned one, with fov π/4, near 1 and far 100 (`Valid`). On failure no camera is left (`take()` already removed it). |
| App.Application.MoveCamera | src/scene/camera.rs:160-181 | Fails iff the camera cannot be obtained. Otherwise the camera moves by speed·seconds along the direction's view axis and sign, and nothing else changes. |
| App.Application.RotateCameraTo | src/scene/camera.rs:184-208 | A target outside the unit disk fails with the camera untouched. Otherwise it fails iff obtaining the camera or `look_at` fails, and on success looks at the target mapped back from view space. |
| App.Application.MoveIfHeld | src/main.rs:282-289 | One step of the key loop: an unpressed key changes nothing, and a pressed key adds one move or fails at the first obtaining of the camera. |
| App.Application.UpdateCameraFromKeyState | src/main.rs:266-291 | No pressed key leaves the camera untouched. Otherwise it fails iff the camera cannot be obtained, and on success the camera has made every pressed key's move in table order. |
| App.Application.OnMouseButton | src/main.rs:199-218 | Middle press sets held and locks the cursor at its current position. Middle release clears both. Any other button changes nothing. |
| App.Application.OnMouseMove | src/main.rs:177-197 | Without the middle button held nothing changes. With it held, the camera turns as `RotateCameraTo` does for the clamped mouse step: outside the unit disk it fails untouched; a failed build fails with no camera; otherwise it fails iff `look_at` rejects the target, keeping the pose, and on success looks at it. With an exact square root the disk error never occurs. |
| App.Application.RecordFrame | src/main.rs:122-125 | The new frame time is kept, every older entry kept is less than a second old, and the FPS counter is at least 1. |
| App.Application.UpdateUi | src/main.rs:121-175 | Records the frame, moves the camera for the pressed keys, and on success stores the cursor position; no other UI state changes. A failed camera update leaves the cursor as it was and no camera. |
| Support.LastSlash | src/support.rs:91 | `rfind('/')`: absent iff the path has no '/', else the index of the last '/'. |
| Support.WindowTitle | src/support.rs:91-94 | The title has no '/' and is a suffix of the path, preceded there by a '/' whenever the path has one. A path without '/' is unchanged, and one ending in '/' gives the empty title. |
| Support.TitleOfJoinedPath | src/support.rs:91-94 | The title of dir + "/" + name is name, for a name without '/'. |
| Support.TitleIdempotent | src/support.rs:91-94 | Taking the title of a title changes nothing. |
| Support.ExitCode | src/support.rs:374-380 | The exit code is 1 iff the stored result is an error, and 0 otherwise. |
| Support.StoredResult | src/support.rs:240-401 | The stored result is an error iff some handler failed, and then it is the first failure. |
| Support.RunEventLoop | src/support.rs:240-401 | Handlers run until the first failure, which ends the loop. The exit code is 1 iff a handler failed, and 0 only when every handler ran. |

## Left out

- Vulkan object creation is left out: the instance, device, swapchain, pipelines, render passes, framebuffers, samplers, fences and future joins. So are `Renderer::init`, `Renderer::create_framebuffer`, `ObjectRenderer::init` and `ObjectMaterial::with_texture`'s image decoding. These are foreign library calls. Buffers, images and uploads are opaque handles, and a command builder is a log.
- Shader modules, `src/scene/renderer/mod.rs` and `src/scene_renderer/mod.rs` are not part of this model. They are compiled GLSL and thin vulkano orchestration.
- The source at this revision does not compile as a whole, so the model picks one consistent interface. `create_mesh` returns one `Mesh` that owns its uniforms, as `mesh_renderer.rs` does, and the point light reads its uniforms through that mesh. The uniforms declare the `create_descriptor_bindings` slots (0 vertex buffer, 1 fragment buffer, 2 texture), with `create_descriptor_sets`' slot layout.
- Materials.Uniforms.UpdateCommands: the emissive material's single buffer and single update are assumed, because `EmissiveUniforms` is defined in shader code that is not part of this model.
- f32 arithmetic is modelled as real arithmetic. `approx_eq` is a fixed ε = 1e-6. `tan`, `sqrt`, `atan2` and `inverse` are abstract with only the facts listed above. NaN and infinity are not modelled, and neither is the numeric orthonormality of the view basis.
- Geometry.Normalize leaves a zero vector unchanged where f32 would produce NaN. A normalized mouse delta is assumed exact only when `ExactSqrt` is required.
- App.WindowAspect requires a non-zero window height. A minimised window gives an infinite or NaN f32 aspect that reals do not represent.
- `OrderedFloat` hashing and HashMap internals are left out. The dedup key is the vertex itself, with decidable equality.
- `Mutex`/`Arc`/`Rc<RefCell>` sharing is left out. The uniforms are owned directly by their mesh.
- The key state is the set of pressed keys among W, S, A, D, Z, X. It stands for imgui's 512-entry `keys_down` array, of which only these entries are read.
- App.Application.OnMouseMove does not model the cursor re-positioning through `set_cursor_position` (src/main.rs:178-183) or its possible failure; that is window I/O.
- App.Application.OnMouseButton does not model hiding and showing the cursor, which is window I/O.
- App.Application.UpdateUi does not model the imgui window, the colour picker, the model file dialog or the model loading it triggers. These are UI and file I/O. The clock and the elapsed time are parameters.
- `get_scene_state` (src/main.rs:97-119) is left out. It derives the light position from the wall clock through sin and cos.
- Error messages added by `chain_err` are left out. Errors keep their original cause.
- Device allocation, buffer and image uploads, descriptor-set building, the flush and the wait for the uploads are taken as infallible (src/scene/renderer/mesh_renderer.rs:258, 264, 269, 294-295, 315, 328-329, 342-346). So are the `syn` token parsing and literal conversion of the macro (games202-hw-vulkano-macros/src/lib.rs:18-29). The "iff" contracts of MeshRenderer.Renderer.CreateMesh, Lights.PointLight.New, Objects.Object.WithTexture, Objects.Object.WithoutTexture, Materials.CreateUniforms and EmptyBindings.Parse hold under that assumption; an out-of-memory or device-lost error the driver reports is not modelled.
- Gpu.Device.UploadBuffer does not record buffer contents, because one device serves meshes of different vertex types; the contents are recorded on the mesh instead (`MeshRenderer.Mesh.data`).
- Gpu.Device.UploadImage does not record the picture it uploads. An image slot of a descriptor set (`MeshRenderer.SetsMatch`) is tied to a fresh image whose upload was started and waited for, but not to the picture of its binding, which `create_mesh` builds it from (src/scene/renderer/mesh_renderer.rs:301-316).
- Gpu.CommandBuilder lets recording fail only through the render-pass state. vulkano also validates clear values against the attachments (src/scene/renderer/mesh_renderer.rs:149) and the dynamic state (src/scene/renderer/mesh_renderer.rs:154). In this program those checks cannot fail, because the colour attachment is `load: DontCare` (src/scene/renderer/mesh_renderer.rs:190) and the viewports are static (src/scene/renderer/mesh_renderer.rs:207-220). The "iff" contracts of the four `CommandBuilder` methods, Materials.Uniforms.UpdateBuffers, MeshRenderer.Mesh.DrawCommands and Lights.PointLight.PrepareDrawCommands rest on this.
- App.Application.RotateCameraTo aims at the corrected target (`Cameras.ProjectedTarget`, z = −sqrt(1 − |p|²)), not at the target src/scene/camera.rs:189 computes (z = −sqrt(1 − |p|)); the two differ whenever 0 < |p| < 1. The as-written target is `Cameras.ProjectedTargetAsWritten` (see "Findings").
- App.Application.OnMouseMove turns the camera through `RotateCameraTo`, so it too aims at the corrected target rather than at the one src/scene/camera.rs:189 computes.
- App.Application.MoveIfHeld is a proof device for the body of the key loop, not a separate function of the program.
- Support.RunEventLoop models only the stored result and the exit code of `main_loop`. Window events, rendering and swapchain recreation are left out; a handler's outcome is a parameter. Events winit might deliver after an exit request are taken as not handled.

## Findings

| source | as written | input that shows it | evidently intended | confidence | as-written member | corrected member |
|---|---|---|---|---|---|---|
| src/scene/camera.rs:189 | z = −sqrt(1 − length(p)) | p = (0.6, 0): the target (0.6, 0, −sqrt(0.4)) has squared length 0.76 | z = −sqrt(1 − length(p)²), so the target is the unit vector whose view-plane projection is p | not executed | Cameras.ProjectedTargetAsWrittenNotUnit | Cameras.ProjectedTargetIsUnit |
