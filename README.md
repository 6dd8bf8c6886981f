# wgpu-practice: a Dafny model of the renderer's discrete core

The program is a small wgpu demo. It draws a textured pentagon 64 times on an 8 x 8 grid. A camera orbits the grid, driven by the keyboard. This project models the parts of the program whose behaviour is exact rather than floating-point, and proves properties of them:

- the camera controller's key-flag state machine (`src/camera.rs`);
- the surface-configuration and render-gating state machine of `State` (`src/state.rs`). A frame is drawn only after the surface has been configured by a resize with no zero side. Each frame is acquire, render pass, submit, present;
- the start-up data of `State::new`: the surface format choice, the mesh and the instance grid;
- the event dispatch of `App`. This includes the recovery rule: a lost or outdated surface leads to a resize to the window's current size;
- the matrix and point layout conversions (`src/utils.rs`) and the texture extents, formats and copy layout (`src/texture.rs`).

The wgpu and winit calls whose order the core's properties depend on become `Effect`s. These are configuring the surface, creating the depth texture, acquiring a frame, the render-pass commands, submitting, presenting, writing the camera buffer, requesting a redraw, exiting, fullscreen and logging a render error. The calls with no `Effect`, and the calls merged into one, are listed under "## Left out". A method returns the effects it issues, in order. Two answers come from the outside world while an event is handled: the outcome of `get_current_texture` and the window's inner size. Both are parameters (`App.Surroundings`).

Modules:

- `Platform`: the winit and wgpu value types the core uses. These include `u8`/`u16`/`u32`, key codes, window events, surface configuration, texture and sampler descriptors.
- `Utils`: `Matrix4`/`Point3` and their array forms.
- `Camera`: `Camera`, `CameraUniform`, the class `CameraController`, and `Orbit`. `Orbit` is the specification of `update_camera`.
- `Texture`: the depth texture and the image texture.
- `State`: the mesh, the grid, the format selection, the `Effect` type and the class `State`. The pure step functions `ResizeStep`, `UpdateStep`, `RenderStep` and `KeyStep` specify `State`'s methods.
- `App`: the class `App`, the pure `Dispatch`/`AppStep`/`Run`, and lemmas about whole sequences of events.

Classes model three of the objects the source updates in place: `CameraController`, `State` and `App`. The camera, which `update_camera` changes through a mutable reference, is a value (see "## Left out"). Each method's postcondition ties the object's new value (`View()`, `Scene()`) and the effects it returns to the corresponding step function. The lemmas about sequences of events are stated over `App.Run`. Five of them are proved by induction over the events: `NoStateNoEffects`, `RunKeepsState`, `RunKeepsInvariant`, `NoFrameBeforeConfigure` and `RunSubmitThenPresent`. Together they show that without a state nothing happens, that once configured the surface stays configured, that the depth target always matches the configuration, that nothing is acquired or presented before the first configuration, and that every submit is followed at once by a present.

## Model

| member | source | states |
|---|---|---|
| Utils.ArrayToPoint3 | src/utils.rs:7-10 | the three array entries become x, y, z in order |
| Utils.MatrixToArray | src/utils.rs:11-19 | the result is 4 x 4 and entry [i][j] is component j of column i (columns x, y, z, w) |
| Utils.MatrixToArrayRoundTrip | src/utils.rs:11-19 | the matrix can be read back from its array form |
| Utils.ArrayToMatrixRoundTrip | src/utils.rs:11-19 | every 4 x 4 array is the array form of the matrix read from it |
| Utils.MatrixToArrayInjective | src/utils.rs:12-18 | each of the 16 components has its own cell, so distinct matrices give distinct arrays |
| Utils.MatrixToArrayIdentity | src/utils.rs:11-19 | the identity matrix becomes the identity nested array |
| Camera.NewCamera | src/camera.rs:29-39 | eye and target keep their component order; aspect, fovy, znear, zfar are stored as given |
| Camera.NewCameraUniform | src/camera.rs:59-63 | a new uniform holds the identity matrix |
| Camera.UpdateViewProjection | src/camera.rs:65-67 | the uniform holds exactly the camera's view-projection matrix, in array form |
| Camera.CameraController.constructor | src/camera.rs:81-91 | the given speed and all six flags false |
| Camera.CameraController.HandleKey | src/camera.rs:93-121 | the result is true exactly for the eleven mapped keys; the new controller value is `ApplyKey` of the old one |
| Camera.KeyTable | src/camera.rs:94-119 | W/ArrowUp drive forward, S/ArrowDown backward, A/ArrowLeft left, D/ArrowRight right, Space up, Shift down, in both directions of each equivalence |
| Camera.ApplyKeyFrame | src/camera.rs:93-121 | a mapped key sets its own flag to the pressed state and keeps speed and the other five flags; an unmapped key changes nothing |
| Camera.ApplyKeyIdempotent | src/camera.rs:93-121 | the same key event twice has the effect of one |
| Camera.ReleaseAfterPress | src/camera.rs:93-121 | press then release equals release alone; the key's flag ends clear |
| Camera.MotionIgnoresVertical | src/camera.rs:123-149 | the motion update's input does not depend on the up and down flags |
| Camera.CameraController.UpdateCamera | src/camera.rs:123-149 | the new camera is `Orbit` of the four read flags and the speed; only the eye changes |
| Camera.OrbitIdle | src/camera.rs:123-149 | with no motion flag held the camera does not move |
| Camera.OrbitForwardGuard | src/camera.rs:124-131 | forward alone moves one step towards the target only while the target is farther than one step |
| Camera.OrbitLeftOverridesRight | src/camera.rs:136-148 | with left held, holding right as well makes no difference |
| Texture.DepthExtent | src/texture.rs:87-91 | each side is the configured side raised to at least 1; the depth is 1 |
| Texture.CreateDepthTexture | src/texture.rs:86-120 | a Depth32Float 2D texture of that extent, one mip level, one sample, render-attachment and binding usage, less-or-equal comparison sampler |
| Texture.FromImage | src/texture.rs:32-84 | an Rgba8UnormSrgb texture of the image's size and depth 1, filled by one copy at offset 0 with rows of 4 x width bytes and height rows |
| Texture.UploadCoversImage | src/texture.rs:63-67 | row pitch times rows equals the decoded buffer's length, and the copy covers the whole texture |
| State.Vertices | src/state.rs:40-46 | the mesh has five vertices |
| State.Indices | src/state.rs:48-52 | nine indices, a multiple of three, each below the vertex count |
| State.MeshIsFan | src/state.rs:48-52 | every triangle ends at the last vertex |
| State.Instances | src/state.rs:308-325 | the grid has 8 x 8 = 64 instances |
| State.GridPosition | src/state.rs:310-315 | instance i is at (i % 8 - 4, 0, i / 8 - 4) and `GridIndex` recovers i |
| State.GridCoversSquare | src/state.rs:301-315 | every point of the square -4..3 x -4..3 on y = 0 holds exactly one instance |
| State.GridRotations | src/state.rs:317-321 | only index 36 is at the origin and gets the 0-degree rotation; all others turn 45 degrees about their normalised position |
| State.FindSrgb | src/state.rs:116-118 | None exactly when no format is sRGB; otherwise the first sRGB format |
| State.SelectSurfaceFormat | src/state.rs:116-119 | the first sRGB format if there is one, else the first format |
| State.InitialConfig | src/state.rs:121-130 | window size, selected format, first present mode, first alpha mode, render-attachment usage, latency 2 |
| State.ResizeAccepted | src/state.rs:424-431 | a size with no zero side is stored; configure, then a depth target of exactly that size; configured; camera and controller untouched |
| State.ResizeIgnored | src/state.rs:425 | a zero side changes nothing and issues nothing |
| State.StepsKeepInvariant | src/state.rs:424-432 | every step keeps the depth target equal to `CreateDepthTexture(config)`; a resize never clears the configured flag |
| State.RenderGating | src/state.rs:367-422 | redraw is always requested first; unconfigured gives Ok with nothing else; a failed acquire returns its error with no submit or present; success draws indices 0..9 for instances 0..64, then submits and presents |
| State.KeyCommandTable | src/state.rs:434-450 | releases command nothing; on press Escape exits, F enters and E leaves borderless fullscreen, other keys command nothing |
| State.KeysDoNotOverlap | src/state.rs:434-450 | a key that steers the camera commands nothing; a commanding key leaves the scene unchanged |
| State.State.constructor | src/state.rs:79-359 | initial configuration, matching depth target, camera at (0,1,2) looking at the origin, controller speed 0.25, the 64-instance grid, 9 indices, surface not yet configured |
| State.State.Update | src/state.rs:361-365 | the camera moves as `Orbit` says, its uniform is recomputed and written to the camera buffer |
| State.State.Render | src/state.rs:367-422 | result and effects are `RenderStep` of the current state; nothing changes |
| State.State.Resize | src/state.rs:424-432 | configuration, depth target, flag and effects as `ResizeStep` says |
| State.State.HandleKey | src/state.rs:434-450 | the controller always sees the key; effects as `KeyCommand` says |
| State.State.SetFullscreen | src/state.rs:452-457 | borderless fullscreen when turning on, windowed otherwise |
| App.App.constructor | src/app.rs:24-28 | no state |
| App.App.UserEvent | src/app.rs:44-46 | the delivered state replaces the held one |
| App.App.WindowEvent | src/app.rs:48-76 | the held state and the effects change as `AppStep` says; without a state nothing happens |
| App.CloseAndResize | src/app.rs:55-58 | close requested issues exit only; a resize event is exactly one `resize` |
| App.RedrawRecovery | src/app.rs:59-70 | update before render; lost or outdated leads to a resize to the window's inner size; any other error is only logged; Ok adds nothing |
| App.LostSurfaceIsReconfigured | src/app.rs:62-66 | a lost frame of a configured surface stores the window's size and configures the surface, with no submit or present |
| App.NoStateNoEffects | src/app.rs:49-52 | without a state every sequence of events does nothing |
| App.RunKeepsState | src/app.rs:48-76 | event handling never drops the held state |
| App.DispatchKeepsInvariant | src/app.rs:48-76 | one event keeps the depth target matching the configuration and never clears the configured flag |
| App.RunKeepsInvariant | src/state.rs:430 | over any event sequence the invariant holds and the configured flag, once set, stays set |
| App.UnconfiguredDispatch | src/state.rs:370-373 | from an unconfigured surface one event either configures it first thing or does no frame work |
| App.NoFrameBeforeConfigure | src/state.rs:370-375 | over any event sequence from an unconfigured surface, no acquire, draw, submit or present comes before a surface configuration |
| App.DispatchSubmitThenPresent | src/state.rs:418-419 | within one event every submit is followed at once by a present |
| App.RunSubmitThenPresent | src/state.rs:418-419 | over any event sequence every submit is followed at once by a present |

## Left out

- Floating-point numerics. Reals stand for `f32`. Addition, subtraction, scaling and the cross product are exact real arithmetic. `normalize`, `magnitude`, the `f32` division of the aspect ratio and the view-projection builder are uninterpreted fields of `Camera.CameraMath`. Rounding is therefore not modelled.
- The view-projection math is left out: `look_at_rh`, `perspective`, `OPENGL_TO_WGPU_MATRIX` and `build_view_projection_matrix`. With square roots and trigonometry abstract, nothing about distances (the orbit radius, not passing the target) can be proved.
- Camera.OrbitForwardGuard: it states only which branch runs, not that the eye never passes the target. That claim needs the real `normalize` and `magnitude`.
- `Instance::to_raw`, `InstanceRaw` and the quaternion arithmetic. A rotation is kept as its axis and angle (`State.Rotation`).
- The vertex and instance buffer layouts (`src/vertex.rs`, `src/instance.rs`). They come from the `vertex_attr_array!` macro and `size_of`, which are library code.
- Device, adapter and surface negotiation in `State::new`, together with its failure paths and the window title, resizability and size request. `State.State.constructor` is the path after negotiation succeeded. The decoded image and the surface capabilities are its parameters.
- Image decoding (`from_bytes`, `load_from_memory`) and the embedded asset. `Texture.FromImage` starts from a decoded image.
- Texture.FromImage: it requires `4 * width` to fit in a `u32`. The source computes this product in `u32`, which panics in debug builds and wraps in release builds.
- The pipeline, shader, bind-group and buffer creation in `State::new`. The live failures of those calls are also left out. These values are fixed, and the frame's effects refer to them by name.
- `App::resumed`: window creation, `block_on` and the panic on a failed start-up. A state enters the model through `App.App.UserEvent`.
- The winit event loop, logging set-up, `src/main.rs` and `get_window`. `get_window` is a query whose one use, the inner size, is a parameter.
- `update_view_projection` mutates `camera_uniform` through `&mut self`. The model writes a fresh `CameraUniform` value into the `State` field. No state is shared, so the difference cannot be observed.
- Calls without an `Effect`: `render` also creates a view of the acquired texture, a command encoder and the finished command buffer (`src/state.rs:377-381`, `src/state.rs:418`). Their order follows from the frame's `AcquireTexture`, `BeginRenderPass` and `Submit`: a view, encoder or buffer is used only by the effect that comes after it.
- Merged calls: `create_depth_texture` calls `create_texture`, `create_view` and `create_sampler` in turn (`src/texture.rs:93-117`). The model issues them as one `CreateDepthTexture` effect, which carries both descriptors.
- Camera.CameraController.UpdateCamera: `update_camera` changes the `Camera` in place through `&mut Camera` (`src/camera.rs:123-149`). The model returns the new camera as a value, which `State.State.Update` stores in its `camera` field. Only the controller has a reference to the camera during the call, so the model loses no aliasing; it does not capture the order of the separate writes to `camera.eye` inside the call.
- State.InitialConfig and State.SelectSurfaceFormat: both require non-empty lists of formats, present modes and alpha modes. The source indexes `formats[0]`, `present_modes[0]` and `alpha_modes[0]` directly and would panic on an empty list (`src/state.rs:119`, `src/state.rs:126-127`). The lists are non-empty because the adapter is requested with `compatible_surface` set to the window's surface (`src/state.rs:100`), and such an adapter supports at least one configuration of that surface. The panic is not modelled.
