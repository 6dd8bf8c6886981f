/** The scene state (src/state.rs): the start-up data (mesh, instance grid,
    surface format), the side effects the state issues to wgpu and winit, and
    the state machine of resize, update, render and key handling.

    Each GPU or window call is an `Effect`; a method returns the effects it
    issues, in order. `SceneView` is the value of the mutable part of a
    `State`, and the functions `ResizeStep`, `UpdateStep`, `RenderStep` and
    `KeyStep` say what each method does to it. */
module State {
  import opened Platform
  import opened Utils
  import Camera
  import Texture

  // ------------------------------------------------------------------ mesh

  datatype Vertex = Vertex(position: (real, real, real), textureCoords: (real, real))

  /** `VERTICES`: a pentagon in the z = 0 plane with its texture coordinates. */
  function Vertices(): (vs: seq<Vertex>)
    ensures |vs| == 5
  {
    [
      Vertex((-0.0868241, 0.49240386, 0.0), (0.4131759, 0.00759614)),
      Vertex((-0.49513406, 0.06958647, 0.0), (0.0048659444, 0.43041354)),
      Vertex((-0.21918549, -0.44939706, 0.0), (0.28081453, 0.949397)),
      Vertex((0.35966998, -0.3473291, 0.0), (0.85967, 0.84732914)),
      Vertex((0.44147372, 0.2347359, 0.0), (0.9414737, 0.2652641))
    ]
  }

  /** `INDICES`: whole triangles, each naming existing vertices. */
  function Indices(): (ix: seq<u16>)
    ensures |ix| == 9 && |ix| % 3 == 0
    ensures forall k :: 0 <= k < |ix| ==> ix[k] as int < |Vertices()|
  {
    [0, 1, 4, 1, 2, 4, 2, 3, 4]
  }

  /** The three triangles form a fan around the last vertex. */
  lemma MeshIsFan()
    ensures forall t :: 0 <= t < |Indices()| / 3 ==> Indices()[3 * t + 2] as int == |Vertices()| - 1
  {
    var ix := Indices();
    forall t | 0 <= t < |ix| / 3 ensures ix[3 * t + 2] as int == |Vertices()| - 1 {
      assert t == 0 || t == 1 || t == 2;
    }
  }

  // --------------------------------------------------------- instance grid

  const NUM_INSTANCE_PER_ROW: nat := 8
  /** `NUM_INSTANCE_PER_ROW as f32 * 0.5`, which is exactly 4. */
  const INSTANCE_DISPLACEMENT: int := NUM_INSTANCE_PER_ROW / 2

  /** An instance position; every grid position has integral coordinates. */
  datatype Position = Position(x: int, y: int, z: int) {
    predicate IsZero() { x == 0 && y == 0 && z == 0 }
  }

  /** The rotation axis: the z unit vector or a normalised position. */
  datatype Axis = UnitZ | Normalized(direction: Position)

  /** `Quaternion::from_axis_angle(axis, Deg(degrees))`. */
  datatype Rotation = FromAxisAngle(axis: Axis, degrees: int)

  datatype Instance = Instance(position: Position, rotation: Rotation)

  /** The instance made for index `i` of the grid. */
  function GridInstance(i: nat): Instance {
    var x, z := i % NUM_INSTANCE_PER_ROW, i / NUM_INSTANCE_PER_ROW;
    var position := Position(x - INSTANCE_DISPLACEMENT, 0, z - INSTANCE_DISPLACEMENT);
    var rotation := if position.IsZero() then FromAxisAngle(UnitZ, 0) else FromAxisAngle(Normalized(position), 45);
    Instance(position, rotation)
  }

  /** The instances of the 8 x 8 grid, in index order. */
  function Instances(): (r: seq<Instance>)
    ensures |r| == NUM_INSTANCE_PER_ROW * NUM_INSTANCE_PER_ROW == 64
  {
    seq(NUM_INSTANCE_PER_ROW * NUM_INSTANCE_PER_ROW, i requires 0 <= i => GridInstance(i))
  }

  /** A point of the grid's square: flat on y = 0 with x and z in -4 .. 3. */
  predicate OnGrid(p: Position) {
    p.y == 0 && -INSTANCE_DISPLACEMENT <= p.x < INSTANCE_DISPLACEMENT && -INSTANCE_DISPLACEMENT <= p.z < INSTANCE_DISPLACEMENT
  }

  /** The grid index of a point of the square: row by z, then column by x. */
  function GridIndex(p: Position): (i: nat)
    requires OnGrid(p)
    ensures i < 64
  {
    (p.z + INSTANCE_DISPLACEMENT) * NUM_INSTANCE_PER_ROW + (p.x + INSTANCE_DISPLACEMENT)
  }

  /** Instance `i` sits at column `i % 8` and row `i / 8` of the square centred on the origin. */
  lemma GridPosition(i: nat)
    requires i < 64
    ensures Instances()[i].position == Position(i % 8 - 4, 0, i / 8 - 4)
    ensures OnGrid(Instances()[i].position) && GridIndex(Instances()[i].position) == i
  {
  }

  /** Every point of the square carries exactly one instance: the grid index finds it,
      and no two instances share a position. */
  lemma GridCoversSquare()
    ensures forall p :: OnGrid(p) ==> Instances()[GridIndex(p)].position == p
    ensures forall i, j :: 0 <= i < j < 64 ==> Instances()[i].position != Instances()[j].position
  {
    forall p | OnGrid(p) ensures Instances()[GridIndex(p)].position == p {
      var i := GridIndex(p);
      assert i % 8 == p.x + 4 && i / 8 == p.z + 4;
    }
    forall i, j | 0 <= i < j < 64 ensures Instances()[i].position != Instances()[j].position {
      GridPosition(i);
      GridPosition(j);
    }
  }

  /** Only the centre instance, index 36, sits at the origin; it has the identity (0 degree)
      rotation and every other instance turns 45 degrees about its own normalised position. */
  lemma GridRotations()
    ensures forall i :: 0 <= i < 64 ==> (Instances()[i].position.IsZero() <==> i == 36)
    ensures Instances()[36].rotation == FromAxisAngle(UnitZ, 0)
    ensures forall i :: 0 <= i < 64 && i != 36 ==>
      Instances()[i].rotation == FromAxisAngle(Normalized(Instances()[i].position), 45)
  {
    forall i | 0 <= i < 64 ensures Instances()[i].position.IsZero() <==> i == 36 {
      GridPosition(i);
    }
  }

  // -------------------------------------------------------- surface format

  /** `formats.iter().find(|e| e.is_srgb())`. */
  function FindSrgb(formats: seq<TextureFormat>): (r: Option<TextureFormat>)
    ensures r.None? <==> forall k :: 0 <= k < |formats| ==> !formats[k].IsSrgb()
    ensures r.Some? ==> exists k :: (0 <= k < |formats| && formats[k] == r.value && formats[k].IsSrgb()
                                     && forall j :: 0 <= j < k ==> !formats[j].IsSrgb())
  {
    if |formats| == 0 then None
    else if formats[0].IsSrgb() then Some(formats[0])
    else
      var r := FindSrgb(formats[1..]);
      assert forall k :: 1 <= k < |formats| ==> formats[k] == formats[1..][k - 1];
      r
  }

  /** The surface format: the first sRGB format offered, else the first format offered.
      `unwrap_or(formats[0])` indexes the list eagerly, so the list must not be empty. */
  function SelectSurfaceFormat(formats: seq<TextureFormat>): (f: TextureFormat)
    requires |formats| > 0
    ensures (exists k :: 0 <= k < |formats| && formats[k].IsSrgb()) ==>
      exists k :: 0 <= k < |formats| && formats[k] == f && f.IsSrgb() && forall j :: 0 <= j < k ==> !formats[j].IsSrgb()
    ensures (forall k :: 0 <= k < |formats| ==> !formats[k].IsSrgb()) ==> f == formats[0]
  {
    match FindSrgb(formats)
    case Some(f) => f
    case None => formats[0]
  }

  /** The configuration `State::new` builds from the window size and the surface capabilities. */
  function InitialConfig(size: PhysicalSize, caps: SurfaceCapabilities): (config: SurfaceConfiguration)
    requires |caps.formats| > 0 && |caps.presentModes| > 0 && |caps.alphaModes| > 0
    ensures config.width == size.width && config.height == size.height
    ensures config.format == SelectSurfaceFormat(caps.formats)
    ensures config.presentMode == caps.presentModes[0] && config.alphaMode == caps.alphaModes[0]
    ensures config.usage == {RenderAttachment} && config.viewFormats == [] && config.desiredMaximumFrameLatency == 2
  {
    SurfaceConfiguration({RenderAttachment}, SelectSurfaceFormat(caps.formats), size.width, size.height,
      caps.presentModes[0], caps.alphaModes[0], [], 2)
  }

  // --------------------------------------------------------------- effects

  datatype BufferName = VertexBuffer | IndexBuffer | InstanceBuffer | CameraBuffer
  datatype BindGroupName = DiffuseBindGroup | CameraBindGroup

  /** The calls the core makes on the surface, device, queue, window and event loop. */
  datatype Effect =
    | RequestRedraw
    | ConfigureSurface(config: SurfaceConfiguration)
    | CreateDepthTexture(texture: Texture.Texture)
    | AcquireTexture
    | BeginRenderPass(clearColor: Color, clearDepth: real)
    | SetPipeline
    | SetBindGroup(index: nat, group: BindGroupName)
    | SetVertexBuffer(slot: nat, buffer: BufferName)
    | SetIndexBuffer(buffer: BufferName, format: IndexFormat)
    | DrawIndexed(firstIndex: nat, indexEnd: nat, baseVertex: int, firstInstance: nat, instanceEnd: nat)
    | EndRenderPass
    | Submit
    | Present
    | WriteBuffer(buffer: BufferName, offset: nat, data: seq<seq<real>>)
    | Exit
    | WindowFullscreen(mode: Option<Fullscreen>)
    | LogRenderError(error: SurfaceError)

  /** The work of one frame between acquiring and presenting: being drawn to the screen. */
  predicate IsFrameWork(e: Effect) {
    e.AcquireTexture? || e.BeginRenderPass? || e.DrawIndexed? || e.Submit? || e.Present?
  }

  /** The render pass of one frame: clear to black and depth 1, bind everything and draw all
      indices for all instances. */
  function FramePass(numIndices: nat, numInstances: nat): seq<Effect> {
    [
      BeginRenderPass(BLACK, 1.0),
      SetPipeline,
      SetBindGroup(0, DiffuseBindGroup),
      SetBindGroup(1, CameraBindGroup),
      SetVertexBuffer(0, VertexBuffer),
      SetVertexBuffer(1, InstanceBuffer),
      SetIndexBuffer(IndexBuffer, Uint16),
      DrawIndexed(0, numIndices, 0, 0, numInstances),
      EndRenderPass
    ]
  }

  // ------------------------------------------------------------ scene view

  /** The parts of a `State` that change after start-up. */
  datatype SceneView = SceneView(
    config: SurfaceConfiguration,
    depthTexture: Texture.Texture,
    camera: Camera.Camera,
    cameraUniform: Camera.CameraUniform,
    controls: Camera.ControllerState,
    isSurfaceConfigured: bool)

  /** The depth target always matches the configuration, and a configured surface has no zero side. */
  predicate SceneInvariant(v: SceneView) {
    && v.depthTexture == Texture.CreateDepthTexture(v.config)
    && (v.isSurfaceConfigured ==> v.config.width >= 1 && v.config.height >= 1)
  }

  datatype Step = Step(view: SceneView, effects: seq<Effect>)

  /** `resize`: a size with a zero side is ignored; any other size is stored, the surface is
      reconfigured, the depth target rebuilt, and the surface counts as configured from then on. */
  function ResizeStep(v: SceneView, size: PhysicalSize): Step {
    if size.width >= 1 && size.height >= 1 then
      var config := v.config.(width := size.width, height := size.height);
      var depth := Texture.CreateDepthTexture(config);
      Step(v.(config := config, depthTexture := depth, isSurfaceConfigured := true), [ConfigureSurface(config), CreateDepthTexture(depth)])
    else
      Step(v, [])
  }

  /** `update`: move the camera, recompute its uniform and upload the uniform. */
  function UpdateStep(v: SceneView, math: Camera.CameraMath): Step {
    var camera := Camera.Orbit(Camera.MotionOf(v.controls), v.camera, math);
    var uniform := Camera.UpdateViewProjection(v.cameraUniform, camera, math);
    Step(v.(camera := camera, cameraUniform := uniform), [WriteBuffer(CameraBuffer, 0, uniform.viewProjection)])
  }

  datatype Rendered = Rendered(result: SurfaceResult, effects: seq<Effect>)

  /** `render`, given what acquiring the next surface texture yields. */
  function RenderStep(v: SceneView, acquired: SurfaceResult): Rendered {
    if !v.isSurfaceConfigured then
      Rendered(Ok, [RequestRedraw])
    else if acquired.Err? then
      Rendered(acquired, [RequestRedraw, AcquireTexture])
    else
      Rendered(Ok, [RequestRedraw, AcquireTexture] + FramePass(|Indices()|, |Instances()|) + [Submit, Present])
  }

  /** What `set_fullscreen(turnOn)` asks of the window. */
  function FullscreenEffect(turnOn: bool): Effect {
    WindowFullscreen(if turnOn then Some(Borderless) else None)
  }

  /** The window commands of `handle_key` beyond the controller. */
  function KeyCommand(code: KeyCode, isPressed: bool): seq<Effect> {
    if !isPressed then []
    else match code
      case Escape => [Exit]
      case KeyF => [FullscreenEffect(true)]
      case KeyE => [FullscreenEffect(false)]
      case _ => []
  }

  /** `handle_key`: the controller always sees the key, then a press may issue a window command. */
  function KeyStep(v: SceneView, code: KeyCode, isPressed: bool): Step {
    Step(v.(controls := Camera.ApplyKey(v.controls, code, isPressed)), KeyCommand(code, isPressed))
  }

  /** A resize to a size with no zero side stores that size, configures the surface and then
      creates a depth target of exactly that size, and marks the surface configured. */
  lemma ResizeAccepted(v: SceneView, size: PhysicalSize)
    requires size.width >= 1 && size.height >= 1
    ensures var s := ResizeStep(v, size);
      && s.view.config == v.config.(width := size.width, height := size.height)
      && s.view.isSurfaceConfigured
      && s.view.depthTexture.descriptor.size == Extent3d(size.width, size.height, 1)
      && s.view.camera == v.camera && s.view.cameraUniform == v.cameraUniform && s.view.controls == v.controls
      && s.effects == [ConfigureSurface(s.view.config), CreateDepthTexture(s.view.depthTexture)]
  {
  }

  /** A resize with a zero side changes nothing and issues nothing. */
  lemma ResizeIgnored(v: SceneView, size: PhysicalSize)
    requires size.width == 0 || size.height == 0
    ensures ResizeStep(v, size) == Step(v, [])
  {
  }

  /** Every step keeps the scene invariant, and none clears the configured flag. */
  lemma StepsKeepInvariant(v: SceneView, size: PhysicalSize, math: Camera.CameraMath, code: KeyCode, isPressed: bool)
    requires SceneInvariant(v)
    ensures SceneInvariant(ResizeStep(v, size).view) && SceneInvariant(UpdateStep(v, math).view)
      && SceneInvariant(KeyStep(v, code, isPressed).view)
    ensures v.isSurfaceConfigured ==> ResizeStep(v, size).view.isSurfaceConfigured
  {
  }

  /** Render always asks for the next redraw first. While unconfigured it then stops with success;
      once configured a failed acquisition returns its error with nothing submitted or presented,
      and a successful one draws the whole mesh for every instance, submits once and presents once. */
  lemma RenderGating(v: SceneView, acquired: SurfaceResult)
    ensures var r := RenderStep(v, acquired);
      && |r.effects| >= 1 && r.effects[0] == RequestRedraw
      && (!v.isSurfaceConfigured ==> r == Rendered(Ok, [RequestRedraw]))
      && (v.isSurfaceConfigured && acquired.Err? ==> r == Rendered(acquired, [RequestRedraw, AcquireTexture]))
      && (v.isSurfaceConfigured && acquired.Ok? ==>
            r.result == Ok && r.effects[..2] == [RequestRedraw, AcquireTexture]
            && r.effects[|r.effects| - 2..] == [Submit, Present]
            && DrawIndexed(0, 9, 0, 0, 64) in r.effects)
  {
    if v.isSurfaceConfigured && acquired.Ok? {
      var r := RenderStep(v, acquired);
      assert r.effects[9] == DrawIndexed(0, 9, 0, 0, 64);
    }
  }

  /** Key commands act on presses only: Escape exits, F enters and E leaves borderless fullscreen. */
  lemma KeyCommandTable(code: KeyCode, isPressed: bool)
    ensures !isPressed ==> KeyCommand(code, isPressed) == []
    ensures isPressed && code == Escape ==> KeyCommand(code, isPressed) == [Exit]
    ensures isPressed && code == KeyF ==> KeyCommand(code, isPressed) == [WindowFullscreen(Some(Borderless))]
    ensures isPressed && code == KeyE ==> KeyCommand(code, isPressed) == [WindowFullscreen(None)]
    ensures code !in {Escape, KeyF, KeyE} ==> KeyCommand(code, isPressed) == []
  {
  }

  /** No key both steers the camera and commands the window. */
  lemma KeysDoNotOverlap(code: KeyCode, isPressed: bool)
    ensures Camera.KeyFlag(code).Some? ==> KeyCommand(code, isPressed) == []
    ensures KeyCommand(code, isPressed) != [] ==> forall v :: KeyStep(v, code, isPressed).view == v
  {
  }

  // ----------------------------------------------------------------- State

  /** `State`: the GPU resources and scene data; surface, device, queue, pipeline, buffers and
      bind groups are the receivers of the effects and are not represented further. */
  class State {
    var config: SurfaceConfiguration
    var depthTexture: Texture.Texture
    const diffuseTexture: Texture.Texture
    const numIndices: u32
    const instances: seq<Instance>
    var camera: Camera.Camera
    var cameraUniform: Camera.CameraUniform
    const controller: Camera.CameraController
    var isSurfaceConfigured: bool
    /** The floating-point operations the camera needs. */
    const math: Camera.CameraMath

    ghost predicate Valid()
      reads this
    {
      && depthTexture == Texture.CreateDepthTexture(config)
      && (isSurfaceConfigured ==> config.width >= 1 && config.height >= 1)
      && numIndices as int == |Indices()|
      && instances == Instances()
    }

    function View(): SceneView
      reads this, controller
    {
      SceneView(config, depthTexture, camera, cameraUniform, controller.View(), isSurfaceConfigured)
    }

    /** `State::new` once the device is negotiated and the texture decoded: the initial
        configuration, a depth target for it, the camera at (0, 1, 2) looking at the origin,
        a controller of speed 0.25, the 8 x 8 grid, and a surface that is not yet configured. */
    constructor (size: PhysicalSize, caps: SurfaceCapabilities, diffuse: Texture.Image, math: Camera.CameraMath)
      requires |caps.formats| > 0 && |caps.presentModes| > 0 && |caps.alphaModes| > 0
      requires 4 * diffuse.width as int <= U32_MAX
      ensures Valid() && fresh(controller)
      ensures config == InitialConfig(size, caps)
      ensures depthTexture == Texture.CreateDepthTexture(config)
      ensures diffuseTexture == Texture.FromImage(diffuse).texture
      ensures camera == Camera.NewCamera([0.0, 1.0, 2.0], [0.0, 0.0, 0.0], math.divide(size.width as real, size.height as real), 45.0, 0.1, 100.0)
      ensures cameraUniform == Camera.UpdateViewProjection(Camera.NewCameraUniform(), camera, math)
      ensures controller.View() == Camera.ControllerState(0.25, false, false, false, false, false, false)
      ensures instances == Instances() && numIndices == 9
      ensures !isSurfaceConfigured && this.math == math
    {
      var surfaceConfig := InitialConfig(size, caps);
      config := surfaceConfig;
      diffuseTexture := Texture.FromImage(diffuse).texture;
      depthTexture := Texture.CreateDepthTexture(surfaceConfig);
      var cam := Camera.NewCamera([0.0, 1.0, 2.0], [0.0, 0.0, 0.0],
        math.divide(surfaceConfig.width as real, surfaceConfig.height as real), 45.0, 0.1, 100.0);
      camera := cam;
      cameraUniform := Camera.UpdateViewProjection(Camera.NewCameraUniform(), cam, math);
      controller := new Camera.CameraController(0.25);
      instances := Instances();
      numIndices := |Indices()| as u32;
      isSurfaceConfigured := false;
      this.math := math;
    }

    /** `update`: the camera and its uniform change as `UpdateStep` says; nothing else does. */
    method Update() returns (effects: seq<Effect>)
      requires Valid()
      modifies this`camera, this`cameraUniform
      ensures Valid()
      ensures Step(View(), effects) == UpdateStep(old(View()), math)
    {
      camera := controller.UpdateCamera(camera, math);
      cameraUniform := Camera.UpdateViewProjection(cameraUniform, camera, math);
      effects := [WriteBuffer(CameraBuffer, 0, cameraUniform.viewProjection)];
    }

    /** `render`, given what `get_current_texture` yields; the state itself is left unchanged. */
    method Render(acquired: SurfaceResult) returns (result: SurfaceResult, effects: seq<Effect>)
      requires Valid()
      ensures Rendered(result, effects) == RenderStep(View(), acquired)
    {
      effects := [RequestRedraw];
      // No frame is drawn while the surface is unconfigured.
      if !isSurfaceConfigured {
        return Ok, effects;
      }
      effects := effects + [AcquireTexture];
      if acquired.Err? {
        return acquired, effects;
      }
      effects := effects + FramePass(numIndices as nat, |instances|);
      effects := effects + [Submit];
      effects := effects + [Present];
      result := Ok;
    }

    /** `resize`: the configuration, depth target and configured flag change as `ResizeStep` says. */
    method Resize(size: PhysicalSize) returns (effects: seq<Effect>)
      requires Valid()
      modifies this`config, this`depthTexture, this`isSurfaceConfigured
      ensures Valid()
      ensures Step(View(), effects) == ResizeStep(old(View()), size)
    {
      effects := [];
      if size.width >= 1 && size.height >= 1 {
        config := config.(width := size.width, height := size.height);
        effects := effects + [ConfigureSurface(config)];
        depthTexture := Texture.CreateDepthTexture(config);
        effects := effects + [CreateDepthTexture(depthTexture)];
        isSurfaceConfigured := true;
      }
    }

    /** `handle_key`: the controller and the window commands as `KeyStep` says. */
    method HandleKey(code: KeyCode, isPressed: bool) returns (effects: seq<Effect>)
      requires Valid()
      modifies controller
      ensures Valid()
      ensures Step(View(), effects) == KeyStep(old(View()), code, isPressed)
    {
      var _ := controller.HandleKey(code, isPressed);
      effects := [];
      if !isPressed {
        return;
      }
      match code {
        case Escape =>
          effects := [Exit];
        case KeyF =>
          effects := SetFullscreen(true);
        case KeyE =>
          effects := SetFullscreen(false);
        case _ =>
      }
    }

    /** `set_fullscreen`: borderless fullscreen on, or windowed. */
    method SetFullscreen(turnOn: bool) returns (effects: seq<Effect>)
      ensures effects == [FullscreenEffect(turnOn)]
    {
      effects := [FullscreenEffect(turnOn)];
    }
  }
}
