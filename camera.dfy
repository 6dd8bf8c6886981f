/** The camera, its GPU uniform and the keyboard-driven orbit controller
    (src/camera.rs). Coordinates are reals; the operations that need square
    roots or trigonometry (normalising, measuring, building the
    view-projection matrix) and the f32 division of the aspect ratio are
    supplied as the uninterpreted functions of a `CameraMath` value. */
module Camera {
  import opened Platform
  import opened Utils

  /** cgmath's `Vector3<f32>`, a displacement between points. */
  datatype Vector3 = Vector3(x: real, y: real, z: real)

  const UNIT_Y: Vector3 := Vector3(0.0, 1.0, 0.0)

  /** `p - q` of two points. */
  function Between(p: Point3<real>, q: Point3<real>): Vector3 {
    Vector3(p.x - q.x, p.y - q.y, p.z - q.z)
  }

  /** `p + v`. */
  function Advance(p: Point3<real>, v: Vector3): Point3<real> {
    Point3(p.x + v.x, p.y + v.y, p.z + v.z)
  }

  /** `p - v`. */
  function Retreat(p: Point3<real>, v: Vector3): Point3<real> {
    Point3(p.x - v.x, p.y - v.y, p.z - v.z)
  }

  function Plus(v: Vector3, w: Vector3): Vector3 { Vector3(v.x + w.x, v.y + w.y, v.z + w.z) }

  function Minus(v: Vector3, w: Vector3): Vector3 { Vector3(v.x - w.x, v.y - w.y, v.z - w.z) }

  function Scale(v: Vector3, s: real): Vector3 { Vector3(v.x * s, v.y * s, v.z * s) }

  function Cross(v: Vector3, w: Vector3): Vector3 {
    Vector3(v.y * w.z - v.z * w.y, v.z * w.x - v.x * w.z, v.x * w.y - v.y * w.x)
  }

  datatype Camera = Camera(eye: Point3<real>, target: Point3<real>, aspect: real, fovy: real, znear: real, zfar: real)

  /** The floating-point operations the camera code borrows from cgmath and the language. */
  datatype CameraMath = CameraMath(
    normalize: Vector3 -> Vector3,
    magnitude: Vector3 -> real,
    divide: (real, real) -> real,
    viewProjection: Camera -> Matrix4<real>)

  /** `Camera::new`: eye and target arrive as three-element arrays and keep their component order. */
  function NewCamera(eye: seq<real>, target: seq<real>, aspect: real, fovy: real, znear: real, zfar: real): (c: Camera)
    requires |eye| == 3 && |target| == 3
    ensures [c.eye.x, c.eye.y, c.eye.z] == eye && [c.target.x, c.target.y, c.target.z] == target
    ensures c.aspect == aspect && c.fovy == fovy && c.znear == znear && c.zfar == zfar
  {
    Camera(ArrayToPoint3(eye), ArrayToPoint3(target), aspect, fovy, znear, zfar)
  }

  /** The camera data uploaded to the GPU: one 4x4 matrix in array form. */
  datatype CameraUniform = CameraUniform(viewProjection: seq<seq<real>>)

  /** `CameraUniform::new`: the identity matrix. */
  function NewCameraUniform(): (u: CameraUniform)
    ensures u.viewProjection == IdentityArray(0.0, 1.0)
  {
    MatrixToArrayIdentity(0.0, 1.0);
    CameraUniform(MatrixToArray(IdentityMatrix(0.0, 1.0)))
  }

  /** `update_view_projection`: the uniform now holds the camera's view-projection matrix, losslessly. */
  function UpdateViewProjection(u: CameraUniform, camera: Camera, math: CameraMath): (u': CameraUniform)
    ensures IsMat4(u'.viewProjection)
    ensures ArrayToMatrix(u'.viewProjection) == math.viewProjection(camera)
  {
    MatrixToArrayRoundTrip(math.viewProjection(camera));
    u.(viewProjection := MatrixToArray(math.viewProjection(camera)))
  }

  // ------------------------------------------------------------ controller

  /** The six direction flags of the controller. */
  datatype Flag = Forward | Backward | Left | Right | Up | Down

  /** The value of a `CameraController`: its speed and six pressed flags. */
  datatype ControllerState = ControllerState(
    speed: real,
    forward: bool, backward: bool, left: bool, right: bool, up: bool, down: bool)
  {
    function Get(f: Flag): bool {
      match f
      case Forward => forward
      case Backward => backward
      case Left => left
      case Right => right
      case Up => up
      case Down => down
    }

    function Set(f: Flag, b: bool): ControllerState {
      match f
      case Forward => this.(forward := b)
      case Backward => this.(backward := b)
      case Left => this.(left := b)
      case Right => this.(right := b)
      case Up => this.(up := b)
      case Down => this.(down := b)
    }
  }

  /** Which flag a key drives, if any. */
  function KeyFlag(key: KeyCode): Option<Flag> {
    match key
    case KeyW | ArrowUp => Some(Forward)
    case KeyS | ArrowDown => Some(Backward)
    case KeyA | ArrowLeft => Some(Left)
    case KeyD | ArrowRight => Some(Right)
    case Space => Some(Up)
    case ShiftLeft | ShiftRight => Some(Down)
    case _ => None
  }

  /** The controller value after `handle_key(key, isPressed)`. */
  function ApplyKey(c: ControllerState, key: KeyCode, isPressed: bool): ControllerState {
    match KeyFlag(key)
    case Some(f) => c.Set(f, isPressed)
    case None => c
  }

  /** The key table: W and ArrowUp drive forward, S and ArrowDown backward, A and ArrowLeft left,
      D and ArrowRight right, Space up, either Shift down; no other key drives anything. */
  lemma KeyTable(key: KeyCode)
    ensures KeyFlag(key) == Some(Forward) <==> key == KeyW || key == ArrowUp
    ensures KeyFlag(key) == Some(Backward) <==> key == KeyS || key == ArrowDown
    ensures KeyFlag(key) == Some(Left) <==> key == KeyA || key == ArrowLeft
    ensures KeyFlag(key) == Some(Right) <==> key == KeyD || key == ArrowRight
    ensures KeyFlag(key) == Some(Up) <==> key == Space
    ensures KeyFlag(key) == Some(Down) <==> key == ShiftLeft || key == ShiftRight
  {
  }

  /** Setting one flag leaves the speed and the other five flags as they were. */
  lemma SetFrame(c: ControllerState, f: Flag, b: bool)
    ensures c.Set(f, b).speed == c.speed && c.Set(f, b).Get(f) == b
    ensures forall g :: g != f ==> c.Set(f, b).Get(g) == c.Get(g)
  {
    forall g | g != f ensures c.Set(f, b).Get(g) == c.Get(g) {
      match f
      case Forward =>
      case Backward =>
      case Left =>
      case Right =>
      case Up =>
      case Down =>
    }
  }

  /** A recognised key sets its own flag to the pressed state and leaves the speed and the other
      five flags alone; an unrecognised key changes nothing. */
  lemma ApplyKeyFrame(c: ControllerState, key: KeyCode, isPressed: bool)
    ensures ApplyKey(c, key, isPressed).speed == c.speed
    ensures KeyFlag(key).Some? ==> ApplyKey(c, key, isPressed).Get(KeyFlag(key).value) == isPressed
    ensures KeyFlag(key).Some? ==>
      forall g :: g != KeyFlag(key).value ==> ApplyKey(c, key, isPressed).Get(g) == c.Get(g)
    ensures KeyFlag(key).None? ==> ApplyKey(c, key, isPressed) == c
  {
    if KeyFlag(key).Some? {
      SetFrame(c, KeyFlag(key).value, isPressed);
    }
  }

  /** Handling the same key event twice is the same as handling it once. */
  lemma ApplyKeyIdempotent(c: ControllerState, key: KeyCode, isPressed: bool)
    ensures ApplyKey(ApplyKey(c, key, isPressed), key, isPressed) == ApplyKey(c, key, isPressed)
  {
  }

  /** The last event for a key decides its flag: a release after a press leaves the flag clear. */
  lemma ReleaseAfterPress(c: ControllerState, key: KeyCode)
    ensures ApplyKey(ApplyKey(c, key, true), key, false) == ApplyKey(c, key, false)
    ensures KeyFlag(key).Some? ==> !ApplyKey(ApplyKey(c, key, true), key, false).Get(KeyFlag(key).value)
  {
  }

  /** What `update_camera` reads from the controller: the speed and four of the six flags. */
  datatype Motion = Motion(speed: real, forward: bool, backward: bool, left: bool, right: bool)

  function MotionOf(c: ControllerState): Motion {
    Motion(c.speed, c.forward, c.backward, c.left, c.right)
  }

  /** The up and down flags never reach the motion update. */
  lemma MotionIgnoresVertical(c: ControllerState, up: bool, down: bool)
    ensures MotionOf(c.(up := up, down := down)) == MotionOf(c)
  {
  }

  /** The eye after one `update_camera` step: a guarded move towards the target, an unguarded move
      away from it, then a re-aim around the target at the current distance for right and for left.
      The left branch reuses the direction measured before the right branch moved the eye. */
  function Orbit(m: Motion, camera: Camera, math: CameraMath): Camera {
    var forward := Between(camera.target, camera.eye);
    var forwardNorm := math.normalize(forward);
    var forwardMag := math.magnitude(forward);
    var eye1 := if m.forward && m.speed < forwardMag then Advance(camera.eye, Scale(forwardNorm, m.speed)) else camera.eye;
    var eye2 := if m.backward then Retreat(eye1, Scale(forwardNorm, m.speed)) else eye1;
    var right := Cross(forwardNorm, UNIT_Y);
    var forward2 := Between(camera.target, eye2);
    var forwardMag2 := math.magnitude(forward2);
    var eye3 := if m.right then Retreat(camera.target, Scale(math.normalize(Plus(forward2, Scale(right, m.speed))), forwardMag2)) else eye2;
    var eye4 := if m.left then Retreat(camera.target, Scale(math.normalize(Minus(forward2, Scale(right, m.speed))), forwardMag2)) else eye3;
    camera.(eye := eye4)
  }

  /** With no motion flag held the camera stays where it is. */
  lemma OrbitIdle(m: Motion, camera: Camera, math: CameraMath)
    requires !m.forward && !m.backward && !m.left && !m.right
    ensures Orbit(m, camera, math) == camera
  {
  }

  /** Forward alone moves the eye one step along the viewing direction only while the target is
      farther away than one step; otherwise the eye stays put. */
  lemma OrbitForwardGuard(m: Motion, camera: Camera, math: CameraMath)
    requires m.forward && !m.backward && !m.left && !m.right
    ensures var forward := Between(camera.target, camera.eye);
      Orbit(m, camera, math).eye ==
        if m.speed < math.magnitude(forward) then Advance(camera.eye, Scale(math.normalize(forward), m.speed))
        else camera.eye
  {
  }

  /** Holding left and right together is the same as holding left: the right move is overwritten. */
  lemma OrbitLeftOverridesRight(m: Motion, camera: Camera, math: CameraMath)
    requires m.left
    ensures Orbit(m, camera, math) == Orbit(m.(right := false), camera, math)
  {
  }

  /** `CameraController`: the speed and six flags, updated in place by key events. */
  class CameraController {
    var speed: real
    var isForwardPressed: bool
    var isBackwardPressed: bool
    var isLeftPressed: bool
    var isRightPressed: bool
    var isUpPressed: bool
    var isDownPressed: bool

    function View(): ControllerState
      reads this
    {
      ControllerState(speed, isForwardPressed, isBackwardPressed, isLeftPressed, isRightPressed, isUpPressed, isDownPressed)
    }

    /** `CameraController::new(speed)`: the given speed, nothing pressed. */
    constructor (speed: real)
      ensures View() == ControllerState(speed, false, false, false, false, false, false)
    {
      this.speed := speed;
      isForwardPressed, isBackwardPressed, isLeftPressed, isRightPressed := false, false, false, false;
      isUpPressed, isDownPressed := false, false;
    }

    /** `handle_key`: sets the flag the key drives and reports whether the key drives one. */
    method HandleKey(key: KeyCode, isPressed: bool) returns (handled: bool)
      modifies this
      ensures handled <==> KeyFlag(key).Some?
      ensures View() == ApplyKey(old(View()), key, isPressed)
    {
      match key {
        case KeyW | ArrowUp =>
          isForwardPressed := isPressed;
          handled := true;
        case KeyS | ArrowDown =>
          isBackwardPressed := isPressed;
          handled := true;
        case KeyA | ArrowLeft =>
          isLeftPressed := isPressed;
          handled := true;
        case KeyD | ArrowRight =>
          isRightPressed := isPressed;
          handled := true;
        case Space =>
          isUpPressed := isPressed;
          handled := true;
        case ShiftLeft | ShiftRight =>
          isDownPressed := isPressed;
          handled := true;
        case _ =>
          handled := false;
      }
    }

    /** `update_camera`: moves the eye step by step as `Orbit` describes; nothing else of the camera changes. */
    method UpdateCamera(camera: Camera, math: CameraMath) returns (updated: Camera)
      ensures updated == Orbit(MotionOf(View()), camera, math)
      ensures updated == camera.(eye := updated.eye)
    {
      var forward := Between(camera.target, camera.eye);
      var forwardNorm := math.normalize(forward);
      var forwardMag := math.magnitude(forward);
      var eye := camera.eye;
      // Forward moves only while the target is more than one step away.
      if isForwardPressed && speed < forwardMag {
        eye := Advance(eye, Scale(forwardNorm, speed));
      }
      if isBackwardPressed {
        eye := Retreat(eye, Scale(forwardNorm, speed));
      }
      var right := Cross(forwardNorm, UNIT_Y);
      forward := Between(camera.target, eye);
      forwardMag := math.magnitude(forward);
      if isRightPressed {
        eye := Retreat(camera.target, Scale(math.normalize(Plus(forward, Scale(right, speed))), forwardMag));
      }
      if isLeftPressed {
        eye := Retreat(camera.target, Scale(math.normalize(Minus(forward, Scale(right, speed))), forwardMag));
      }
      updated := camera.(eye := eye);
    }
  }
}
