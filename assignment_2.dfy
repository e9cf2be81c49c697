/**
 * The demo program around the helicopter: the scene and input state, the
 * window callbacks that turn key, mouse and resize events into control
 * flags and camera changes, the per-frame scene update, and the static
 * full-screen quad of the composition pass.
 *
 * Calls into the camera module (create, orbit update, follow) are function
 * parameters; their results are taken as given.
 */
module Assignment2 {
  import opened Wrappers
  import opened Geometry
  import opened HelicopterEnums
  import opened PartTable
  import opened Flight
  import opened HelicopterActor

  // --- GLFW key and button codes -------------------------------------------

  const KEY_SPACE: int := 32
  const KEY_0: int := 48
  const KEY_1: int := 49
  const KEY_2: int := 50
  const KEY_A: int := 65
  const KEY_D: int := 68
  const KEY_E: int := 69
  const KEY_P: int := 80
  const KEY_Q: int := 81
  const KEY_S: int := 83
  const KEY_W: int := 87
  const KEY_ESCAPE: int := 256
  const KEY_LEFT_SHIFT: int := 340

  const MOUSE_BUTTON_LEFT: int := 0

  datatype Action = Release | Press | Repeat

  /** The camera fields this program reads or writes; the camera module owns the rest. */
  datatype Camera = Camera(width: real, height: real, fov: real, near: real, far: real,
                           position: Vector3D, lookAt: Vector3D)

  const NoMotion: Vector2D := Vector2D(0.0, 0.0)

  function ToRadians(degrees: real): real
  {
    degrees * Pi / 180.0
  }

  // --- Key bindings -----------------------------------------------------------

  /** The flight key bound to each control. */
  function KeyOfControl(c: Control): (key: int)
    ensures key != KEY_0 && key != KEY_1 && key != KEY_2 && key != KEY_ESCAPE && key != KEY_P
  {
    match c
    case PitchDown => KEY_W
    case PitchUp => KEY_S
    case RollLeft => KEY_A
    case RollRight => KEY_D
    case YawLeft => KEY_Q
    case YawRight => KEY_E
    case ThrottleUp => KEY_LEFT_SHIFT
    case ThrottleDown => KEY_SPACE
  }

  /** The control a key event writes, in the order the key callback tests the keys. */
  function ControlOfKey(key: int): (r: Option<Control>)
    ensures forall c :: r == Some(c) <==> KeyOfControl(c) == key
  {
    if key == KEY_W then Some(PitchDown)
    else if key == KEY_S then Some(PitchUp)
    else if key == KEY_A then Some(RollLeft)
    else if key == KEY_D then Some(RollRight)
    else if key == KEY_Q then Some(YawLeft)
    else if key == KEY_E then Some(YawRight)
    else if key == KEY_LEFT_SHIFT then Some(ThrottleUp)
    else if key == KEY_SPACE then Some(ThrottleDown)
    else None
  }

  /** "Key held": pressed or auto-repeating. */
  predicate Held(action: Action)
  {
    action == Press || action == Repeat
  }

  /** The control flags after one key event. */
  function KeyPressedAfter(keys: seq<bool>, key: int, action: Action): (r: seq<bool>)
    requires |keys| == CONTROL_COUNT
    ensures |r| == CONTROL_COUNT
    ensures forall c :: KeyOfControl(c) == key ==> r[ControlIndex(c)] == (action == Press || action == Repeat)
    ensures forall c :: KeyOfControl(c) != key ==> r[ControlIndex(c)] == keys[ControlIndex(c)]
  {
    match ControlOfKey(key)
    case None => keys
    case Some(c) => keys[ControlIndex(c) := Held(action)]
  }

  /** No key is bound to two controls. */
  lemma KeyBindingIsInjective()
    ensures forall c, d :: KeyOfControl(c) == KeyOfControl(d) ==> c == d
  {
  }

  /** A single key event changes at most one control flag. */
  lemma AtMostOneFlagChanges(keys: seq<bool>, key: int, action: Action)
    requires |keys| == CONTROL_COUNT
    ensures var r := KeyPressedAfter(keys, key, action);
      forall i, j :: (0 <= i < CONTROL_COUNT && 0 <= j < CONTROL_COUNT && i != j && r[i] != keys[i]) ==> r[j] == keys[j]
  {
  }

  datatype KeyEvent = KeyEvent(key: int, action: Action)

  /** The control flags after a sequence of key events. */
  function KeyPressedAfterAll(keys: seq<bool>, events: seq<KeyEvent>): (r: seq<bool>)
    requires |keys| == CONTROL_COUNT
    ensures |r| == CONTROL_COUNT
    decreases |events|
  {
    if events == [] then keys
    else KeyPressedAfterAll(KeyPressedAfter(keys, events[0].key, events[0].action), events[1..])
  }

  /** No event after `i` has the key event `i` has. */
  predicate LastForKey(events: seq<KeyEvent>, i: nat)
    requires i < |events|
  {
    forall j :: i < j < |events| ==> events[j].key != events[i].key
  }

  /** A control untouched by every event keeps its flag. */
  lemma {:induction false} UntouchedFlagPersists(keys: seq<bool>, events: seq<KeyEvent>, c: Control)
    requires |keys| == CONTROL_COUNT
    requires forall i :: 0 <= i < |events| ==> events[i].key != KeyOfControl(c)
    ensures KeyPressedAfterAll(keys, events)[ControlIndex(c)] == keys[ControlIndex(c)]
    decreases |events|
  {
    if events != [] {
      assert forall i :: 0 <= i < |events| - 1 ==> events[1..][i] == events[i + 1];
      UntouchedFlagPersists(KeyPressedAfter(keys, events[0].key, events[0].action), events[1..], c);
    }
  }

  /**
   * After any sequence of key events, a control's flag is set exactly when
   * the last event on its key was a press or a repeat.
   */
  lemma {:induction false} LastKeyEventDecides(keys: seq<bool>, events: seq<KeyEvent>, c: Control, i: nat)
    requires |keys| == CONTROL_COUNT
    requires i < |events| && events[i].key == KeyOfControl(c) && LastForKey(events, i)
    ensures KeyPressedAfterAll(keys, events)[ControlIndex(c)] == Held(events[i].action)
    decreases |events|
  {
    var keys' := KeyPressedAfter(keys, events[0].key, events[0].action);
    if i == 0 {
      assert forall j :: 0 <= j < |events| - 1 ==> events[1..][j] == events[j + 1];
      UntouchedFlagPersists(keys', events[1..], c);
    } else {
      assert forall j :: i - 1 < j < |events| - 1 ==> events[1..][j] == events[j + 1];
      LastKeyEventDecides(keys', events[1..], c, i - 1);
    }
  }

  /** Pressing, holding and releasing W leaves PITCH_DOWN clear; pressing S sets PITCH_UP. */
  lemma HoldAndReleaseExample(keys: seq<bool>)
    requires |keys| == CONTROL_COUNT
    ensures var r := KeyPressedAfterAll(keys, [KeyEvent(KEY_W, Press), KeyEvent(KEY_W, Repeat),
        KeyEvent(KEY_S, Press), KeyEvent(KEY_W, Release)]);
      !r[ControlIndex(PitchDown)] && r[ControlIndex(PitchUp)]
  {
    var events := [KeyEvent(KEY_W, Press), KeyEvent(KEY_W, Repeat), KeyEvent(KEY_S, Press), KeyEvent(KEY_W, Release)];
    LastKeyEventDecides(keys, events, PitchDown, 3);
    LastKeyEventDecides(keys, events, PitchUp, 2);
  }

  // --- Program state ------------------------------------------------------------

  /** The input record: mouse-drag state and one flag per flight control. */
  class InputState {
    var mouseButtonPressed: bool
    var mousePressStart: Vector2D
    const keyPressed: array<bool>

    /** The initial input record; the default mouse position is not part of this model. */
    constructor ()
      ensures fresh(keyPressed) && keyPressed.Length == CONTROL_COUNT
      ensures forall i :: 0 <= i < CONTROL_COUNT ==> !keyPressed[i]
      ensures !mouseButtonPressed
    {
      mouseButtonPressed := false;
      mousePressStart := NoMotion;
      keyPressed := new bool[CONTROL_COUNT](_ => false);
    }
  }

  /** The parts of the window and its GL context the callbacks touch. */
  class Window {
    var shouldClose: bool
    var viewportWidth: int
    var viewportHeight: int

    constructor (width: int, height: int)
      ensures !shouldClose && viewportWidth == width && viewportHeight == height
    {
      shouldClose := false;
      viewportWidth := width;
      viewportHeight := height;
    }
  }

  /** The scene record. */
  class Scene {
    var camera: Camera
    var cameraFollowHeli: bool
    var zoomSpeedMultiplier: real
    var heli: Helicopter
    var width: int
    var height: int

    /** The record before sceneInit: zero-initialised, with the declared 1280 x 720 size. */
    constructor ()
      ensures width == 1280 && height == 720
      ensures !cameraFollowHeli && zoomSpeedMultiplier == 0.0
      ensures fresh(heli) && heli.partModel == [] && heli.partTransformations == []
    {
      camera := Camera(0.0, 0.0, 0.0, 0.0, 0.0, Origin, Origin);
      cameraFollowHeli := false;
      zoomSpeedMultiplier := 0.0;
      heli := new Helicopter();
      width := 1280;
      height := 720;
    }
  }

  // --- Callbacks --------------------------------------------------------------------

  /**
   * keyCallback: camera mode keys 0/1/2, the eight flight keys, and Escape.
   * The screenshot on P is an external effect and is not part of this model.
   */
  method KeyCallback(scene: Scene, input: InputState, window: Window, key: int, action: Action,
                     updateOrbit: (Camera, Vector2D, real) -> Camera)
    requires input.keyPressed.Length == CONTROL_COUNT
    modifies scene, window, input.keyPressed
    ensures input.keyPressed[..] == KeyPressedAfter(old(input.keyPressed[..]), key, action)
    ensures scene.cameraFollowHeli ==
      if key == KEY_2 && action == Press then true
      else if (key == KEY_0 || key == KEY_1) && action == Press then false
      else old(scene.cameraFollowHeli)
    ensures scene.camera ==
      if key == KEY_0 && action == Press then updateOrbit(old(scene.camera).(lookAt := Origin), NoMotion, 0.0)
      else old(scene.camera)
    ensures window.shouldClose == (old(window.shouldClose) || (key == KEY_ESCAPE && action == Press))
    ensures window.viewportWidth == old(window.viewportWidth) && window.viewportHeight == old(window.viewportHeight)
    ensures scene.heli == old(scene.heli) && scene.zoomSpeedMultiplier == old(scene.zoomSpeedMultiplier)
    ensures scene.width == old(scene.width) && scene.height == old(scene.height)
  {
    if key == KEY_0 && action == Press {
      scene.cameraFollowHeli := false;
      scene.camera := scene.camera.(lookAt := Origin);
      scene.camera := updateOrbit(scene.camera, NoMotion, 0.0);
    }
    if key == KEY_1 && action == Press {
      scene.cameraFollowHeli := false;
    }
    if key == KEY_2 && action == Press {
      scene.cameraFollowHeli := true;
    }

    if key == KEY_W {
      input.keyPressed[ControlIndex(PitchDown)] := action == Press || action == Repeat;
    }
    if key == KEY_S {
      input.keyPressed[ControlIndex(PitchUp)] := action == Press || action == Repeat;
    }

    if key == KEY_A {
      input.keyPressed[ControlIndex(RollLeft)] := action == Press || action == Repeat;
    }
    if key == KEY_D {
      input.keyPressed[ControlIndex(RollRight)] := action == Press || action == Repeat;
    }

    if key == KEY_Q {
      input.keyPressed[ControlIndex(YawLeft)] := action == Press || action == Repeat;
    }
    if key == KEY_E {
      input.keyPressed[ControlIndex(YawRight)] := action == Press || action == Repeat;
    }

    if key == KEY_LEFT_SHIFT {
      input.keyPressed[ControlIndex(ThrottleUp)] := action == Press || action == Repeat;
    }
    if key == KEY_SPACE {
      input.keyPressed[ControlIndex(ThrottleDown)] := action == Press || action == Repeat;
    }

    if key == KEY_ESCAPE && action == Press {
      window.shouldClose := true;
    }
  }

  /** mousePosCallback: while the left button is held, orbit by the cursor delta and restart the drag there. */
  method MousePosCallback(scene: Scene, input: InputState, x: real, y: real,
                          updateOrbit: (Camera, Vector2D, real) -> Camera)
    modifies scene, input
    ensures input.mouseButtonPressed == old(input.mouseButtonPressed)
    ensures old(input.mouseButtonPressed) ==>
      scene.camera == updateOrbit(old(scene.camera), Sub2(old(input.mousePressStart), Vector2D(x, y)), 0.0) &&
      input.mousePressStart == Vector2D(x, y)
    ensures !old(input.mouseButtonPressed) ==>
      scene.camera == old(scene.camera) && input.mousePressStart == old(input.mousePressStart)
    ensures scene.cameraFollowHeli == old(scene.cameraFollowHeli) && scene.heli == old(scene.heli)
    ensures scene.zoomSpeedMultiplier == old(scene.zoomSpeedMultiplier)
    ensures scene.width == old(scene.width) && scene.height == old(scene.height)
  {
    if input.mouseButtonPressed {
      var diff := Sub2(input.mousePressStart, Vector2D(x, y));
      scene.camera := updateOrbit(scene.camera, diff, 0.0);
      input.mousePressStart := Vector2D(x, y);
    }
  }

  /**
   * mouseButtonCallback: only the left button counts; the drag is active
   * while it is pressed and starts at the cursor position the window reports.
   */
  method MouseButtonCallback(input: InputState, button: int, action: Action, cursor: Vector2D)
    modifies input
    ensures button == MOUSE_BUTTON_LEFT ==>
      input.mouseButtonPressed == (action == Press) && input.mousePressStart == cursor
    ensures button != MOUSE_BUTTON_LEFT ==>
      input.mouseButtonPressed == old(input.mouseButtonPressed) && input.mousePressStart == old(input.mousePressStart)
  {
    if button == MOUSE_BUTTON_LEFT {
      input.mouseButtonPressed := action == Press;
      input.mousePressStart := cursor;
    }
  }

  /** mouseScrollCallback: zoom by the scroll offset times the zoom multiplier. */
  method MouseScrollCallback(scene: Scene, yoffset: real, updateOrbit: (Camera, Vector2D, real) -> Camera)
    modifies scene
    ensures scene.camera == updateOrbit(old(scene.camera), NoMotion, old(scene.zoomSpeedMultiplier) * yoffset)
    ensures scene.cameraFollowHeli == old(scene.cameraFollowHeli) && scene.heli == old(scene.heli)
    ensures scene.zoomSpeedMultiplier == old(scene.zoomSpeedMultiplier)
    ensures scene.width == old(scene.width) && scene.height == old(scene.height)
  {
    scene.camera := updateOrbit(scene.camera, NoMotion, scene.zoomSpeedMultiplier * yoffset);
  }

  /**
   * windowResizeCallback: the viewport and the camera take the new size;
   * the scene's own width and height (and the offscreen buffers sized from
   * them) stay as they were.
   */
  method WindowResizeCallback(scene: Scene, window: Window, width: int, height: int)
    modifies scene, window
    ensures window.viewportWidth == width && window.viewportHeight == height
    ensures window.shouldClose == old(window.shouldClose)
    ensures scene.camera == old(scene.camera).(width := width as real, height := height as real)
    ensures scene.width == old(scene.width) && scene.height == old(scene.height)
    ensures scene.cameraFollowHeli == old(scene.cameraFollowHeli) && scene.heli == old(scene.heli)
    ensures scene.zoomSpeedMultiplier == old(scene.zoomSpeedMultiplier)
  {
    window.viewportWidth, window.viewportHeight := width, height;
    scene.camera := scene.camera.(width := width as real);
    scene.camera := scene.camera.(height := height as real);
  }

  // --- Scene set-up and update --------------------------------------------------------

  /**
   * The state-setting part of sceneInit: the camera, follow mode on, the
   * zoom multiplier, and the helicopter loaded from `models`.  A failing
   * load leaves the previous helicopter in place and reports why.
   */
  method SceneInit(scene: Scene, width: real, height: real,
                   cameraCreate: (real, real, real, real, real, Vector3D, Vector3D) -> Camera,
                   models: seq<Model>) returns (r: Outcome<LoadError>)
    modifies scene
    ensures scene.camera == cameraCreate(width, height, ToRadians(45.0), 0.01, 500.0, Vector3D(10.0, 10.0, 10.0), Origin)
    ensures scene.cameraFollowHeli && scene.zoomSpeedMultiplier == 0.05
    ensures scene.width == old(scene.width) && scene.height == old(scene.height)
    ensures r.Pass? <==> LoadTable(models).Success?
    ensures r.Fail? ==> LoadTable(models) == Failure(r.error) && scene.heli == old(scene.heli)
    ensures r.Pass? ==> fresh(scene.heli)
    ensures r.Pass? ==> scene.heli.partModel == LoadTable(models).value
    ensures r.Pass? ==> scene.heli.partTransformations == seq(PART_COUNT, _ => Identity)
    ensures r.Pass? ==> scene.heli.position == Vector3D(0.0, 5.5, 0.0) && scene.heli.AtRestDefaults()
  {
    scene.camera := cameraCreate(width, height, ToRadians(45.0), 0.01, 500.0, Vector3D(10.0, 10.0, 10.0), Origin);
    scene.cameraFollowHeli := true;
    scene.zoomSpeedMultiplier := 0.05;

    var loaded := HelicopterLoad(models);
    if loaded.Failure? {
      return Fail(loaded.error);
    }
    scene.heli := loaded.value;
    return Pass;
  }

  /** sceneUpdate: fly one frame from the current control flags, then let a following camera track the helicopter. */
  method SceneUpdate(scene: Scene, input: InputState, dt: real,
                     upAxis: Matrix4D -> Vector3D, normalize: Vector3D -> Vector3D,
                     cameraFollow: (Camera, Vector3D) -> Camera)
    requires input.keyPressed.Length == CONTROL_COUNT
    requires |scene.heli.partTransformations| == PART_COUNT
    modifies scene, scene.heli
    ensures scene.heli == old(scene.heli)
    ensures scene.heli.MovedBy(old(input.keyPressed[..]), dt, upAxis(old(scene.heli.rotation)),
                               normalize(upAxis(old(scene.heli.rotation))))
    ensures scene.camera ==
      if old(scene.cameraFollowHeli) then cameraFollow(old(scene.camera), scene.heli.position) else old(scene.camera)
    ensures scene.cameraFollowHeli == old(scene.cameraFollowHeli)
    ensures scene.zoomSpeedMultiplier == old(scene.zoomSpeedMultiplier)
    ensures scene.width == old(scene.width) && scene.height == old(scene.height)
  {
    scene.heli.Move(input.keyPressed, dt, upAxis, normalize);

    if scene.cameraFollowHeli {
      scene.camera := cameraFollow(scene.camera, scene.heli.position);
    }
  }

  // --- Full-screen quad ------------------------------------------------------------

  /** One quad vertex: position, colour and texture coordinate. */
  datatype Vex = Vex(position: Vector3D, color: Vector3D, uv: Vector2D)

  const VerticesQuad: seq<Vex> := [
    Vex(Vector3D(-1.0, -1.0, 0.0), Vector3D(1.0, 1.0, 1.0), Vector2D(0.0, 0.0)),
    Vex(Vector3D(-1.0,  1.0, 0.0), Vector3D(0.0, 1.0, 1.0), Vector2D(0.0, 1.0)),
    Vex(Vector3D( 1.0,  1.0, 0.0), Vector3D(1.0, 1.0, 1.0), Vector2D(1.0, 1.0)),
    Vex(Vector3D( 1.0, -1.0, 0.0), Vector3D(0.0, 0.0, 1.0), Vector2D(1.0, 0.0))
  ]

  const IndicesQuad: seq<nat> := [0, 1, 2, 2, 3, 0]

  /**
   * The quad's six indices form two triangles over its four vertices: each
   * index is in range, each triangle has three distinct corners, and
   * together they use every vertex.
   */
  lemma QuadIndicesValid()
    ensures |IndicesQuad| == 6 && |IndicesQuad| % 3 == 0
    ensures forall i :: 0 <= i < |IndicesQuad| ==> IndicesQuad[i] < |VerticesQuad|
    ensures forall t :: 0 <= t < 2 ==>
      IndicesQuad[3 * t] != IndicesQuad[3 * t + 1] &&
      IndicesQuad[3 * t + 1] != IndicesQuad[3 * t + 2] &&
      IndicesQuad[3 * t] != IndicesQuad[3 * t + 2]
    ensures forall v :: 0 <= v < |VerticesQuad| ==> v in IndicesQuad
  {
  }

  /**
   * The vertices are the corners of the normalised-device square at depth
   * zero, and each texture coordinate maps its corner onto the unit square.
   */
  lemma QuadCoversScreen()
    ensures forall v :: v in VerticesQuad ==>
      v.position.z == 0.0 &&
      (v.position.x == -1.0 || v.position.x == 1.0) && (v.position.y == -1.0 || v.position.y == 1.0) &&
      v.uv == Vector2D((v.position.x + 1.0) / 2.0, (v.position.y + 1.0) / 2.0)
  {
  }
}
