# Helicopter demo: actor, part table and input state

This project models the discrete core of a small real-time rendering demo in
which a multi-part helicopter flies under keyboard control and an orbiting or
following camera looks at it. The model covers:

- the helicopter actor (`src/helicopter.h`, `src/helicopter.cpp`):
  - its two dense enumerations, controls and parts;
  - its default state;
  - loading its part table from the named sub-models of its model file;
  - releasing it;
  - one frame of flight;
- the demo program around the actor (`src/assignment_2.cpp`):
  - the input record;
  - the key, mouse, scroll and resize callbacks;
  - scene set-up and the per-frame update;
  - the static full-screen quad.

Modules:

- `Wrappers`: `Option`, `Result` and `Outcome`.
- `Geometry`: vectors over reals, and matrices as uninterpreted terms (`Identity`, `Translation`, `RotationX/Y/Z`, `Product`), so two matrices are equal only when they are built the same way.
- `HelicopterEnums`: `eControl` and `ePart` and their indices.
- `PartTable`: the load as a function from the list of `(name, payload)` sub-models to a part table or an error, with the lemmas about it.
- `Flight`: the arithmetic of one `helicopterMove` call, as functions of the old state, with lemmas about the control axes, the decay toward level flight and the rotor spin.
- `HelicopterActor`: the `Helicopter` class, whose fields the source updates in place. It holds `Move` and `Delete`, and `HelicopterLoad` is a loop that fills the slots.
- `Assignment2`:
  - the `InputState`, `Scene` and `Window` classes;
  - the callbacks as methods;
  - key events composed into sequences;
  - the quad data.

Calls into code that is not part of this model are function parameters whose results are taken as given:

- `cameraCreate`, `cameraUpdateOrbit` and `cameraFollow`;
- extracting the up column of a matrix;
- `normalize`;
- `to_radians`, modelled as `ToRadians(d) = d * Pi / 180`.

`modelLoad` becomes the list of sub-models that `HelicopterLoad` receives. Where the C++ throws, the model returns a `Failure`.

## Model

| member | source | states |
|---|---|---|
| HelicopterEnums.ControlIndex | src/helicopter.h:10-21 | every control has an index below CONTROL_COUNT = 8 |
| HelicopterEnums.ControlAt | src/helicopter.h:10-21 | every index below 8 names the control that has that index |
| HelicopterEnums.ControlIndexIsBijective | src/helicopter.h:10-21 | the eight controls have distinct indices, covering 0..7 |
| HelicopterEnums.PartIndex | src/helicopter.h:23-34 | every part has an index below PART_COUNT = 8 |
| HelicopterEnums.PartAt | src/helicopter.h:23-34 | every index below 8 names the part that has that index |
| HelicopterEnums.PartIndexIsBijective | src/helicopter.h:23-34 | the eight parts have distinct indices, covering 0..7 |
| HelicopterEnums.SlidesPrecedeTailRotor | src/helicopter.h:25-28 | ROTOR is 1, SLIDES is 2 and TAIL_ROTOR is 3, so SLIDES precedes TAIL_ROTOR |
| HelicopterActor.Helicopter.constructor | src/helicopter.h:37-49 | a default helicopter has empty part vectors, identity transformation and rotation, zero position, angles and rotor angle, velocity 10 and lift 3 |
| PartTable.PartOfName | src/helicopter.cpp:24-32 | a name selects a part exactly when it is that part's object name; any other name selects none |
| PartTable.PartNameInjective | src/helicopter.cpp:24-31 | no two parts share an object name |
| PartTable.EmptyTable | src/helicopter.cpp:17 | the table the pass starts from has PART_COUNT slots, each holding the default model |
| PartTable.FillSlots | src/helicopter.cpp:22-33 | a completed pass keeps the 8 slots; a failed pass reports UnknownPartName with the name of a model in the list that is not a part name |
| PartTable.LoadTable | src/helicopter.cpp:11-33 | a successful load had 8 models and yields 8 slots; PartCountMismatch carries the actual count and arises only when the count is not 8; with 8 models the only possible error is UnknownPartName |
| PartTable.FillSlotsSucceedsIff | src/helicopter.cpp:22-33 | the filling pass succeeds exactly when every name is known, and the table keeps its 8 slots |
| PartTable.FillSlotsFirstUnknown | src/helicopter.cpp:22-33 | the filling pass fails with the first unknown name in list order |
| PartTable.FillSlotsKeepsUnnamed | src/helicopter.cpp:22-33 | a slot that no model names keeps its previous content |
| PartTable.FillSlotsLastWins | src/helicopter.cpp:22-33 | a slot holds the last model that names its part |
| PartTable.LoadTableOutcome | src/helicopter.cpp:11-33 | loading succeeds exactly when there are 8 models and all are known; a wrong count gives PartCountMismatch with the count, checked before any name; otherwise the error is UnknownPartName for the first unknown name |
| PartTable.LoadTableSlots | src/helicopter.cpp:17-33 | a loaded table has 8 slots; each holds the last model carrying its part's name, or the default model if none does |
| PartTable.VocabularyIsPartNames | src/helicopter.cpp:24-31 | the eight-name vocabulary is exactly the set of names the loop recognises |
| PartTable.ReorderingHasNoRepeats | src/helicopter.cpp:21-33 | in a file whose names are a reordering of the eight part names, no name repeats, so every model is the last carrying its name |
| PartTable.AnyOrderLoads | src/helicopter.cpp:21-33 | any ordering of the eight names loads; each part's slot holds exactly the input model carrying that part's name, payload included |
| PartTable.LastNaming | src/helicopter.cpp:22-33 | after a successful load, the slot of any part that is named holds a model with that name |
| PartTable.NamedAfterParts | src/helicopter.cpp:24-31 | models named after parts are all known, and models of different parts have different names |
| PartTable.LoadByParts | src/helicopter.cpp:11-33 | for 8 models named after given parts, loading succeeds; each part's slot holds its last model, and each part that is never listed keeps the default model |
| PartTable.SlotOfLast | src/helicopter.cpp:22-33 | for one part: its slot holds its last model |
| PartTable.NamesOfReorderedFile | src/helicopter.cpp:24-31 | the models of a file listed in a different order are named after the parts given |
| PartTable.ReorderedFileExample | src/helicopter.cpp:26-27 | in a file listing tail_rotor_tail before slides, each still lands in its own enum slot |
| PartTable.DuplicateNameExample | src/helicopter.cpp:22-33 | when main_rotor appears twice and lights never, the load still succeeds; ROTOR holds the second main_rotor and LIGHTS keeps the default model |
| HelicopterActor.HelicopterLoad | src/helicopter.cpp:7-36 | the loop's outcome equals LoadTable in both success and error; on success the helicopter is new, with the loaded part table, 8 identity transforms, position (0, 5.5, 0) and otherwise default state |
| HelicopterActor.Helicopter.Delete | src/helicopter.cpp:38-47 | both part vectors become empty; every other field is unchanged |
| Flight.Axis | src/helicopter.cpp:52-55 | `+a - b` on two flags is in {-1, 0, 1}: 0 exactly when they agree, 1 only for a alone, -1 only for b alone |
| Flight.ControlAxes | src/helicopter.cpp:52-55 | throttle = UP - DOWN, yaw = LEFT - RIGHT, pitch = PITCH_DOWN - PITCH_UP, roll = ROLL_RIGHT - ROLL_LEFT |
| Flight.AxesInRange | src/helicopter.cpp:52-55 | every axis is in {-1, 0, 1}, and 0 exactly when both or neither of its flags are set |
| Flight.AnimateRotors | src/helicopter.cpp:72-75 | only the ROTOR and TAIL_ROTOR transforms change: ROTOR becomes the y-spin about (0, 0, -0.69129), TAIL_ROTOR the x-spin about (-0.28062, 1.813, -8.009); the other six are unchanged |
| Flight.DecayStep | src/helicopter.cpp:62-64 | a zero step leaves the angle as it was; from level, the angle after a step is exactly dt times the input |
| Flight.AdvanceAngles | src/helicopter.cpp:62-64 | yaw changes by exactly dt times its input, without decay; a level pitch or roll with no input on its axis stays level |
| Flight.AdvancePosition | src/helicopter.cpp:57-61 | the height changes only through lift (unit up vector times throttle times lift); x and z also drift by dt times velocity along the un-normalised up vector |
| Flight.AdvanceRotor | src/helicopter.cpp:72 | the rotor angle grows by dt*pi/2 |
| Flight.ZeroStepIsIdle | src/helicopter.cpp:61-68 | a zero time step leaves angles, position and rotor angle unchanged, and rebuilds the same root transformation |
| Flight.DecayTowardLevel | src/helicopter.cpp:62-64 | with no input on the axis and a step shorter than pi/2, a tilted pitch or roll angle shrinks in magnitude; below pi/4 it keeps its sign; at exactly pi/4 it becomes level |
| Flight.LongStepOvershoots | src/helicopter.cpp:62-64 | with no input, a step of 3*pi/4 turns angle a into -2a, so the angle is not levelled at every step length |
| Flight.NoClimbWithoutThrottle | src/helicopter.cpp:57-61 | with zero throttle the height is unchanged, and the only motion is the horizontal drift along the up vector's x and z |
| Flight.RotorAlwaysSpins | src/helicopter.cpp:72 | on every positive step the rotor angle grows by exactly dt*pi/2 |
| Flight.LevelingRunKeepsHeading | src/helicopter.cpp:62-64 | over any run of steps with every control released, of any lengths: heading is constant, and zero pitch and roll stay zero |
| Flight.LevelingRunSettles | src/helicopter.cpp:62-64 | over a run of steps with every control released, each step shorter than pi/2: pitch and roll never grow in magnitude |
| Flight.HalfTurnStepMirrors | src/helicopter.cpp:62-64 | with no input, a step of exactly pi/2 turns angle a into -a, so the step bound of LevelingRunSettles is tight |
| HelicopterActor.Helicopter.Move | src/helicopter.cpp:49-76 | MovedBy: the new state is the Flight step of the old state, with the axes derived from the control array and up taken from the old rotation; rotation and transformation are rebuilt as RootRotation and RootTransformation of the new angles and position; partModel, velocity and lift unchanged; part transforms other than ROTOR and TAIL_ROTOR unchanged |
| Assignment2.ControlOfKey | src/assignment_2.cpp:83-117 | a key writes a control exactly when it is bound to it: W to PITCH_DOWN, S to PITCH_UP, A to ROLL_LEFT, D to ROLL_RIGHT, Q to YAW_LEFT, E to YAW_RIGHT, left Shift to THROTTLE_UP, Space to THROTTLE_DOWN |
| Assignment2.KeyOfControl | src/assignment_2.cpp:67-129 | no flight control is bound to 0, 1, 2, Escape or P |
| Assignment2.KeyBindingIsInjective | src/assignment_2.cpp:83-117 | no key is bound to two controls |
| Assignment2.KeyPressedAfter | src/assignment_2.cpp:83-117 | after a key event, the bound control's flag is true exactly for PRESS or REPEAT; every other flag is unchanged |
| Assignment2.AtMostOneFlagChanges | src/assignment_2.cpp:83-117 | a single key event changes at most one control flag |
| Assignment2.KeyPressedAfterAll | src/assignment_2.cpp:83-117 | any sequence of key events leaves 8 control flags |
| Assignment2.UntouchedFlagPersists | src/assignment_2.cpp:83-117 | over a sequence of key events, a flag whose key never appears keeps its value |
| Assignment2.LastKeyEventDecides | src/assignment_2.cpp:83-117 | over a sequence of key events, a control's flag is set exactly when the last event on its key was PRESS or REPEAT |
| Assignment2.HoldAndReleaseExample | src/assignment_2.cpp:83-90 | after W pressed, W repeated, S pressed and W released: PITCH_DOWN is clear and PITCH_UP is set |
| Assignment2.InputState.constructor | src/assignment_2.cpp:57-62 | the input record starts with 8 control flags, all false, and the mouse button is not pressed |
| Assignment2.Window.constructor | src/assignment_2.cpp:389-391 | a new window has no close request and a viewport of the requested size; its fields are what glfwSetWindowShouldClose (line 122) and glViewport (line 161) write |
| Assignment2.Scene.constructor | src/assignment_2.cpp:10-24 | the scene record starts as 1280 x 720, with following off and a zero zoom multiplier |
| Assignment2.KeyCallback | src/assignment_2.cpp:64-130 | the flags follow KeyPressedAfter; 2-PRESS sets follow, 0-PRESS and 1-PRESS clear it, other events leave it; 0-PRESS moves lookAt to the origin and re-orbits with no motion; only ESCAPE-PRESS requests close; the helicopter, zoom and sizes are unchanged |
| Assignment2.MousePosCallback | src/assignment_2.cpp:132-140 | with the button up nothing changes; with it down the camera orbits by start - cursor and the drag restarts at the cursor |
| Assignment2.MouseButtonCallback | src/assignment_2.cpp:142-152 | only the left button counts: pressed becomes (action == PRESS) and the drag start becomes the cursor; other buttons change nothing |
| Assignment2.MouseScrollCallback | src/assignment_2.cpp:154-157 | the camera zooms by the multiplier times the vertical offset, with no orbit motion; nothing else changes |
| Assignment2.WindowResizeCallback | src/assignment_2.cpp:159-164 | the viewport and the camera's width and height take the new size; the scene's own width and height stay |
| Assignment2.SceneInit | src/assignment_2.cpp:166-172 | sets the camera (fov 45 degrees in radians, near 0.01, far 500, eye (10,10,10), target the origin), turns following on and sets zoom 0.05; a failed load is reported with LoadTable's error and leaves the helicopter unchanged, and a successful one installs a new helicopter as HelicopterLoad states |
| Assignment2.SceneUpdate | src/assignment_2.cpp:250-256 | the helicopter moves by one frame from the current flags; the camera follows the new position exactly when following is on |
| Assignment2.QuadIndicesValid | src/assignment_2.cpp:42-55 | the 6 indices form 2 triangles; each index addresses one of the 4 vertices; each triangle's corners are distinct; every vertex is used |
| Assignment2.QuadCoversScreen | src/assignment_2.cpp:42-49 | the vertices are the four corners of the normalised-device square at depth 0, and each texture coordinate is (position + 1) / 2 |

## Left out

- OpenGL: creating the geometry buffer and its textures, the completeness check, the quad's vertex buffers, the draw and blit calls in `sceneDraw`, shader loading, and all uniforms. These call an external API and leave no state that this model observes.
- The model file: file I/O and the mesh and material loading of `modelLoad`. They become the list of `(name, payload)` sub-models that `HelicopterLoad` receives. `modelDelete`'s release of GPU buffers is not modelled, and `Helicopter.Delete` only empties the tables.
- The ground model loaded in `sceneInit`, and the scene's shader programs. These are I/O.
- Screenshots on P: an external effect. `KeyCallback` only guarantees that P changes no modelled state.
- Camera maths: `cameraCreate`, `cameraUpdateOrbit`, `cameraFollow`, `cameraProjection` and `cameraView`. They are function parameters or are absent, and the camera invariants (near < far, fov in (0, pi)) are not proved.
- `glfwGetCursorPos`: `MouseButtonCallback` receives the cursor position as a parameter.
- Window creation, the event loop, time stamps and the cleanup in `main`. The frame time enters `SceneUpdate` as `dt`.
- Floating point: angles and coordinates are reals, so float rounding and the float/double conversions are not modelled. Pi is the 16-digit decimal of M_PI.
- Matrices: products are syntactic terms, not 4x4 arithmetic, so properties such as associativity are not available. `rotation[1]` (the up column) and `normalize` are parameters.
- Scene.constructor: the camera has no modelled default value, and `KeyCallback` starts from whatever camera the scene holds.
- InputState.constructor: does not state the initial `mousePressStart`, since the default value of `Vector2D` is defined outside the modelled files.
- Flight.LevelingRunSettles: states non-growth of pitch and roll only for runs whose every step is shorter than pi/2. The frame time is not bounded that way, and longer steps overshoot (`Flight.HalfTurnStepMirrors`, `Flight.LongStepOvershoots`); the heading and level-stays-level parts hold for any run (`Flight.LevelingRunKeepsHeading`).
- Flight.DecayTowardLevel: states the shrinking of a tilted angle only for steps shorter than pi/2. For longer steps the code does not level the angle (see `Flight.LongStepOvershoots`), although the design describes the decay as always shrinking the angle.
