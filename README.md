# Character controller model

This project models, in Dafny, the core of a first/third-person character controller for a Bevy game with Rapier physics. The model covers four systems:

- `update_cursor` grabs the mouse on a left click and releases it on Escape. It also switches the `InputEnabled` flag.
- `update_input` copies the held keys into the `PlayerInput` snapshot, but only while input is enabled.
- `move_character` is the player tick:
  - mouse look: the pitch is clamped, the yaw is wrapped, and the camera pivot gets the pitch;
  - the planar input axes, rotated by the yaw and normalised;
  - the grounded/airborne vertical state machine: ground cancel, jump impulse and gravity;
  - integration with a terminal-velocity clamp;
  - the sweep request, whose auto-step and ground snap are on only while grounded;
  - the custom grounded probe, and the position update from the sweep's effective translation.
- `update_camera` handles the first/third-person toggle, the body model's yaw, and the third-person occlusion pull-in.

The model also covers the `PlayerController` and `PlayerCamera` defaults, the spawn constants, the startup resources, and the order in which the systems run.

Modules:

- `Geometry`: vectors, Euler-angle rotations, and a `Transform` class whose fields the systems mutate.
- `Controller`: the `PlayerController` component as a class. Its mutable kinematic fields (acceleration, velocity, rotation, grounded) are `var`s. Its tunables are `const`s, because no system writes them. The module also holds `PlayerCamera`, the collider constants and the spawn step.
- `Input`: key and mouse-button state, windows with a cursor, and the `InputEnabled` and `PlayerInput` resources as classes. It also has the two input systems as methods, each proved against a pure function of the old state.
- `Movement`: the tick's stages as pure functions, and `Tick`, which composes them. It also holds the invariants and scenarios proved about them, and `MoveCharacter`. That method keeps the source's step-by-step updates of the controller's fields and is proved equal to `Tick` plus the sweep request.
- `Camera`: the toggle and occlusion steps as functions, and `UpdateCamera` as a method over the camera, camera-data and model objects.
- `Schedule`: the startup resources, and one frame running `update_cursor`, then `update_input`, then `move_character` and `update_camera`.

Engine-provided values are parameters:

- The physics engine's sweep (`move_shape`) and overlap test (`intersection_with_shape`) are arrow functions bundled in `Movement.Physics`. `MoveCharacter` is proved to pass them the desired translation, start position, mass, auto-step, ground-snap and slide settings, and the probe's position and size that `move_character` builds. The other inputs to those calls are listed under "## Left out".
- `cos`, `sin` and `normalize_or_zero` are bundled in `Movement.Numerics`.
- The occlusion ray cast is just its optional hit distance.
- A Bevy query that finds no single matching entity is a `null` reference.
- The query filters (`Without<...>`) that keep two queries from matching the same entity become preconditions that the references are distinct. So does the fact that body, model, pivot and camera are four separately spawned entities (src/controller.rs:56-91).

Two consequences of the order of the statements in `move_character`:

- The grounded probe is placed below the player's translation from *before* this tick's move, because the player transform is written only on the last line of `move_character` (src/main.rs:178), after the probe (src/main.rs:160-161). `Movement.ProbeAt` and `Movement.MoveCharacter` state the pre-move placement.
- The controller starts airborne (`grounded: false`). So on the first tick of a default controller whose probe already touches the ground, gravity is armed and applied before the probe grounds the player. That tick ends grounded but moving down at `gravity * dt`, not at rest; the following tick cancels that speed (`Movement.FirstTickFromSpawn`, `Movement.RestingStaysGrounded`). `FirstTickFromSpawn` takes the overlap as a hypothesis: it is about a player spawned already touching the ground. At the spawn point (0, 3, 0) the collider's base is 0.75 above the origin, so in a world whose ground is at height 0 the player first falls.

The yaw is wrapped into the closed interval `[0, 2*PI]`, not a half-open one: nalgebra's `wrap` leaves a value equal to its upper bound unchanged (`Movement.YawMayEqualFullTurn`).

Input is read only while enabled (src/input.rs:44), so while input is disabled the snapshot keeps the flags of the last enabled frame. A `toggle_view` set on that frame therefore stays set. Pressing Tab on one frame and Escape on the next makes the camera switch mode on every following frame until input is enabled again (`Schedule.PausedToggleSticks`, `Schedule.TabThenEscapeKeepsSwitching`).

The airborne rule re-arms gravity only while the vertical velocity is non-negative (src/main.rs:110-112). Even so, gravity is never switched off while falling. The invariant `Movement.Sane` shows that in every state reached from the default one, an airborne player that is falling already has acceleration `-gravity`. So every airborne tick accelerates by exactly `-gravity` (`Movement.AirborneAlwaysUnderGravity`).

## Model

| member | source | states |
|---|---|---|
| Controller.PlayerController.Default | src/controller.rs:35-48 | a new controller is at rest, with zero acceleration, velocity and rotation; it is airborne; its tunables are speed 10, jump force 9.8, mass 100, gravity 9.8 and terminal velocity 180 |
| Controller.DefaultTunablesValid | src/controller.rs:42-46 | every default tunable is positive, so the terminal-velocity clamp interval is non-empty |
| Controller.PlayerCamera.Default | src/controller.rs:23-33 | a new camera component is in first person |
| Controller.SpawnPlayer | src/controller.rs:56-61 | the player spawns at (0, 3, 0) with identity rotation and a default controller, as new objects |
| Input.InputEnabled.constructor | src/input.rs:3-4 | the flag holds the value it is created with |
| Input.PlayerInput.Default | src/input.rs:6-16 | a new snapshot has every flag false |
| Input.CursorAfter | src/input.rs:24-35 | Escape releases the cursor (unlocked, visible) whether or not there was a click; a click alone grabs it (locked, hidden); neither leaves it as it was |
| Input.EnabledAfter | src/input.rs:24-35 | Escape disables input even with a click in the same tick; a click alone enables it; neither leaves it unchanged |
| Input.AfterIdempotent | src/input.rs:24-36 | applying the same tick's click and Escape a second time changes nothing, so repeated or duplicate windows agree |
| Input.UpdateCursor | src/input.rs:18-37 | every window's cursor becomes `CursorAfter` of its old cursor; the flag becomes `EnabledAfter` of its old value if there is at least one window, and is untouched if there is none |
| Input.SnapshotOf | src/input.rs:46-52 | each direction and the jump flag is set exactly when its key is held (W, S, A, D, Space); toggle-view is set exactly when Tab went down this tick |
| Input.InputAfter | src/input.rs:44-52 | with input disabled the snapshot keeps its previous value; with it enabled the snapshot is rebuilt from the keys alone, whatever it held before |
| Input.UpdateInput | src/input.rs:39-52 | the snapshot object's new value is `InputAfter` of the flag, its old value and the keys |
| Movement.SumDeltas | src/main.rs:57-63 | the sum of a single event is that event, and the sum of events that are all zero is zero |
| Movement.SumDeltasConcat | src/main.rs:60-62 | summing two batches of events separately and adding gives the sum over both |
| Movement.MouseDelta | src/main.rs:57-65 | the look delta is zero while input is disabled, and a single event's delta times 0.0015 while it is enabled |
| Movement.MouseDeltaConcat | src/main.rs:57-65 | the look delta is additive over the events, so splitting a tick's motion into more events does not change it |
| Movement.ReadMouseDelta | src/main.rs:57-65 | the look delta is the in-order sum of the tick's mouse events times 0.0015 while input is enabled, and zero when it is disabled |
| Movement.Clamp | src/main.rs:68 | the result lies in the interval; it is the value when the value is inside, and the nearer bound otherwise |
| Movement.WrapUp | src/main.rs:69 | adding whole widths brings a value below the interval into it |
| Movement.WrapDown | src/main.rs:69 | subtracting whole widths brings a value above the interval into it |
| Movement.Wrap | src/main.rs:69 | the result lies in the closed interval, and a value already inside is returned unchanged |
| Movement.WrapUpShift | src/main.rs:69 | the upward wrap adds a whole number of widths |
| Movement.WrapDownShift | src/main.rs:69 | the downward wrap subtracts a whole number of widths |
| Movement.WrapShift | src/main.rs:69 | `wrap` moves its argument by a whole (possibly negative) number of widths |
| Movement.YawTurnsByDelta | src/main.rs:69 | the new yaw is the old yaw minus the horizontal look delta, up to whole turns of 2*PI |
| Movement.Look | src/main.rs:67-69 | the new pitch is within the margin of the poles and the new yaw within one turn; each is exactly the old angle minus the delta when that is already in range; a pitch beyond either limit becomes that limit |
| Movement.PitchAvoidsPoles | src/main.rs:68 | the pitch interval is non-empty and lies strictly inside (-PI/2, PI/2) |
| Movement.IdleLookKeepsRotation | src/main.rs:67-69 | with no mouse motion a rotation in range does not change |
| Movement.YawMayEqualFullTurn | src/main.rs:69 | a yaw landing exactly on 2*PI stays at 2*PI |
| Movement.ForwardAxis | src/main.rs:78-82 | the forward axis is -1 exactly when only W is held, +1 exactly when only S is held, and 0 when both or neither are |
| Movement.SidewaysAxis | src/main.rs:78-84 | the sideways axis is -1 exactly when only A is held, +1 exactly when only D is held, and 0 when both or neither are |
| Movement.Axis | src/main.rs:78-84 | an input axis is -1, 0 or +1; it is 0 exactly when both or neither key is held, -1 exactly when only the negative key is held, and +1 exactly when only the positive key is held |
| Movement.RotateAtZeroYaw | src/main.rs:87-91 | at yaw zero the strafe axis moves along x and the forward axis along z |
| Movement.RotationKeepsLength | src/main.rs:87-91 | with cosine and sine on the unit circle, the rotated axes have the same length as the input axes |
| Movement.PlanarMove | src/main.rs:86-94 | the planar move has no vertical part, and is zero with no axis input when normalising zero gives zero |
| Movement.PlanarMoveHasSpeed | src/main.rs:86-94 | any held direction, diagonals included, gives a planar move of exactly the movement speed, when cosine and sine lie on the unit circle and normalisation returns unit vectors |
| Movement.IdleHasNoPlanarMove | src/main.rs:86-94 | with no direction key held the planar move is zero, given that normalising zero yields zero |
| Movement.Vertical | src/main.rs:96-113 | only y components change. Grounded: downward acceleration or velocity are both cancelled, then a held jump adds the jump force to the velocity. Airborne: the velocity is untouched, and acceleration becomes `-gravity` exactly when the vertical velocity is non-negative |
| Movement.JumpIsImpulse | src/main.rs:104-106 | on the ground, holding jump changes only the vertical velocity, by exactly the jump force |
| Movement.Integrate | src/main.rs:115-122 | x and z become velocity plus acceleration times dt; y is the same sum clamped to plus or minus the terminal velocity: exact when within it, and the nearer limit beyond it |
| Movement.SweepOptions | src/main.rs:130-153 | auto-step (max height 1.65, min width 0.1, dynamic bodies included) and ground snap (0.05) are requested exactly when grounded; sliding is always requested |
| Movement.ProbeAt | src/main.rs:160-164 | the probe is centred 2.25 below the given translation, at the collider's base; it is a cylinder of half-height 0.05 and radius 1.24, narrower than the collider |
| Movement.ProbeSitsAtColliderBase | src/main.rs:161-164 | the probe offset equals the collider half-height (2.25) and the probe is narrower than the collider |
| Movement.GroundedAfter | src/main.rs:158-175 | grounded exactly when the probe overlaps something and the vertical velocity is not positive; never grounded while rising or without an overlap |
| Movement.Tick | src/main.rs:67-175 | one tick leaves the angles in range and the vertical speed within the terminal velocity; the player is grounded exactly when the probe overlaps and the player is not rising; horizontal acceleration is untouched |
| Movement.DesiredTranslation | src/main.rs:124-128 | the desired move is zero on a zero-length tick, and its vertical part is the vertical velocity times dt |
| Movement.DesiredHorizontalIsPlanar | src/main.rs:94-128 | in a reachable state the horizontal part of the desired move is the planar input move times dt, so the direction keys reach the sweep |
| Movement.DesiredHorizontalSpeed | src/main.rs:86-128 | with a direction key held, the horizontal desired move has length exactly movement speed times dt, when cosine and sine lie on the unit circle and normalisation returns unit vectors |
| Movement.Request | src/main.rs:130-156 | the sweep starts from the current position with the player's mass; auto-step and snap follow the grounded flag from the start of the tick; the desired move is `DesiredTranslation` and is zero on a zero-length tick |
| Movement.DefaultIsSane | src/controller.rs:35-48 | the default controller with the default tunables satisfies the tick invariant |
| Movement.TickKeepsSane | src/main.rs:67-175 | one tick preserves the invariant: no horizontal acceleration or velocity, no upward acceleration, vertical speed within terminal velocity, not grounded while rising, gravity armed when airborne and falling, angles in range |
| Movement.Run | src/main.rs:45-179 | no ticks leave the state as it is, and one tick is `Tick` |
| Movement.RunConcat | src/main.rs:45-179 | running two sequences of ticks one after the other is running their concatenation |
| Movement.RunKeepsSane | src/main.rs:45-179 | any sequence of ticks with non-negative dt preserves the invariant |
| Movement.FromDefaultStaysSane | src/main.rs:45-179 | from the default controller, whatever the inputs, the horizontal velocity stays zero, the vertical speed stays within the terminal velocity and the look angles stay in range |
| Movement.AirborneNeverRises | src/main.rs:108-122 | in a reachable state, an airborne tick never increases the vertical velocity |
| Movement.AirborneAlwaysUnderGravity | src/main.rs:108-113 | in a reachable state, every airborne tick accelerates by exactly `-gravity` |
| Movement.JumpLeavesGround | src/main.rs:97-171 | a grounded jump makes the vertical velocity exactly the jump force, and the probe then reports not grounded |
| Movement.RestingStaysGrounded | src/main.rs:97-171 | grounded without jumping on an overlapping probe: the vertical velocity becomes zero and the player stays grounded |
| Movement.FirstTickFromSpawn | src/main.rs:108-171 | from the default controller on ground, with no input, the first tick ends grounded with acceleration -9.8 and vertical velocity -9.8 times dt |
| Movement.ApplyLook | src/main.rs:67-69 | only the controller's rotation changes, to `Look` of the old rotation and the delta |
| Movement.ReadAxes | src/main.rs:78-84 | the axes counted up flag by flag are `ForwardAxis` and `SidewaysAxis` of the snapshot |
| Movement.ComputePlanarMove | src/main.rs:75-94 | the planar move is the input axes rotated by the current yaw, normalised and scaled by the movement speed |
| Movement.UpdateVertical | src/main.rs:96-113 | only acceleration and velocity change, to `Vertical` of the old state |
| Movement.IntegrateVelocity | src/main.rs:115-122 | only the velocity changes, to `Integrate` of the old acceleration and velocity |
| Movement.UpdateGrounded | src/main.rs:158-175 | only the grounded flag changes, to `GroundedAfter` of the probe's answer and the vertical velocity |
| Movement.MoveCharacter | src/main.rs:45-179 | no player: the pivot is untouched. No pivot: only the look rotation is written. Otherwise: the controller becomes `Tick` of its old state, probed at the pre-move translation; the pivot gets the new pitch; the body moves by the sweep's answer to `Request` and keeps its rotation |
| Camera.Toggle | src/main.rs:191-202 | a toggle always switches to the other mode |
| Camera.ToggleInvolution | src/main.rs:191-202 | two toggles restore the mode |
| Camera.EntryOffset | src/main.rs:193-200 | entering third person snaps the camera to (0, 0, 10), first person to the origin |
| Camera.ToggleView | src/main.rs:191-202 | without a toggle the view is unchanged; with one the mode flips and the offset snaps to the new mode's entry offset |
| Camera.ToggleTwiceRestoresMode | src/main.rs:191-202 | toggling twice restores the mode and puts the camera at that mode's entry offset |
| Camera.OcclusionOffset | src/main.rs:214-226 | the camera sits on the pivot's z axis, at the hit distance minus one, or at 10 with no hit; a hit within the ray length 11 keeps it between -1 and 10 |
| Camera.Occlude | src/main.rs:210-227 | the mode is kept; first person is left alone; third person takes the occlusion offset |
| Camera.OccluderAtFive | src/main.rs:214-222 | an obstacle 5 behind the pivot brings a third-person camera to (0, 0, 4) |
| Camera.UpdateCamera | src/main.rs:181-228 | the camera's mode and offset become the toggled view, then occluded when the player, model and pivot all exist; the model gets the player's yaw when both exist |
| Schedule.InsertResources | src/main.rs:28-29 | the app starts with an all-false snapshot and input disabled |
| Schedule.RunFrame | src/main.rs:34-41 | one frame: every window's cursor is `CursorAfter` of its old one and the flag is updated first. The snapshot is refreshed only under the new flag. The controller takes `Tick` with that snapshot and that flag's look delta, the pivot gets the new pitch, and the body moves by the sweep's answer. Without a pivot only the look rotation changes. The camera's mode and offset are the toggled view, occluded when player, model and pivot exist, and its rotation is unchanged; the model gets the new yaw, and without a camera the model is untouched. An Escape with a window freezes the snapshot and zeroes the look delta |
| Schedule.ModeAfter | src/main.rs:191-202 | the camera mode changes exactly when the frame's snapshot has toggle-view set |
| Schedule.PausedToggleSticks | src/input.rs:44 | while input is disabled, a frame without a click keeps input disabled and a set toggle-view flag, and so switches the camera mode |
| Schedule.TabThenEscapeKeepsSwitching | src/input.rs:24-52 | Tab then Escape switches the camera on the first frame, back on the second, and again on an idle third frame |

## Left out

- src/setup.rs (the scene's ground, obstacles and lights) and the application bootstrap (plugins, window present mode, clear colour): they are not part of the controller.
- The physics engine: the shape sweep, the overlap test and the ray cast are parameters. Only the queries the code sends them, and how it uses their answers, are modelled. The sweep's own `grounded` output is never read, so it is absent.
- The sweep request's collider shape (the player's own cylinder), its fixed identity rotation, the `..default()` fields of `MoveShapeOptions` (src/main.rs:152), the query filter and the collision-event callback (src/main.rs:154-155) are not part of `Movement.MoveRequest`.
- `Schedule.RunFrame` runs `move_character` before `update_camera`. The source's `.chain()` (src/main.rs:34-41) leaves these two unordered, so the engine may run the camera first, and the body model then gets the previous frame's yaw. RunFrame's statement that the model gets the new yaw depends on this order; the model does not cover the camera-first order.
- The ray cast's origin and direction (the pivot's global translation and backward axis) are not modelled: only the hit distance reaches the camera.
- Query filters that exclude the player's own collider, the parent/child transform hierarchy, and the global transform propagation: the engine provides these.
- `cos`, `sin` and `normalize_or_zero` are parameters, and normalisation is restricted to the horizontal plane. `Movement.PlanarMoveHasSpeed` proves that every held direction, diagonals included, moves at exactly the movement speed, but only under two hypotheses about those parameters: cosine and sine lie on the unit circle, and normalisation returns unit vectors. Neither is checked against the real functions.
- Quaternions: rotations are Euler angles (`Rotation.Euler`) built from the same angles the code passes to `Quat::from_euler`.
- f32 arithmetic: reals stand in for f32, with no rounding, overflow, infinities or NaN. `PI` and `FRAC_PI_2` are the exact values of the f32 constants.
- nalgebra's `wrap` is a library function outside the program. `Movement.Wrap` follows its add-or-subtract-whole-widths definition.
- `Time` is the parameter `dt`. Mouse motion events are a sequence, given per frame. The event reader's buffering is not modelled: events of frames with input disabled are never read (src/main.rs:59-63) and stay in the reader's two-frame buffer, so the first enabled frame may add them to its own.
- Windows: grab mode and visibility are fields of `Input.Window`, and the operating-system effects of setting them are left out. Bevy's `CursorGrabMode::None` is named `Unlocked`.
- The mesh, material and `Ccd`/rigid-body components of the spawned player are left out. `Controller.SpawnPlayer` keeps only the transform and the controller.
