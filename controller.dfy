/**
 * The player's controller component, the camera component and the constants
 * the player entity spawns with (src/controller.rs).
 */
module Controller {
  import opened Geometry

  /** The mutable part of the controller: what `move_character` rewrites each tick. */
  datatype Kinematics = Kinematics(
    acceleration: Vec3,
    velocity: Vec3,
    /** x is the pitch, y the yaw. */
    rotation: Vec2,
    grounded: bool)

  /** The tunables; no system ever writes them. */
  datatype Tunables = Tunables(
    movementSpeed: real,
    jumpForce: real,
    mass: real,
    gravity: real,
    terminalVelocity: real)

  const DefaultKinematics: Kinematics := Kinematics(Zero3, Zero3, Zero2, false)

  const DefaultTunables: Tunables := Tunables(10.0, 9.8, 100.0, 9.8, 180.0)

  /** Every tunable is positive; in particular the terminal-velocity clamp interval is non-empty. */
  predicate TunablesValid(t: Tunables) {
    t.movementSpeed > 0.0 && t.jumpForce > 0.0 && t.mass > 0.0
    && t.gravity > 0.0 && t.terminalVelocity > 0.0
  }

  lemma DefaultTunablesValid()
    ensures TunablesValid(DefaultTunables)
    ensures -DefaultTunables.terminalVelocity <= DefaultTunables.terminalVelocity
  {
  }

  /** The `PlayerController` component; `move_character` updates its fields in place. */
  class PlayerController {
    var acceleration: Vec3
    var velocity: Vec3
    var rotation: Vec2
    const movementSpeed: real
    const jumpForce: real
    const mass: real
    const gravity: real
    const terminalVelocity: real
    var grounded: bool

    function State(): Kinematics
      reads this
    {
      Kinematics(acceleration, velocity, rotation, grounded)
    }

    function Params(): Tunables {
      Tunables(movementSpeed, jumpForce, mass, gravity, terminalVelocity)
    }

    /** `PlayerController::default()`. */
    constructor Default()
      ensures State() == DefaultKinematics && Params() == DefaultTunables
      ensures acceleration == Zero3 && velocity == Zero3 && rotation == Zero2 && !grounded
    {
      acceleration := Zero3;
      velocity := Zero3;
      rotation := Zero2;
      grounded := false;
      movementSpeed := 10.0;
      jumpForce := 9.8;
      mass := 100.0;
      gravity := 9.8;
      terminalVelocity := 180.0;
    }
  }

  datatype CameraMode = FirstPerson | ThirdPerson

  /** The `PlayerCamera` component; `update_camera` rewrites its mode. */
  class PlayerCamera {
    var mode: CameraMode

    /** `PlayerCamera::default()`: the derived default takes `CameraMode`'s default, `FirstPerson`. */
    constructor Default()
      ensures mode == FirstPerson
    {
      mode := FirstPerson;
    }
  }

  /** The player's collider: a cylinder of this half-height and radius. */
  const ColliderHalfHeight: real := 2.25
  const ColliderRadius: real := 1.25

  /** Where the player entity is placed at startup. */
  const SpawnTranslation: Vec3 := Vec3(0.0, 3.0, 0.0)

  /**
   * The constants of `setup_player_controller`: the player's body transform
   * at the spawn point and a default controller. The entity hierarchy, mesh
   * and material are not modelled.
   */
  method SpawnPlayer() returns (body: Transform, controller: PlayerController)
    ensures fresh(body) && fresh(controller)
    ensures body.translation == SpawnTranslation && body.rotation == Identity
    ensures controller.State() == DefaultKinematics && controller.Params() == DefaultTunables
  {
    body := new Transform.FromTranslation(SpawnTranslation);
    controller := new PlayerController.Default();
  }
}
