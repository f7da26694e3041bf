/**
 * The camera tick, `update_camera` (src/main.rs): the first/third-person
 * toggle with its offset snap, the body model's yaw, and third-person
 * occlusion pull-in from the engine's ray cast, given as an optional hit
 * distance.
 */
module Camera {
  import opened Wrappers
  import opened Geometry
  import opened Controller
  import Input

  /** The third-person offset from the pivot, and the length of the occlusion ray. */
  const ThirdPersonDistance: real := 10.0
  const RayLength: real := 11.0

  const ThirdPersonOffset: Vec3 := Vec3(0.0, 0.0, ThirdPersonDistance)

  /** The other mode. */
  function Toggle(mode: CameraMode): (r: CameraMode)
    ensures r != mode
  {
    match mode
    case FirstPerson => ThirdPerson
    case ThirdPerson => FirstPerson
  }

  /** Two toggles restore the mode. */
  lemma ToggleInvolution(mode: CameraMode)
    ensures Toggle(Toggle(mode)) == mode
  {
  }

  /** The offset the camera snaps to on entering a mode. */
  function EntryOffset(mode: CameraMode): (r: Vec3)
    ensures mode == ThirdPerson ==> r == ThirdPersonOffset
    ensures mode == FirstPerson ==> r == Zero3
  {
    match mode
    case ThirdPerson => ThirdPersonOffset
    case FirstPerson => Zero3
  }

  /** The camera's mode together with its local offset from the pivot. */
  datatype View = View(mode: CameraMode, offset: Vec3)

  /** The toggle step: on a toggle the mode flips and the offset snaps to the new mode's. */
  function ToggleView(v: View, toggle: bool): (r: View)
    ensures !toggle ==> r == v
    ensures toggle ==> r.mode == Toggle(v.mode) && r.offset == EntryOffset(r.mode)
  {
    if toggle then View(Toggle(v.mode), EntryOffset(Toggle(v.mode))) else v
  }

  /** Toggling twice in a row restores the mode, and the offset of that mode. */
  lemma ToggleTwiceRestoresMode(v: View)
    ensures ToggleView(ToggleView(v, true), true).mode == v.mode
    ensures ToggleView(ToggleView(v, true), true).offset == EntryOffset(v.mode)
  {
  }

  /**
   * The third-person offset from the ray cast: just in front of the first
   * hit, or the default distance when nothing is hit. A hit within the ray's
   * length never places the camera further out than the default.
   */
  function OcclusionOffset(hit: Option<real>): (r: Vec3)
    ensures r.x == 0.0 && r.y == 0.0
    ensures hit.None? ==> r == ThirdPersonOffset
    ensures hit.Some? ==> r.z == hit.value - 1.0
    ensures hit.Some? && 0.0 <= hit.value <= RayLength ==> -1.0 <= r.z <= ThirdPersonDistance
  {
    match hit
    case Some(toi) => Vec3(0.0, 0.0, toi - 1.0)
    case None => ThirdPersonOffset
  }

  /** The occlusion step: it moves the camera in third person only. */
  function Occlude(v: View, hit: Option<real>): (r: View)
    ensures r.mode == v.mode
    ensures v.mode == FirstPerson ==> r == v
    ensures v.mode == ThirdPerson ==> r.offset == OcclusionOffset(hit)
  {
    if v.mode == ThirdPerson then v.(offset := OcclusionOffset(hit)) else v
  }

  /** An obstacle 5 units behind the pivot brings a third-person camera in to 4. */
  lemma OccluderAtFive(v: View)
    requires v.mode == ThirdPerson
    ensures Occlude(v, Some(5.0)).offset == Vec3(0.0, 0.0, 4.0)
  {
  }

  /**
   * `update_camera`. Without a camera nothing changes. Otherwise a toggle is
   * applied first; the system then returns unless the player and its model
   * exist, gives the model the player's yaw, and in third person (when the
   * pivot exists) places the camera from the ray cast.
   */
  method UpdateCamera(input: Input.PlayerInput, camera: Transform?, cameraData: PlayerCamera?,
                      model: Transform?, controller: PlayerController?, pivotFound: bool,
                      rayHit: Option<real>)
    requires (camera == null) == (cameraData == null)
    requires camera != null ==> camera != model
    modifies camera, cameraData, model
    ensures camera == null && model != null ==> unchanged(model)
    ensures camera != null ==>
              var toggled := ToggleView(View(old(cameraData.mode), old(camera.translation)), old(input.toggleView));
              var reached := controller != null && model != null;
              View(cameraData.mode, camera.translation) ==
                (if reached && pivotFound then Occlude(toggled, rayHit) else toggled)
              && camera.rotation == old(camera.rotation)
              && (model != null ==>
                    model.rotation == (if controller != null then Euler(0.0, controller.rotation.y, 0.0) else old(model.rotation))
                    && model.translation == old(model.translation))
  {
    if camera == null { return; }

    if input.toggleView {
      match cameraData.mode {
        case FirstPerson =>
          cameraData.mode := ThirdPerson;
          camera.translation := ThirdPersonOffset;
        case ThirdPerson =>
          cameraData.mode := FirstPerson;
          camera.translation := Zero3;
      }
    }

    if controller == null { return; }
    if model == null { return; }

    model.rotation := Euler(0.0, controller.rotation.y, 0.0);

    if cameraData.mode == ThirdPerson {
      if !pivotFound { return; }

      match rayHit {
        case Some(toi) =>
          camera.translation := Vec3(0.0, 0.0, toi - 1.0);
        case None =>
          camera.translation := ThirdPersonOffset;
      }
    }
  }
}
