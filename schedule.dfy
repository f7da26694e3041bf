/**
 * Startup resources and the order of the per-frame systems (src/main.rs):
 * `update_cursor`, then `update_input`, then the pair `move_character` and
 * `update_camera`, each stage seeing what the previous one wrote. The chain
 * does not order the two systems of the pair; `RunFrame` runs
 * `move_character` first, and its clause on the model's yaw depends on that
 * order.
 */
module Schedule {
  import opened Wrappers
  import opened Geometry
  import opened Controller
  import Input
  import Movement
  import Camera

  /** The resources inserted at startup: a default snapshot and input disabled. */
  method InsertResources() returns (input: Input.PlayerInput, inputEnabled: Input.InputEnabled)
    ensures fresh(input) && fresh(inputEnabled)
    ensures input.Value() == Input.NoInput && !inputEnabled.enabled
  {
    input := new Input.PlayerInput.Default();
    inputEnabled := new Input.InputEnabled(false);
  }

  /**
   * One frame. Because the cursor system runs first, the frame's own click
   * or Escape already decides whether this frame's input is read and whether
   * its mouse motion turns the view; a toggle read this frame switches the
   * camera this frame.
   */
  method RunFrame(inputEnabled: Input.InputEnabled, windows: seq<Input.Window>,
                  buttons: Input.ButtonInput<Input.MouseButton>, keys: Input.ButtonInput<Input.KeyCode>,
                  input: Input.PlayerInput,
                  controller: PlayerController?, body: Transform?, pivot: Transform?,
                  mouseEvents: seq<Vec2>, dt: real, physics: Movement.Physics, num: Movement.Numerics,
                  camera: Transform?, cameraData: PlayerCamera?, model: Transform?, rayHit: Option<real>)
    requires (controller == null) == (body == null)
    requires body != null ==> body != pivot
    requires controller != null ==> controller.terminalVelocity >= 0.0
    requires (camera == null) == (cameraData == null)
    requires camera != null ==> camera != model && camera != body && camera != pivot
    requires model != null ==> model != body && model != pivot
    modifies inputEnabled, input, controller, body, pivot, camera, cameraData, model, set w | w in windows
    ensures inputEnabled.enabled ==
              if |windows| == 0 then old(inputEnabled.enabled)
              else Input.EnabledAfter(old(inputEnabled.enabled), Input.Left in buttons.justPressed,
                                      Input.Escape in keys.justPressed)
    ensures forall w :: w in windows ==>
              w.cursor == Input.CursorAfter(old(w.cursor), Input.Left in buttons.justPressed,
                                            Input.Escape in keys.justPressed)
    ensures input.Value() == Input.InputAfter(inputEnabled.enabled, old(input.Value()), keys)
    ensures controller != null && pivot == null ==>
              controller.State() == old(controller.State()).(
                rotation := Movement.Look(old(controller.rotation), Movement.MouseDelta(inputEnabled.enabled, mouseEvents)))
              && body.translation == old(body.translation) && body.rotation == old(body.rotation)
    ensures controller != null && pivot != null ==>
              var before := old(controller.State());
              var after := Movement.Tick(before, controller.Params(), input.Value(),
                                         Movement.MouseDelta(inputEnabled.enabled, mouseEvents), dt,
                                         physics.intersects(Movement.ProbeAt(old(body.translation))));
              controller.State() == after
              && pivot.rotation == Euler(after.rotation.x, 0.0, 0.0)
              && pivot.translation == old(pivot.translation)
              && body.translation == Add(old(body.translation), physics.moveShape(
                   Movement.Request(old(body.translation), before, after, controller.Params(), input.Value(), dt, num)))
              && body.rotation == old(body.rotation)
    ensures controller == null && pivot != null ==>
              pivot.translation == old(pivot.translation) && pivot.rotation == old(pivot.rotation)
    ensures camera != null ==>
              var toggled := Camera.ToggleView(Camera.View(old(cameraData.mode), old(camera.translation)),
                                               input.Value().toggleView);
              Camera.View(cameraData.mode, camera.translation) ==
                (if controller != null && model != null && pivot != null then Camera.Occlude(toggled, rayHit) else toggled)
    ensures camera != null ==> camera.rotation == old(camera.rotation)
    ensures camera == null && model != null ==> unchanged(model)
    ensures camera != null && model != null ==>
              model.rotation == (if controller != null then Euler(0.0, controller.rotation.y, 0.0) else old(model.rotation))
              && model.translation == old(model.translation)
    ensures controller != null ==>
              controller.rotation == Movement.Look(old(controller.rotation),
                                                   Movement.MouseDelta(inputEnabled.enabled, mouseEvents))
    ensures camera != null ==>
              cameraData.mode == ModeAfter(old(cameraData.mode), input.Value())
    ensures Input.Escape in keys.justPressed && |windows| > 0 ==>
              input.Value() == old(input.Value())
              && (controller != null ==> controller.rotation == Movement.Look(old(controller.rotation), Zero2))
  {
    Input.UpdateCursor(inputEnabled, windows, buttons, keys);
    Input.UpdateInput(inputEnabled, keys, input);
    Movement.MoveCharacter(controller, body, pivot, input, inputEnabled, mouseEvents, dt, physics, num);
    Camera.UpdateCamera(input, camera, cameraData, model, controller, pivot != null, rayHit);
  }
  /** The camera mode `RunFrame` leaves, given the frame's snapshot. */
  function ModeAfter(mode: CameraMode, snapshot: Input.Snapshot): (r: CameraMode)
    ensures snapshot.toggleView <==> r != mode
  {
    if snapshot.toggleView then Camera.Toggle(mode) else mode
  }

  /**
   * While input is disabled, a frame without a click keeps input disabled
   * and keeps the previous snapshot, including a set toggle-view flag, so
   * the camera switches mode again on that frame.
   */
  lemma PausedToggleSticks(previous: Input.Snapshot, keys: Input.ButtonInput<Input.KeyCode>, escape: bool, mode: CameraMode)
    requires previous.toggleView
    ensures var enabled := Input.EnabledAfter(false, false, escape);
            !enabled && Input.InputAfter(enabled, previous, keys).toggleView
            && ModeAfter(mode, Input.InputAfter(enabled, previous, keys)) == Camera.Toggle(mode)
  {
  }

  /**
   * Tab on one frame and Escape on the next: the camera switches on the
   * first frame, switches back on the second, and switches again on a third
   * frame with no input at all, because the snapshot is no longer refreshed.
   */
  lemma TabThenEscapeKeepsSwitching(previous: Input.Snapshot, tabKeys: Input.ButtonInput<Input.KeyCode>,
                                    escapeKeys: Input.ButtonInput<Input.KeyCode>, idleKeys: Input.ButtonInput<Input.KeyCode>,
                                    click: bool, mode: CameraMode)
    requires Input.Tab in tabKeys.justPressed
    ensures var s1 := Input.InputAfter(true, previous, tabKeys);
            var enabled2 := Input.EnabledAfter(true, click, true);
            var s2 := Input.InputAfter(enabled2, s1, escapeKeys);
            var enabled3 := Input.EnabledAfter(enabled2, false, false);
            var s3 := Input.InputAfter(enabled3, s2, idleKeys);
            var m1 := ModeAfter(mode, s1);
            var m2 := ModeAfter(m1, s2);
            !enabled2 && !enabled3
            && m1 == Camera.Toggle(mode) && m2 == mode && ModeAfter(m2, s3) == Camera.Toggle(mode)
  {
  }
}
