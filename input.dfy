/**
 * The input-enabled flag, the per-tick input snapshot and the two systems
 * that maintain them (src/input.rs). Window cursor grab and visibility are
 * plain fields of a `Window` object; the operating-system side effects of
 * changing them are not modelled.
 */
module Input {

  datatype KeyCode = W | S | A | D | Space | Tab | Escape | OtherKey

  datatype MouseButton = Left | Right | Middle

  /** The engine's `Input<T>` resource: what is held down and what went down this tick. */
  datatype ButtonInput<T> = ButtonInput(pressed: set<T>, justPressed: set<T>)

  datatype CursorGrabMode = Unlocked | Confined | Locked

  datatype Cursor = Cursor(grabMode: CursorGrabMode, visible: bool)

  /** The cursor while the game owns the mouse, and after it has let it go. */
  const Grabbed: Cursor := Cursor(Locked, false)
  const Released: Cursor := Cursor(Unlocked, true)

  /** A primary window; `update_cursor` writes its cursor in place. */
  class Window {
    var cursor: Cursor

    constructor (c: Cursor)
      ensures cursor == c
    {
      cursor := c;
    }
  }

  /** The `InputEnabled` resource; the application starts with it false. */
  class InputEnabled {
    var enabled: bool

    constructor (e: bool)
      ensures enabled == e
    {
      enabled := e;
    }
  }

  /** The six flags of `PlayerInput` as one value. */
  datatype Snapshot = Snapshot(
    forward: bool, backward: bool, left: bool, right: bool, jump: bool, toggleView: bool)

  const NoInput: Snapshot := Snapshot(false, false, false, false, false, false)

  /** The `PlayerInput` resource; `update_input` overwrites its flags one by one. */
  class PlayerInput {
    var forward: bool
    var backward: bool
    var left: bool
    var right: bool
    var jump: bool
    var toggleView: bool

    function Value(): Snapshot
      reads this
    {
      Snapshot(forward, backward, left, right, jump, toggleView)
    }

    /** The derived `PlayerInput::default()`: every flag false. */
    constructor Default()
      ensures Value() == NoInput
    {
      forward, backward, left, right, jump, toggleView := false, false, false, false, false, false;
    }
  }

  /**
   * What one window's cursor becomes in `update_cursor`: a click grabs it,
   * then Escape releases it, so Escape wins when both happen in one tick.
   */
  function CursorAfter(c: Cursor, click: bool, escape: bool): (r: Cursor)
    ensures escape ==> r == Released
    ensures click && !escape ==> r == Grabbed
    ensures !click && !escape ==> r == c
  {
    var grabbed := if click then c.(grabMode := Locked, visible := false) else c;
    if escape then grabbed.(grabMode := Unlocked, visible := true) else grabbed
  }

  /** What `InputEnabled` becomes after one window has been handled. */
  function EnabledAfter(enabled: bool, click: bool, escape: bool): (r: bool)
    ensures escape ==> !r
    ensures click && !escape ==> r
    ensures !click && !escape ==> r == enabled
  {
    var e := if click then true else enabled;
    if escape then false else e
  }

  /** Handling a window a second time changes nothing more. */
  lemma AfterIdempotent(c: Cursor, enabled: bool, click: bool, escape: bool)
    ensures CursorAfter(CursorAfter(c, click, escape), click, escape) == CursorAfter(c, click, escape)
    ensures EnabledAfter(EnabledAfter(enabled, click, escape), click, escape) == EnabledAfter(enabled, click, escape)
  {
  }

  /**
   * `update_cursor`: every primary window's cursor is grabbed on a left click
   * and released on Escape, and `InputEnabled` follows. With no primary window
   * the loop body never runs and the flag keeps its value.
   */
  method UpdateCursor(inputEnabled: InputEnabled, windows: seq<Window>,
                      buttons: ButtonInput<MouseButton>, keys: ButtonInput<KeyCode>)
    modifies inputEnabled, set w | w in windows
    ensures inputEnabled.enabled ==
              if |windows| == 0 then old(inputEnabled.enabled)
              else EnabledAfter(old(inputEnabled.enabled), Left in buttons.justPressed, Escape in keys.justPressed)
    ensures forall w :: w in windows ==>
              w.cursor == CursorAfter(old(w.cursor), Left in buttons.justPressed, Escape in keys.justPressed)
  {
    var click := Left in buttons.justPressed;
    var escape := Escape in keys.justPressed;
    var i := 0;
    while i < |windows|
      invariant 0 <= i <= |windows|
      invariant inputEnabled.enabled ==
                  if i == 0 then old(inputEnabled.enabled) else EnabledAfter(old(inputEnabled.enabled), click, escape)
      invariant forall w :: w in windows[..i] ==> w.cursor == CursorAfter(old(w.cursor), click, escape)
      invariant forall w :: w in windows && w !in windows[..i] ==> w.cursor == old(w.cursor)
    {
      var window := windows[i];
      AfterIdempotent(old(window.cursor), old(inputEnabled.enabled), click, escape);
      if click {
        window.cursor := window.cursor.(grabMode := Locked);
        window.cursor := window.cursor.(visible := false);
        inputEnabled.enabled := true;
      }
      if escape {
        window.cursor := window.cursor.(grabMode := Unlocked);
        window.cursor := window.cursor.(visible := true);
        inputEnabled.enabled := false;
      }
      assert windows[..i + 1] == windows[..i] + [window];
      i := i + 1;
    }
    assert windows[..i] == windows;
  }

  /** The snapshot the keyboard gives while input is enabled. */
  function SnapshotOf(keys: ButtonInput<KeyCode>): (r: Snapshot)
    ensures r.forward <==> W in keys.pressed
    ensures r.backward <==> S in keys.pressed
    ensures r.left <==> A in keys.pressed
    ensures r.right <==> D in keys.pressed
    ensures r.jump <==> Space in keys.pressed
    ensures r.toggleView <==> Tab in keys.justPressed
  {
    Snapshot(W in keys.pressed, S in keys.pressed, A in keys.pressed, D in keys.pressed,
             Space in keys.pressed, Tab in keys.justPressed)
  }

  /**
   * The snapshot after `update_input`: while input is disabled the system
   * returns at once and every flag keeps its stale value, including a
   * `toggleView` that was true.
   */
  function InputAfter(enabled: bool, previous: Snapshot, keys: ButtonInput<KeyCode>): (r: Snapshot)
    ensures !enabled ==> r == previous
    ensures enabled ==> r == SnapshotOf(keys)
    ensures enabled ==> (r.toggleView <==> Tab in keys.justPressed)
  {
    if enabled then SnapshotOf(keys) else previous
  }

  /** `update_input`: overwrite the flags from the keyboard, unless input is disabled. */
  method UpdateInput(inputEnabled: InputEnabled, keys: ButtonInput<KeyCode>, input: PlayerInput)
    modifies input
    ensures input.Value() == InputAfter(inputEnabled.enabled, old(input.Value()), keys)
  {
    if !inputEnabled.enabled { return; }

    if W in keys.pressed { input.forward := true; } else { input.forward := false; }
    if S in keys.pressed { input.backward := true; } else { input.backward := false; }
    if A in keys.pressed { input.left := true; } else { input.left := false; }
    if D in keys.pressed { input.right := true; } else { input.right := false; }

    if Space in keys.pressed { input.jump := true; } else { input.jump := false; }
    if Tab in keys.justPressed { input.toggleView := true; } else { input.toggleView := false; }
  }
}
