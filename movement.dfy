/**
 * The player tick, `move_character` (src/main.rs): mouse look, planar input
 * axes, the grounded/airborne vertical state machine, integration with the
 * terminal-velocity clamp, the sweep request, the grounded probe and the
 * position update. The physics engine's sweep and overlap test, and the
 * trigonometry and normalisation of the planar move, are oracle parameters.
 */
module Movement {
  import opened Wrappers
  import opened Geometry
  import opened Controller
  import Input

  // ---------------------------------------------------------------- constants

  /** `std::f32::consts::PI`, the exact value of the `f32` constant. */
  const Pi: real := 3.1415927410125732421875
  /** `FRAC_PI_2`, exactly half of the `f32` PI. */
  const HalfPi: real := Pi / 2.0
  const Tau: real := 2.0 * Pi

  /** How far the pitch stays from the poles. */
  const PitchMargin: real := 0.001953125
  const MinPitch: real := -HalfPi + PitchMargin
  const MaxPitch: real := HalfPi - PitchMargin

  /** The auto-step and ground-snap settings used while grounded. */
  const StepMaxHeight: real := 1.65
  const StepMinWidth: real := 0.1
  const SnapDistance: real := 0.05

  /** The grounded probe: a thin cylinder this far below the player's origin. */
  const ProbeOffset: real := 2.25
  const ProbeHalfHeight: real := 0.05
  const ProbeRadius: real := 1.24

  // ---------------------------------------------------------------- oracles

  datatype Autostep = Autostep(maxHeight: real, minWidth: real, includeDynamicBodies: bool)

  datatype MoveOptions = MoveOptions(autostep: Option<Autostep>, snapToGround: Option<real>, slide: bool)

  /** One `move_shape` call: desired translation, start position, mass and options. */
  datatype MoveRequest = MoveRequest(desired: Vec3, start: Vec3, mass: real, options: MoveOptions)

  /** One `intersection_with_shape` call: a cylinder at a position. */
  datatype ProbeQuery = ProbeQuery(center: Vec3, halfHeight: real, radius: real)

  /**
   * The physics world as seen by the tick: the sweep's effective translation
   * for a request, and whether a probe overlaps any collider other than the
   * player's own.
   */
  datatype Physics = Physics(moveShape: MoveRequest -> Vec3, intersects: ProbeQuery -> bool)

  /**
   * `cos`, `sin` and `normalize_or_zero` restricted to the horizontal plane
   * (the planar move has a zero y component, and so does its normalisation).
   */
  datatype Numerics = Numerics(cos: real -> real, sin: real -> real, normalizePlanar: Vec2 -> Vec2)

  // ---------------------------------------------------------------- mouse look

  /** The sum of a tick's mouse-motion deltas, in event order. */
  function SumDeltas(events: seq<Vec2>): (r: Vec2)
    ensures |events| == 1 ==> r == events[0]
    ensures (forall i :: 0 <= i < |events| ==> events[i] == Zero2) ==> r == Zero2
  {
    if |events| == 0 then Zero2 else Add2(SumDeltas(events[..|events| - 1]), events[|events| - 1])
  }

  /**
   * The tick's look delta: the events' sum while input is enabled, times the
   * mouse sensitivity 0.0015 (written as a literal so that the product stays
   * linear for the verifier).
   */
  function MouseDelta(enabled: bool, events: seq<Vec2>): (r: Vec2)
    ensures !enabled ==> r == Zero2
    ensures enabled && |events| == 1 ==> r == Vec2(events[0].x * 0.0015, events[0].y * 0.0015)
  {
    var sum := if enabled then SumDeltas(events) else Zero2;
    Vec2(sum.x * 0.0015, sum.y * 0.0015)
  }

  /** Summing two batches of events separately and adding gives the sum of all of them. */
  lemma {:induction false} SumDeltasConcat(a: seq<Vec2>, b: seq<Vec2>)
    ensures SumDeltas(a + b) == Add2(SumDeltas(a), SumDeltas(b))
    decreases |b|
  {
    if |b| == 0 {
      assert a + b == a;
    } else {
      var front := b[..|b| - 1];
      assert (a + b)[..|a + b| - 1] == a + front;
      assert (a + b)[|a + b| - 1] == b[|b| - 1];
      SumDeltasConcat(a, front);
    }
  }

  /**
   * The look delta is additive over the events: however a tick's motion is
   * split into events, the view turns by the same amount.
   */
  lemma MouseDeltaConcat(enabled: bool, a: seq<Vec2>, b: seq<Vec2>)
    ensures MouseDelta(enabled, a + b) == Add2(MouseDelta(enabled, a), MouseDelta(enabled, b))
  {
    SumDeltasConcat(a, b);
  }

  /** Accumulates the mouse events (only while input is enabled) and applies the sensitivity. */
  method ReadMouseDelta(enabled: bool, events: seq<Vec2>) returns (delta: Vec2)
    ensures delta == MouseDelta(enabled, events)
    ensures !enabled ==> delta == Zero2
  {
    var sum := Zero2;
    if enabled {
      var i := 0;
      while i < |events|
        invariant 0 <= i <= |events|
        invariant sum == SumDeltas(events[..i])
      {
        assert events[..i + 1][..i] == events[..i];
        sum := Add2(sum, events[i]);
        i := i + 1;
      }
      assert events[..i] == events;
    }
    delta := Vec2(sum.x * 0.0015, sum.y * 0.0015);
  }

  /** `f32::clamp`; Rust panics unless `lo <= hi`. */
  function Clamp(v: real, lo: real, hi: real): (r: real)
    requires lo <= hi
    ensures lo <= r <= hi
    ensures lo <= v <= hi ==> r == v
    ensures v < lo ==> r == lo
    ensures hi < v ==> r == hi
  {
    if v < lo then lo else if hi < v then hi else v
  }

  lemma ShiftQuotient(a: real, w: real)
    requires w > 0.0
    ensures (a - w) / w == a / w - 1.0
  {
    assert (a - w) / w == a / w - w / w;
  }

  /** Adds `w` until the value reaches `lo`; the value starts below `lo + w`. */
  function WrapUp(v: real, lo: real, w: real): (r: real)
    requires w > 0.0 && v < lo + w
    ensures lo <= r < lo + w
    decreases if v < lo then ((lo - v) / w).Floor + 1 else 0
  {
    if v < lo then
      ShiftQuotient(lo - v, w);
      assert ((lo - (v + w)) / w).Floor == ((lo - v) / w).Floor - 1;
      WrapUp(v + w, lo, w)
    else v
  }

  /** Subtracts `w` until the value reaches `hi`; the value starts above `hi - w`. */
  function WrapDown(v: real, hi: real, w: real): (r: real)
    requires w > 0.0 && hi - w < v
    ensures hi - w < r <= hi
    decreases if hi < v then ((v - hi) / w).Floor + 1 else 0
  {
    if hi < v then
      ShiftQuotient(v - hi, w);
      assert ((v - w - hi) / w).Floor == ((v - hi) / w).Floor - 1;
      WrapDown(v - w, hi, w)
    else v
  }

  /**
   * nalgebra's `wrap(v, lo, hi)`: shifts `v` by whole widths `hi - lo` into
   * the closed interval; a value already inside is returned unchanged.
   */
  function Wrap(v: real, lo: real, hi: real): (r: real)
    requires lo < hi
    ensures lo <= r <= hi
    ensures lo <= v <= hi ==> r == v
  {
    var w := hi - lo;
    if v < lo then WrapUp(v + w, lo, w)
    else if hi < v then WrapDown(v - w, hi, w)
    else v
  }

  /** `WrapUp` adds a whole number of widths. */
  lemma {:induction false} WrapUpShift(v: real, lo: real, w: real) returns (k: nat)
    requires w > 0.0 && v < lo + w
    ensures WrapUp(v, lo, w) == v + (k as real) * w
    decreases if v < lo then ((lo - v) / w).Floor + 1 else 0
  {
    if v < lo {
      ShiftQuotient(lo - v, w);
      assert ((lo - (v + w)) / w).Floor == ((lo - v) / w).Floor - 1;
      var j := WrapUpShift(v + w, lo, w);
      k := j + 1;
      assert (k as real) * w == (j as real) * w + w;
    } else {
      k := 0;
    }
  }

  /** `WrapDown` subtracts a whole number of widths. */
  lemma {:induction false} WrapDownShift(v: real, hi: real, w: real) returns (k: nat)
    requires w > 0.0 && hi - w < v
    ensures WrapDown(v, hi, w) == v - (k as real) * w
    decreases if hi < v then ((v - hi) / w).Floor + 1 else 0
  {
    if hi < v {
      ShiftQuotient(v - hi, w);
      assert ((v - w - hi) / w).Floor == ((v - hi) / w).Floor - 1;
      var j := WrapDownShift(v - w, hi, w);
      k := j + 1;
      assert (k as real) * w == (j as real) * w + w;
    } else {
      k := 0;
    }
  }

  /** `wrap` moves its argument by a whole number of widths `hi - lo`. */
  lemma WrapShift(v: real, lo: real, hi: real) returns (k: int)
    requires lo < hi
    ensures Wrap(v, lo, hi) == v + (k as real) * (hi - lo)
  {
    var w := hi - lo;
    if v < lo {
      var j := WrapUpShift(v + w, lo, w);
      assert Wrap(v, lo, hi) == WrapUp(v + w, lo, w) == (v + w) + (j as real) * w;
      k := j + 1;
      assert (k as real) * w == (j as real) * w + w;
    } else if hi < v {
      var j := WrapDownShift(v - w, hi, w);
      assert Wrap(v, lo, hi) == WrapDown(v - w, hi, w) == (v - w) - (j as real) * w;
      k := -(j as int) - 1;
      assert (k as real) * w == -((j as real) * w + w);
    } else {
      k := 0;
    }
  }

  /** The new (pitch, yaw): pitch clamped away from the poles, yaw wrapped into one turn. */
  function Look(rotation: Vec2, delta: Vec2): (r: Vec2)
    ensures MinPitch <= r.x <= MaxPitch
    ensures 0.0 <= r.y <= Tau
    ensures MinPitch <= rotation.x - delta.y <= MaxPitch ==> r.x == rotation.x - delta.y
    ensures rotation.x - delta.y < MinPitch ==> r.x == MinPitch
    ensures MaxPitch < rotation.x - delta.y ==> r.x == MaxPitch
    ensures 0.0 <= rotation.y - delta.x <= Tau ==> r.y == rotation.y - delta.x
  {
    Vec2(Clamp(rotation.x - delta.y, MinPitch, MaxPitch), Wrap(rotation.y - delta.x, 0.0, Tau))
  }

  /** The new yaw is the old yaw minus the horizontal delta, up to whole turns. */
  lemma YawTurnsByDelta(rotation: Vec2, delta: Vec2) returns (k: int)
    ensures Look(rotation, delta).y == rotation.y - delta.x + (k as real) * Tau
  {
    k := WrapShift(rotation.y - delta.x, 0.0, Tau);
  }

  /** The pitch interval is non-empty and strictly inside the poles. */
  lemma PitchAvoidsPoles()
    ensures -HalfPi < MinPitch < MaxPitch < HalfPi
  {
  }

  /** With no mouse motion a rotation already in range stays put. */
  lemma IdleLookKeepsRotation(rotation: Vec2)
    requires MinPitch <= rotation.x <= MaxPitch && 0.0 <= rotation.y <= Tau
    ensures Look(rotation, Zero2) == rotation
  {
  }

  /**
   * `wrap` keeps its upper bound: a yaw that lands exactly on a full turn
   * stays there, so the yaw interval is closed at 2*PI.
   */
  lemma YawMayEqualFullTurn()
    ensures Look(Zero2, Vec2(-Tau, 0.0)).y == Tau
  {
  }

  // ---------------------------------------------------------------- planar move

  /**
   * One input axis from its two flags: the negative key counts -1, the
   * positive key +1, and holding both nets exactly zero.
   */
  function Axis(negative: bool, positive: bool): (r: real)
    ensures r == -1.0 || r == 0.0 || r == 1.0
    ensures r == 0.0 <==> negative == positive
    ensures r == -1.0 <==> negative && !positive
    ensures r == 1.0 <==> positive && !negative
  {
    var start := 0.0;
    var afterNegative := if negative then start - 1.0 else start;
    if positive then afterNegative + 1.0 else afterNegative
  }

  /** The forward axis: W moves forward (-1), S backward (+1). */
  function ForwardAxis(input: Input.Snapshot): (r: real)
    ensures r == -1.0 <==> input.forward && !input.backward
    ensures r == 1.0 <==> input.backward && !input.forward
    ensures r == 0.0 <==> input.forward == input.backward
  {
    Axis(input.forward, input.backward)
  }

  /** The strafe axis: A moves left (-1), D right (+1). */
  function SidewaysAxis(input: Input.Snapshot): (r: real)
    ensures r == -1.0 <==> input.left && !input.right
    ensures r == 1.0 <==> input.right && !input.left
    ensures r == 0.0 <==> input.left == input.right
  {
    Axis(input.left, input.right)
  }

  /** The input axes turned by the yaw, given its cosine and sine: (x, z) of the planar move. */
  function RotateAxes(xFac: real, zFac: real, forward: real, sideways: real): Vec2 {
    Vec2(zFac * forward + xFac * sideways, xFac * forward + -zFac * sideways)
  }

  /** The planar move before velocity: the axes rotated by the yaw, normalised and scaled by the speed. */
  function PlanarMove(num: Numerics, yaw: real, forward: real, sideways: real, speed: real): (r: Vec3)
    ensures r.y == 0.0
    ensures num.normalizePlanar(Zero2) == Zero2 && forward == 0.0 && sideways == 0.0 ==> r == Zero3
  {
    var n := num.normalizePlanar(RotateAxes(num.cos(yaw), num.sin(yaw), forward, sideways));
    Vec3(n.x * speed, 0.0, n.y * speed)
  }

  /** At yaw zero (cosine 1, sine 0) strafing moves along x and forward/backward along z. */
  lemma RotateAtZeroYaw(forward: real, sideways: real)
    ensures RotateAxes(1.0, 0.0, forward, sideways) == Vec2(sideways, forward)
  {
  }

  /**
   * With a cosine and sine on the unit circle the rotation keeps the length
   * of the input axes: a diagonal stays a diagonal of length sqrt(2).
   */
  lemma RotationKeepsLength(xFac: real, zFac: real, forward: real, sideways: real)
    requires xFac * xFac + zFac * zFac == 1.0
    ensures var r := RotateAxes(xFac, zFac, forward, sideways);
            r.x * r.x + r.y * r.y == forward * forward + sideways * sideways
  {
    var r := RotateAxes(xFac, zFac, forward, sideways);
    assert r.x * r.x == zFac * zFac * forward * forward + 2.0 * zFac * forward * xFac * sideways + xFac * xFac * sideways * sideways;
    assert r.y * r.y == xFac * xFac * forward * forward - 2.0 * xFac * forward * zFac * sideways + zFac * zFac * sideways * sideways;
    assert r.x * r.x + r.y * r.y == (xFac * xFac + zFac * zFac) * (forward * forward + sideways * sideways);
  }

  /**
   * The planar move has exactly the movement speed, for any held direction
   * including a diagonal, provided the yaw's cosine and sine lie on the unit
   * circle and normalisation returns a unit vector for a non-zero input.
   */
  lemma PlanarMoveHasSpeed(num: Numerics, yaw: real, forward: real, sideways: real, speed: real)
    requires num.cos(yaw) * num.cos(yaw) + num.sin(yaw) * num.sin(yaw) == 1.0
    requires forall v :: v != Zero2 ==> num.normalizePlanar(v).x * num.normalizePlanar(v).x + num.normalizePlanar(v).y * num.normalizePlanar(v).y == 1.0
    requires forward != 0.0 || sideways != 0.0
    ensures var r := PlanarMove(num, yaw, forward, sideways, speed);
            r.x * r.x + r.z * r.z == speed * speed
  {
    var rotated := RotateAxes(num.cos(yaw), num.sin(yaw), forward, sideways);
    RotationKeepsLength(num.cos(yaw), num.sin(yaw), forward, sideways);
    PositiveSumOfSquares(forward, sideways);
    assert rotated != Zero2;
    var n := num.normalizePlanar(rotated);
    assert n.x * n.x + n.y * n.y == 1.0;
    assert (n.x * speed) * (n.x * speed) + (n.y * speed) * (n.y * speed) == (n.x * n.x + n.y * n.y) * (speed * speed);
  }

  lemma PositiveSumOfSquares(a: real, b: real)
    requires a != 0.0 || b != 0.0
    ensures a * a + b * b > 0.0
  {
  }

  /** With no directional key held the planar move is zero, given that normalising zero gives zero. */
  lemma IdleHasNoPlanarMove(num: Numerics, yaw: real, speed: real)
    requires num.normalizePlanar(Zero2) == Zero2
    ensures PlanarMove(num, yaw, Axis(false, false), Axis(false, false), speed) == Zero3
  {
  }

  // ---------------------------------------------------------------- vertical state machine

  /** Acceleration and velocity between the vertical update and integration. */
  datatype Motion = Motion(acceleration: Vec3, velocity: Vec3)

  /**
   * The vertical update. Grounded: any downward acceleration or velocity is
   * cancelled (both together), then a held jump adds the jump force to the
   * velocity as an impulse, on every grounded tick it is held. Airborne:
   * gravity is (re)armed only while the vertical velocity is non-negative.
   * Only y components are ever written.
   */
  function Vertical(grounded: bool, jump: bool, acc: Vec3, vel: Vec3, t: Tunables): (r: Motion)
    ensures r.acceleration.x == acc.x && r.acceleration.z == acc.z
    ensures r.velocity.x == vel.x && r.velocity.z == vel.z
    ensures grounded ==> r.acceleration.y >= 0.0 && r.velocity.y - (if jump then t.jumpForce else 0.0) >= 0.0
    ensures grounded && (acc.y < 0.0 || vel.y < 0.0) ==>
              r.acceleration.y == 0.0 && r.velocity.y == (if jump then t.jumpForce else 0.0)
    ensures grounded && acc.y >= 0.0 && vel.y >= 0.0 ==>
              r.acceleration == acc && r.velocity.y == vel.y + (if jump then t.jumpForce else 0.0)
    ensures !grounded ==> r.velocity == vel
    ensures !grounded ==> (r.acceleration.y == if vel.y >= 0.0 then -t.gravity else acc.y)
  {
    if grounded then
      var cancel := acc.y < 0.0 || vel.y < 0.0;
      var a := if cancel then acc.(y := 0.0) else acc;
      var v := if cancel then vel.(y := 0.0) else vel;
      Motion(a, if jump then v.(y := v.y + t.jumpForce) else v)
    else
      Motion(if vel.y >= 0.0 then acc.(y := -t.gravity) else acc, vel)
  }

  /** A held jump changes exactly the vertical velocity, by exactly the jump force. */
  lemma JumpIsImpulse(acc: Vec3, vel: Vec3, t: Tunables)
    ensures Vertical(true, true, acc, vel, t).acceleration == Vertical(true, false, acc, vel, t).acceleration
    ensures Vertical(true, true, acc, vel, t).velocity.y == Vertical(true, false, acc, vel, t).velocity.y + t.jumpForce
  {
  }

  /**
   * Integration: `velocity += acceleration * dt`, then the vertical speed is
   * clamped to the terminal velocity (Rust's clamp requires the interval to
   * be non-empty).
   */
  function Integrate(acc: Vec3, vel: Vec3, dt: real, terminal: real): (r: Vec3)
    requires terminal >= 0.0
    ensures r.x == vel.x + acc.x * dt && r.z == vel.z + acc.z * dt
    ensures -terminal <= r.y <= terminal
    ensures -terminal <= vel.y + acc.y * dt <= terminal ==> r.y == vel.y + acc.y * dt
    ensures vel.y + acc.y * dt < -terminal ==> r.y == -terminal
    ensures terminal < vel.y + acc.y * dt ==> r.y == terminal
  {
    var v := Add(vel, Scale(acc, dt));
    v.(y := Clamp(v.y, -terminal, terminal))
  }

  // ---------------------------------------------------------------- sweep and probe

  /** Auto-step and ground snap are enabled exactly while grounded; sliding always is. */
  function SweepOptions(grounded: bool): (o: MoveOptions)
    ensures o.autostep.Some? <==> grounded
    ensures o.snapToGround.Some? <==> grounded
    ensures o.slide
    ensures grounded ==> o.autostep.value.maxHeight == StepMaxHeight
                         && o.autostep.value.minWidth == StepMinWidth
                         && o.autostep.value.includeDynamicBodies
                         && o.snapToGround.value == SnapDistance
  {
    if grounded then MoveOptions(Some(Autostep(StepMaxHeight, StepMinWidth, true)), Some(SnapDistance), true)
    else MoveOptions(None, None, true)
  }

  /** The grounded probe, placed below the given (pre-move) translation. */
  function ProbeAt(translation: Vec3): (q: ProbeQuery)
    ensures q.center.x == translation.x && q.center.z == translation.z
    ensures q.center.y == translation.y - ColliderHalfHeight
    ensures q.halfHeight == ProbeHalfHeight && q.radius == ProbeRadius
    ensures q.radius < ColliderRadius
  {
    ProbeQuery(Add(translation, Vec3(0.0, -ProbeOffset, 0.0)), ProbeHalfHeight, ProbeRadius)
  }

  /** The probe's offset is the collider's half-height and it is slightly narrower. */
  lemma ProbeSitsAtColliderBase()
    ensures ProbeOffset == ColliderHalfHeight && ProbeRadius < ColliderRadius
  {
  }

  /**
   * The grounded decision: grounded exactly when the probe overlaps
   * something and the player is not rising.
   */
  function GroundedAfter(overlap: bool, velocityY: real): (g: bool)
    ensures g <==> overlap && velocityY <= 0.0
    ensures !overlap ==> !g
    ensures velocityY > 0.0 ==> !g
  {
    if overlap then (if velocityY <= 0.0 then true else false) else false
  }

  // ---------------------------------------------------------------- the tick as a function

  /** The controller's new kinematic state after one full tick. */
  function Tick(k: Kinematics, t: Tunables, input: Input.Snapshot, delta: Vec2, dt: real, overlap: bool): (r: Kinematics)
    requires t.terminalVelocity >= 0.0
    ensures MinPitch <= r.rotation.x <= MaxPitch && 0.0 <= r.rotation.y <= Tau
    ensures -t.terminalVelocity <= r.velocity.y <= t.terminalVelocity
    ensures r.grounded <==> overlap && r.velocity.y <= 0.0
    ensures r.acceleration.x == k.acceleration.x && r.acceleration.z == k.acceleration.z
  {
    var rotation := Look(k.rotation, delta);
    var m := Vertical(k.grounded, input.jump, k.acceleration, k.velocity, t);
    var velocity := Integrate(m.acceleration, m.velocity, dt, t.terminalVelocity);
    Kinematics(m.acceleration, velocity, rotation, GroundedAfter(overlap, velocity.y))
  }

  /** The translation asked of the sweep, from the tick's new kinematic state. */
  function DesiredTranslation(next: Kinematics, t: Tunables, input: Input.Snapshot, dt: real, num: Numerics): (r: Vec3)
    ensures dt == 0.0 ==> r == Zero3
    ensures r.y == next.velocity.y * dt
  {
    var planar := PlanarMove(num, next.rotation.y, ForwardAxis(input), SidewaysAxis(input), t.movementSpeed);
    Scale(Add(planar, next.velocity), dt)
  }

  /**
   * In a reachable state the horizontal velocity is zero, so the horizontal
   * part of the desired move is the planar input move times dt.
   */
  lemma DesiredHorizontalIsPlanar(next: Kinematics, t: Tunables, input: Input.Snapshot, dt: real, num: Numerics)
    requires Sane(next, t)
    ensures var p := PlanarMove(num, next.rotation.y, ForwardAxis(input), SidewaysAxis(input), t.movementSpeed);
            var r := DesiredTranslation(next, t, input, dt, num);
            r.x == p.x * dt && r.z == p.z * dt
  {
  }

  /**
   * With a direction key held, the horizontal part of the desired move has
   * length exactly `movementSpeed * dt`, under the hypotheses of
   * `PlanarMoveHasSpeed`.
   */
  lemma DesiredHorizontalSpeed(next: Kinematics, t: Tunables, input: Input.Snapshot, dt: real, num: Numerics)
    requires Sane(next, t)
    requires num.cos(next.rotation.y) * num.cos(next.rotation.y) + num.sin(next.rotation.y) * num.sin(next.rotation.y) == 1.0
    requires forall v :: v != Zero2 ==> num.normalizePlanar(v).x * num.normalizePlanar(v).x + num.normalizePlanar(v).y * num.normalizePlanar(v).y == 1.0
    requires ForwardAxis(input) != 0.0 || SidewaysAxis(input) != 0.0
    ensures var r := DesiredTranslation(next, t, input, dt, num);
            r.x * r.x + r.z * r.z == (t.movementSpeed * dt) * (t.movementSpeed * dt)
  {
    var p := PlanarMove(num, next.rotation.y, ForwardAxis(input), SidewaysAxis(input), t.movementSpeed);
    PlanarMoveHasSpeed(num, next.rotation.y, ForwardAxis(input), SidewaysAxis(input), t.movementSpeed);
    DesiredHorizontalIsPlanar(next, t, input, dt, num);
    assert (p.x * dt) * (p.x * dt) + (p.z * dt) * (p.z * dt) == (p.x * p.x + p.z * p.z) * (dt * dt);
    assert (t.movementSpeed * dt) * (t.movementSpeed * dt) == (t.movementSpeed * t.movementSpeed) * (dt * dt);
  }

  /**
   * The request the tick hands to the sweep: from the current position with
   * the player's mass, auto-step and snap chosen by the grounded flag from
   * the start of the tick, and no displacement on a zero-length tick.
   */
  function Request(start: Vec3, previous: Kinematics, next: Kinematics, t: Tunables,
                   input: Input.Snapshot, dt: real, num: Numerics): (r: MoveRequest)
    ensures r.start == start && r.mass == t.mass
    ensures r.options == SweepOptions(previous.grounded)
    ensures r.desired == DesiredTranslation(next, t, input, dt, num)
    ensures dt == 0.0 ==> r.desired == Zero3
  {
    MoveRequest(DesiredTranslation(next, t, input, dt, num), start, t.mass, SweepOptions(previous.grounded))
  }

  // ---------------------------------------------------------------- invariants across ticks

  /**
   * The states reachable from the default one: no horizontal acceleration or
   * velocity (their x and z are never written), no upward acceleration, the
   * vertical speed within the terminal velocity, never grounded while
   * rising, gravity armed whenever airborne and falling, and the look angles
   * in range.
   */
  predicate Sane(k: Kinematics, t: Tunables) {
    k.acceleration.x == 0.0 && k.acceleration.z == 0.0
    && k.velocity.x == 0.0 && k.velocity.z == 0.0
    && k.acceleration.y <= 0.0
    && -t.terminalVelocity <= k.velocity.y <= t.terminalVelocity
    && (k.grounded ==> k.velocity.y <= 0.0)
    && (!k.grounded && k.velocity.y < 0.0 ==> k.acceleration.y == -t.gravity)
    && MinPitch <= k.rotation.x <= MaxPitch && 0.0 <= k.rotation.y <= Tau
  }

  lemma DefaultIsSane()
    ensures TunablesValid(DefaultTunables) && Sane(DefaultKinematics, DefaultTunables)
  {
  }

  lemma TickKeepsSane(k: Kinematics, t: Tunables, input: Input.Snapshot, delta: Vec2, dt: real, overlap: bool)
    requires TunablesValid(t) && Sane(k, t) && dt >= 0.0
    ensures Sane(Tick(k, t, input, delta, dt, overlap), t)
  {
  }

  /** What the world supplies to one tick. */
  datatype TickInput = TickInput(input: Input.Snapshot, delta: Vec2, dt: real, overlap: bool)

  /** The kinematic state after a sequence of ticks. */
  function Run(k: Kinematics, t: Tunables, ticks: seq<TickInput>): (r: Kinematics)
    requires t.terminalVelocity >= 0.0
    ensures |ticks| == 0 ==> r == k
    ensures |ticks| == 1 ==> r == Tick(k, t, ticks[0].input, ticks[0].delta, ticks[0].dt, ticks[0].overlap)
    decreases |ticks|
  {
    if |ticks| == 0 then k
    else Run(Tick(k, t, ticks[0].input, ticks[0].delta, ticks[0].dt, ticks[0].overlap), t, ticks[1..])
  }

  /** Running two sequences of ticks one after the other is running their concatenation. */
  lemma {:induction false} RunConcat(k: Kinematics, t: Tunables, a: seq<TickInput>, b: seq<TickInput>)
    requires t.terminalVelocity >= 0.0
    ensures Run(k, t, a + b) == Run(Run(k, t, a), t, b)
    decreases |a|
  {
    if |a| == 0 {
      assert a + b == b;
    } else {
      assert (a + b)[0] == a[0];
      assert (a + b)[1..] == a[1..] + b;
      RunConcat(Tick(k, t, a[0].input, a[0].delta, a[0].dt, a[0].overlap), t, a[1..], b);
    }
  }

  lemma {:induction false} RunKeepsSane(k: Kinematics, t: Tunables, ticks: seq<TickInput>)
    requires TunablesValid(t) && Sane(k, t)
    requires forall i :: 0 <= i < |ticks| ==> ticks[i].dt >= 0.0
    ensures Sane(Run(k, t, ticks), t)
    decreases |ticks|
  {
    if |ticks| > 0 {
      TickKeepsSane(k, t, ticks[0].input, ticks[0].delta, ticks[0].dt, ticks[0].overlap);
      RunKeepsSane(Tick(k, t, ticks[0].input, ticks[0].delta, ticks[0].dt, ticks[0].overlap), t, ticks[1..]);
    }
  }

  /**
   * From the default controller, whatever the inputs: the horizontal velocity
   * stays zero, the vertical speed stays within the terminal velocity and the
   * look angles stay in range.
   */
  lemma FromDefaultStaysSane(ticks: seq<TickInput>)
    requires forall i :: 0 <= i < |ticks| ==> ticks[i].dt >= 0.0
    ensures var k := Run(DefaultKinematics, DefaultTunables, ticks);
            k.velocity.x == 0.0 && k.velocity.z == 0.0
            && -DefaultTunables.terminalVelocity <= k.velocity.y <= DefaultTunables.terminalVelocity
            && MinPitch <= k.rotation.x <= MaxPitch && 0.0 <= k.rotation.y <= Tau
  {
    DefaultIsSane();
    RunKeepsSane(DefaultKinematics, DefaultTunables, ticks);
  }

  /** While airborne the vertical velocity never increases. */
  lemma AirborneNeverRises(k: Kinematics, t: Tunables, input: Input.Snapshot, delta: Vec2, dt: real, overlap: bool)
    requires TunablesValid(t) && Sane(k, t) && dt >= 0.0 && !k.grounded
    ensures Tick(k, t, input, delta, dt, overlap).velocity.y <= k.velocity.y
  {
  }

  /**
   * The airborne gravity rule only re-arms gravity while the vertical
   * velocity is non-negative, yet in every reachable state an airborne tick
   * accelerates by exactly `-gravity`: the player never falls with gravity
   * switched off.
   */
  lemma AirborneAlwaysUnderGravity(k: Kinematics, t: Tunables, input: Input.Snapshot, delta: Vec2, dt: real, overlap: bool)
    requires TunablesValid(t) && Sane(k, t) && !k.grounded
    ensures Tick(k, t, input, delta, dt, overlap).acceleration.y == -t.gravity
  {
  }

  /** A grounded jump leaves with exactly the jump force and is airborne on the next tick. */
  lemma JumpLeavesGround(k: Kinematics, t: Tunables, input: Input.Snapshot, delta: Vec2, dt: real, overlap: bool)
    requires TunablesValid(t) && Sane(k, t) && dt >= 0.0
    requires k.grounded && input.jump && t.jumpForce <= t.terminalVelocity
    ensures Tick(k, t, input, delta, dt, overlap).velocity.y == t.jumpForce
    ensures !Tick(k, t, input, delta, dt, overlap).grounded
  {
  }

  /** Resting on the ground without jumping keeps the player grounded and at zero vertical speed. */
  lemma RestingStaysGrounded(k: Kinematics, t: Tunables, input: Input.Snapshot, delta: Vec2, dt: real)
    requires TunablesValid(t) && Sane(k, t) && dt >= 0.0
    requires k.grounded && !input.jump
    ensures Tick(k, t, input, delta, dt, true).velocity.y == 0.0
    ensures Tick(k, t, input, delta, dt, true).grounded
  {
  }

  /**
   * The first tick, with no input, of a default controller spawned already
   * touching the ground (the probe overlaps): the
   * default state is airborne, so gravity is armed and applied before the
   * probe grounds the player; the tick ends grounded but moving down at
   * `gravity * dt`. The next tick cancels that speed (`RestingStaysGrounded`).
   */
  lemma FirstTickFromSpawn(dt: real)
    requires 0.0 <= dt <= 1.0
    ensures var k := Tick(DefaultKinematics, DefaultTunables, Input.NoInput, Zero2, dt, true);
            k.grounded && k.acceleration.y == -9.8 && k.velocity.y == -9.8 * dt
  {
    var m := Vertical(false, false, Zero3, Zero3, DefaultTunables);
    assert m.acceleration == Vec3(0.0, -9.8, 0.0) && m.velocity == Zero3;
    var v := Integrate(m.acceleration, m.velocity, dt, 180.0);
    assert v.y == -9.8 * dt;
  }

  // ---------------------------------------------------------------- the system, phase by phase

  /** Writes the new pitch (clamped) and then the new yaw (wrapped); nothing else changes. */
  method ApplyLook(controller: PlayerController, delta: Vec2)
    modifies controller
    ensures controller.State() == old(controller.State()).(rotation := Look(old(controller.rotation), delta))
  {
    controller.rotation := controller.rotation.(x := Clamp(controller.rotation.x - delta.y, MinPitch, MaxPitch));
    controller.rotation := controller.rotation.(y := Wrap(controller.rotation.y - delta.x, 0.0, Tau));
  }

  /** The two input axes, counted up from zero flag by flag. */
  method ReadAxes(input: Input.PlayerInput) returns (forward: real, sideways: real)
    ensures forward == ForwardAxis(input.Value()) && sideways == SidewaysAxis(input.Value())
  {
    forward := 0.0;
    sideways := 0.0;
    if input.forward { forward := forward - 1.0; }
    if input.backward { forward := forward + 1.0; }
    if input.left { sideways := sideways - 1.0; }
    if input.right { sideways := sideways + 1.0; }
  }

  /** Builds the planar move from the direction flags and the current yaw. */
  method ComputePlanarMove(controller: PlayerController, input: Input.PlayerInput, num: Numerics)
    returns (normalizedMove: Vec3)
    ensures normalizedMove == PlanarMove(num, controller.rotation.y, ForwardAxis(input.Value()),
                                         SidewaysAxis(input.Value()), controller.movementSpeed)
  {
    normalizedMove := Zero3;

    var forward, sideways := ReadAxes(input);

    var xFac := num.cos(controller.rotation.y);
    var zFac := num.sin(controller.rotation.y);
    normalizedMove := normalizedMove.(x := zFac * forward + xFac * sideways);
    normalizedMove := normalizedMove.(z := xFac * forward + -zFac * sideways);

    ghost var rotated := RotateAxes(xFac, zFac, forward, sideways);
    assert Vec2(normalizedMove.x, normalizedMove.z) == rotated;
    var n := num.normalizePlanar(Vec2(normalizedMove.x, normalizedMove.z));
    normalizedMove := Vec3(n.x * controller.movementSpeed, 0.0, n.y * controller.movementSpeed);
    assert n == num.normalizePlanar(rotated);
  }

  /** The grounded/airborne branch on the vertical acceleration and velocity. */
  method UpdateVertical(controller: PlayerController, jump: bool)
    modifies controller
    ensures var m := Vertical(old(controller.grounded), jump, old(controller.acceleration),
                              old(controller.velocity), controller.Params());
            controller.State() == old(controller.State()).(acceleration := m.acceleration, velocity := m.velocity)
  {
    if controller.grounded {
      if controller.acceleration.y < 0.0 || controller.velocity.y < 0.0 {
        controller.acceleration := controller.acceleration.(y := 0.0);
        controller.velocity := controller.velocity.(y := 0.0);
      }
      if jump {
        controller.velocity := controller.velocity.(y := controller.velocity.y + controller.jumpForce);
      }
    } else {
      if controller.velocity.y >= 0.0 {
        controller.acceleration := controller.acceleration.(y := -controller.gravity);
      }
    }
  }

  /** `velocity += acceleration * dt`, then the terminal-velocity clamp. */
  method IntegrateVelocity(controller: PlayerController, dt: real)
    requires controller.terminalVelocity >= 0.0
    modifies controller
    ensures controller.State() == old(controller.State()).(
              velocity := Integrate(old(controller.acceleration), old(controller.velocity), dt, controller.terminalVelocity))
  {
    var velocityChange := Scale(controller.acceleration, dt);
    controller.velocity := Add(controller.velocity, velocityChange);
    controller.velocity := controller.velocity.(
      y := Clamp(controller.velocity.y, -controller.terminalVelocity, controller.terminalVelocity));
  }

  /** The grounded decision from the probe's answer and the integrated vertical velocity. */
  method UpdateGrounded(controller: PlayerController, overlap: bool)
    modifies controller
    ensures controller.State() == old(controller.State()).(grounded := GroundedAfter(overlap, old(controller.velocity.y)))
  {
    if overlap {
      if controller.velocity.y <= 0.0 {
        controller.grounded := true;
      } else {
        controller.grounded := false;
      }
    } else {
      controller.grounded := false;
    }
  }

  /**
   * `move_character`. Without a player nothing changes. Without a camera
   * pivot the system returns after writing the new rotation. Otherwise the
   * pivot gets the pitch, the controller takes one `Tick`, the sweep is asked
   * for `Request(...)`, the probe is placed below the translation from
   * before the move, and the body moves by the sweep's effective translation.
   */
  method MoveCharacter(controller: PlayerController?, body: Transform?, pivot: Transform?,
                       input: Input.PlayerInput, inputEnabled: Input.InputEnabled,
                       mouseEvents: seq<Vec2>, dt: real, physics: Physics, num: Numerics)
    requires (controller == null) == (body == null)
    requires body != null ==> body != pivot
    requires controller != null ==> controller.terminalVelocity >= 0.0
    modifies controller, body, pivot
    ensures controller == null && pivot != null ==> unchanged(pivot)
    ensures controller != null && pivot == null ==>
              controller.State() == old(controller.State()).(rotation := Look(old(controller.rotation), MouseDelta(old(inputEnabled.enabled), mouseEvents)))
              && unchanged(body)
    ensures controller != null && pivot != null ==>
              var before := old(controller.State());
              var after := Tick(before, controller.Params(), old(input.Value()),
                                MouseDelta(old(inputEnabled.enabled), mouseEvents), dt,
                                physics.intersects(ProbeAt(old(body.translation))));
              controller.State() == after
              && pivot.rotation == Euler(after.rotation.x, 0.0, 0.0)
              && pivot.translation == old(pivot.translation)
              && body.translation == Add(old(body.translation), physics.moveShape(
                   Request(old(body.translation), before, after, controller.Params(), old(input.Value()), dt, num)))
              && body.rotation == old(body.rotation)
  {
    if controller == null { return; }
    ghost var before := controller.State();
    ghost var start := body.translation;
    ghost var snapshot := input.Value();

    var mouseDelta := ReadMouseDelta(inputEnabled.enabled, mouseEvents);
    ApplyLook(controller, mouseDelta);

    if pivot == null { return; }
    pivot.rotation := Euler(controller.rotation.x, 0.0, 0.0);

    var normalizedMove := ComputePlanarMove(controller, input, num);

    UpdateVertical(controller, input.jump);
    ghost var m := Vertical(before.grounded, input.jump, before.acceleration, before.velocity, controller.Params());
    assert controller.acceleration == m.acceleration;
    IntegrateVelocity(controller, dt);
    ghost var velocity := Integrate(m.acceleration, m.velocity, dt, controller.terminalVelocity);
    assert controller.velocity == velocity;

    normalizedMove := Add(normalizedMove, controller.velocity);
    normalizedMove := Scale(normalizedMove, dt);

    var options := if controller.grounded
      then MoveOptions(Some(Autostep(StepMaxHeight, StepMinWidth, true)), Some(SnapDistance), true)
      else MoveOptions(None, None, true);
    assert options == SweepOptions(before.grounded);
    var request := MoveRequest(normalizedMove, body.translation, controller.mass, options);
    var effective := physics.moveShape(request);

    var probe := ProbeQuery(Add(body.translation, Vec3(0.0, -ProbeOffset, 0.0)), ProbeHalfHeight, ProbeRadius);
    assert probe == ProbeAt(start);
    var overlap := physics.intersects(probe);
    UpdateGrounded(controller, overlap);

    ghost var after := Kinematics(m.acceleration, velocity, Look(before.rotation, mouseDelta), GroundedAfter(overlap, velocity.y));
    assert controller.State() == after;
    assert input.Value() == snapshot;
    assert after == Tick(before, controller.Params(), snapshot, mouseDelta, dt, overlap);
    assert request == Request(start, before, after, controller.Params(), snapshot, dt, num);

    body.translation := Add(body.translation, effective);
  }
}
