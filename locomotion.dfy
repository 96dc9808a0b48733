/** Value-level specification of the player controller's locomotion and
    camera logic: the input snapshot, the animator parameters it drives,
    the forces it hands to the physics body, and the pure rules each step
    follows. The controller class in PlayerControl is proved against these
    definitions; the lemmas here state what the rules guarantee over one or
    many ticks. */
module Locomotion {
  import opened UnityMath

  datatype Option<T> = None | Some(value: T)

  /** What the input manager exposes on one tick (Move, Look, Run, Jump,
      camChanged), plus the crouch button the controller also reads. */
  datatype InputSnapshot = InputSnapshot(
    move: Vec2,
    look: Vec2,
    run: bool,
    jump: bool,
    crouch: bool,
    camChanged: bool)

  /** The animator parameters the controller writes: the floats
      x_velocity, y_velocity and z_Velocity, the booleans Grounded, Falling
      and Crouch, and the Jump trigger (true while set, false once reset). */
  datatype AnimatorParams = AnimatorParams(
    xVelocity: real,
    yVelocity: real,
    zVelocity: real,
    grounded: bool,
    falling: bool,
    crouch: bool,
    jumpTrigger: bool)

  /** Rigidbody.AddForce modes used by the controller. */
  datatype ForceMode = VelocityChange | Impulse

  /** One AddForce call. Movement pushes are recorded in the body's local
      axes (x sideways, y up, z forward), before the transform maps them to
      world axes; the jump's two forces are given in world axes. */
  datatype Force = Force(vector: Vec3, mode: ForceMode)

  /** One rendered frame of mouse look: the Look input and Time.smoothDeltaTime. */
  datatype LookFrame = LookFrame(look: Vec2, dt: real)

  const WalkSpeed: real := 2.0
  const RunSpeed: real := 6.0
  const CrouchSpeed: real := 1.5
  /** Added to the configured ground distance to give the ray's length. */
  const GroundProbeMargin: real := 0.1
  /** How far one POV toggle moves the third-person camera's priority. */
  const PovStep: int := 30

  // ---------------------------------------------------------------- speed

  /** Reference definition of the planar target speed: no movement input
      wins over everything, then crouching, then running, else walking. */
  function TargetSpeed(move: Vec2, run: bool, crouch: bool): (speed: real)
    ensures 0.0 <= speed <= RunSpeed
    ensures speed == 0.0 <==> IsZero(move)
    ensures !IsZero(move) && crouch ==> speed == CrouchSpeed
    ensures !IsZero(move) && !crouch ==> speed == (if run then RunSpeed else WalkSpeed)
  {
    if IsZero(move) then 0.0
    else if crouch then CrouchSpeed
    else if run then RunSpeed
    else WalkSpeed
  }

  /** The controller's own way of picking the target speed: start from run
      or walk, let crouch overwrite it, then let a zero move overwrite that. */
  method SelectTargetSpeed(input: InputSnapshot) returns (targetSpeed: real)
    ensures targetSpeed == TargetSpeed(input.move, input.run, input.crouch)
  {
    targetSpeed := if input.run then RunSpeed else WalkSpeed;
    if input.crouch {
      targetSpeed := CrouchSpeed;
    }
    if IsZero(input.move) {
      targetSpeed := 0.0;
    }
  }

  // ---------------------------------------------------------------- blend

  /** Grounded velocity blend: each axis takes one Lerp step from its
      current value toward move * targetSpeed, by the fraction t
      (animBlendSpeed * fixedDeltaTime, clamped to [0, 1] by Lerp). */
  function BlendVelocity(current: Vec2, move: Vec2, targetSpeed: real, t: real): (v: Vec2)
    ensures Between(v.x, current.x, move.x * targetSpeed)
    ensures Between(v.y, current.y, move.y * targetSpeed)
  {
    Vec2(Lerp(current.x, move.x * targetSpeed, t), Lerp(current.y, move.y * targetSpeed, t))
  }

  /** With no movement input, a grounded blend never makes either axis faster. */
  lemma ZeroMoveNeverSpeedsUp(current: Vec2, move: Vec2, run: bool, crouch: bool, t: real)
    requires IsZero(move)
    ensures Abs(BlendVelocity(current, move, TargetSpeed(move, run, crouch), t).x) <= Abs(current.x)
    ensures Abs(BlendVelocity(current, move, TargetSpeed(move, run, crouch), t).y) <= Abs(current.y)
  {
  }

  /** One axis after `n` grounded ticks with the same target and fraction. */
  function BlendTicks(v: real, target: real, t: real, n: nat): real
  {
    if n == 0 then v else Lerp(BlendTicks(v, target, t, n - 1), target, t)
  }

  /** A gap `g` scaled by `q` once per tick, `n` times: g * q^n. */
  function Shrunk(g: real, q: real, n: nat): real
  {
    if n == 0 then g else Shrunk(g, q, n - 1) * q
  }

  /** Repeated blending is geometric: after `n` ticks the gap to the target
      is the initial gap scaled `n` times by 1 - Clamp01(t). The per-tick
      factor is 1 - rate * dt, clamped to [0, 1]. */
  lemma {:induction false} BlendTicksGap(v: real, target: real, t: real, n: nat)
    ensures target - BlendTicks(v, target, t, n) == Shrunk(target - v, 1.0 - Clamp01(t), n)
  {
    if n > 0 {
      BlendTicksGap(v, target, t, n - 1);
      LerpGap(BlendTicks(v, target, t, n - 1), target, t);
    }
  }

  /** Repeated blending approaches the target without overshooting: every
      tick stays between the starting value and the target, and no tick
      moves away from the target. */
  lemma {:induction false} BlendTicksNeverOvershoot(v: real, target: real, t: real, n: nat)
    ensures Between(BlendTicks(v, target, t, n), v, target)
    ensures Abs(target - BlendTicks(v, target, t, n + 1)) <= Abs(target - BlendTicks(v, target, t, n))
  {
    if n > 0 {
      BlendTicksNeverOvershoot(v, target, t, n - 1);
    }
  }

  // --------------------------------------------------------------- forces

  /** Grounded branch: the velocity change that takes the body's planar
      velocity to the blended velocity; it never pushes vertically. */
  function GroundedVelocityChange(current: Vec2, body: Vec3): (dv: Vec3)
    ensures dv.y == 0.0
  {
    Vec3(current.x - body.x, 0.0, current.y - body.z)
  }

  /** Airborne branch: the last blended velocity scaled by the air
      resistance coefficient; it never pushes vertically. */
  function AirborneVelocityChange(current: Vec2, airResistance: real): (dv: Vec3)
    ensures dv.y == 0.0
  {
    Vec3(current.x * airResistance, 0.0, current.y * airResistance)
  }

  /** The blended velocity after one tick of movement: blended toward
      move * TargetSpeed when grounded, frozen when airborne. */
  function TickVelocity(current: Vec2, input: InputSnapshot, grounded: bool, t: real): (v: Vec2)
    ensures !grounded ==> v == current
    ensures IsZero(input.move) ==> Abs(v.x) <= Abs(current.x) && Abs(v.y) <= Abs(current.y)
  {
    if grounded then BlendVelocity(current, input.move, TargetSpeed(input.move, input.run, input.crouch), t)
    else current
  }

  /** The velocity change one tick of movement hands to the body. */
  function TickVelocityChange(blended: Vec2, body: Vec3, grounded: bool, airResistance: real): (dv: Vec3)
    ensures dv.y == 0.0
  {
    if grounded then GroundedVelocityChange(blended, body) else AirborneVelocityChange(blended, airResistance)
  }

  /** The effect of one AddForce on the body's velocity: a VelocityChange
      adds its vector, an Impulse adds its vector divided by the mass. */
  function ApplyForce(v: Vec3, mass: real, f: Force): (r: Vec3)
    requires mass > 0.0
    ensures f.mode == VelocityChange ==> r == v.Plus(f.vector)
    ensures f.mode == Impulse ==>
      (r.x - v.x) * mass == f.vector.x && (r.y - v.y) * mass == f.vector.y && (r.z - v.z) * mass == f.vector.z
    ensures f.vector.y == 0.0 ==> r.y == v.y
  {
    match f.mode
    case VelocityChange => v.Plus(f.vector)
    case Impulse => v.Plus(Vec3(f.vector.x / mass, f.vector.y / mass, f.vector.z / mass))
  }

  /** The effect of a sequence of AddForce calls, in order. Gravity, drag
      and contacts are the physics engine's and are not part of this sum. */
  function ApplyForces(v: Vec3, mass: real, fs: seq<Force>): (r: Vec3)
    requires mass > 0.0
    ensures (forall i :: 0 <= i < |fs| ==> fs[i].vector.y == 0.0) ==> r.y == v.y
    decreases fs
  {
    if fs == [] then v else ApplyForces(ApplyForce(v, mass, fs[0]), mass, fs[1..])
  }

  /** Forces logged over several calls act in order: applying a log that is
      the concatenation of two logs is applying the first, then the second. */
  lemma {:induction false} ApplyForcesAppend(v: Vec3, mass: real, a: seq<Force>, b: seq<Force>)
    requires mass > 0.0
    ensures ApplyForces(v, mass, a + b) == ApplyForces(ApplyForces(v, mass, a), mass, b)
    decreases a
  {
    if a != [] {
      assert (a + b)[0] == a[0] && (a + b)[1..] == a[1..] + b;
      ApplyForcesAppend(ApplyForce(v, mass, a[0]), mass, a[1..], b);
    } else {
      assert a + b == b;
    }
  }

  /** A grounded tick's velocity change sets the body's planar velocity to
      the blended velocity and leaves its vertical velocity alone. The
      controller reads the body's velocity in world axes and pushes in local
      axes, so this describes the body while its yaw is zero and its scale
      is one. */
  lemma GroundedChangeReachesBlend(current: Vec2, body: Vec3, mass: real)
    requires mass > 0.0
    ensures ApplyForces(body, mass, [Force(GroundedVelocityChange(current, body), VelocityChange)])
         == Vec3(current.x, body.y, current.y)
  {
  }

  function Repeat(f: Force, n: nat): (fs: seq<Force>)
    ensures |fs| == n
  {
    if n == 0 then [] else [f] + Repeat(f, n - 1)
  }

  /** The airborne branch does not steer toward anything: with the blended
      velocity frozen, every airborne tick adds the same velocity change,
      so after `n` ticks the body's planar velocity has grown by
      n * airResistance * currentVelocity. */
  lemma {:induction false} AirborneDrift(body: Vec3, mass: real, current: Vec2, airResistance: real, n: nat)
    requires mass > 0.0
    decreases n
    ensures ApplyForces(body, mass, Repeat(Force(AirborneVelocityChange(current, airResistance), VelocityChange), n))
         == Vec3(body.x + n as real * airResistance * current.x,
                 body.y,
                 body.z + n as real * airResistance * current.y)
  {
    if n > 0 {
      var f := Force(AirborneVelocityChange(current, airResistance), VelocityChange);
      var next := ApplyForce(body, mass, f);
      assert Repeat(f, n)[0] == f && Repeat(f, n)[1..] == Repeat(f, n - 1);
      AirborneDrift(next, mass, current, airResistance, n - 1);
      assert (n - 1) as real * airResistance * current.x + airResistance * current.x
          == n as real * airResistance * current.x;
      assert (n - 1) as real * airResistance * current.y + airResistance * current.y
          == n as real * airResistance * current.y;
    }
  }

  // ----------------------------------------------------------------- jump

  /** The two AddForce calls of a jump: a VelocityChange cancelling the
      body's vertical velocity, then an upward Impulse of jumpFactor. */
  function JumpForces(body: Vec3, jumpFactor: real): (fs: seq<Force>)
    ensures |fs| == 2
    ensures fs[0].mode == VelocityChange && body.Plus(fs[0].vector) == Vec3(body.x, 0.0, body.z)
    ensures fs[1].mode == Impulse && fs[1].vector.x == 0.0 && fs[1].vector.z == 0.0
    ensures fs[1].vector.y == jumpFactor
  {
    [Force(Vec3(0.0, -body.y, 0.0), VelocityChange), Force(Vec3(0.0, jumpFactor, 0.0), Impulse)]
  }

  /** A jump launches at exactly jumpFactor / mass whatever the body was
      doing vertically before, and keeps its planar velocity. */
  lemma JumpLaunchVelocity(body: Vec3, mass: real, jumpFactor: real)
    requires mass > 0.0
    ensures ApplyForces(body, mass, JumpForces(body, jumpFactor)) == Vec3(body.x, jumpFactor / mass, body.z)
  {
    var fs := JumpForces(body, jumpFactor);
    var afterCancel := ApplyForce(body, mass, fs[0]);
    assert afterCancel == Vec3(body.x, 0.0, body.z);
    assert fs[1..] == [Force(Vec3(0.0, jumpFactor, 0.0), Impulse)];
    assert ApplyForces(afterCancel, mass, fs[1..]) == ApplyForce(afterCancel, mass, fs[1]);
  }

  // ---------------------------------------------------------------- ground

  /** Physics.Raycast downward from the centre of mass with length
      disToGround + 0.1: `groundBelow` is the distance to the first collider
      of the ground layer straight below, if there is one. */
  function RayHits(groundBelow: Option<real>, disToGround: real): (hit: bool)
    ensures groundBelow == None ==> !hit
    ensures groundBelow.Some? && groundBelow.value <= disToGround + GroundProbeMargin ==> hit
    ensures hit ==> groundBelow.Some? && groundBelow.value - disToGround <= GroundProbeMargin
  {
    groundBelow.Some? && groundBelow.value <= disToGround + GroundProbeMargin
  }

  // --------------------------------------------------------------- camera

  /** One frame of pitch: subtract lookY * sensitivity * dt, then clamp to
      [upperLimit, bottomLimit]. */
  function PitchStep(pitch: real, lookY: real, sensitivity: real, dt: real, upperLimit: real, bottomLimit: real): (r: real)
    ensures upperLimit <= bottomLimit ==> upperLimit <= r <= bottomLimit
  {
    Clamp(pitch - lookY * sensitivity * dt, upperLimit, bottomLimit)
  }

  /** One frame of yaw: the body turns by lookX * sensitivity * dt. */
  function YawStep(yaw: real, lookX: real, sensitivity: real, dt: real): real
  {
    yaw + lookX * sensitivity * dt
  }

  function PitchAfterFrames(pitch: real, frames: seq<LookFrame>, sensitivity: real, upperLimit: real, bottomLimit: real): real
    decreases frames
  {
    if frames == [] then pitch
    else PitchAfterFrames(PitchStep(pitch, frames[0].look.y, sensitivity, frames[0].dt, upperLimit, bottomLimit),
                          frames[1..], sensitivity, upperLimit, bottomLimit)
  }

  function YawAfterFrames(yaw: real, frames: seq<LookFrame>, sensitivity: real): real
    decreases frames
  {
    if frames == [] then yaw
    else YawAfterFrames(YawStep(yaw, frames[0].look.x, sensitivity, frames[0].dt), frames[1..], sensitivity)
  }

  /** The pitch is within its limits after any non-empty run of frames,
      whatever it started at, and stays there if it started there. */
  lemma {:induction false} PitchStaysInLimits(pitch: real, frames: seq<LookFrame>, sensitivity: real, upperLimit: real, bottomLimit: real)
    requires upperLimit <= bottomLimit
    requires frames != [] || upperLimit <= pitch <= bottomLimit
    decreases frames
    ensures upperLimit <= PitchAfterFrames(pitch, frames, sensitivity, upperLimit, bottomLimit) <= bottomLimit
  {
    if frames != [] {
      PitchStaysInLimits(PitchStep(pitch, frames[0].look.y, sensitivity, frames[0].dt, upperLimit, bottomLimit),
                         frames[1..], sensitivity, upperLimit, bottomLimit);
    }
  }

  /** Yaw sums the horizontal look deltas exactly, without any clamp. */
  function SumYawDeltas(frames: seq<LookFrame>, sensitivity: real): real
  {
    if frames == [] then 0.0
    else frames[0].look.x * sensitivity * frames[0].dt + SumYawDeltas(frames[1..], sensitivity)
  }

  lemma {:induction false} YawIsSumOfDeltas(yaw: real, frames: seq<LookFrame>, sensitivity: real)
    ensures YawAfterFrames(yaw, frames, sensitivity) == yaw + SumYawDeltas(frames, sensitivity)
    decreases frames
  {
    if frames != [] {
      YawIsSumOfDeltas(YawStep(yaw, frames[0].look.x, sensitivity, frames[0].dt), frames[1..], sensitivity);
    }
  }

  /** Pitch input never reaches the yaw: two runs of frames that agree on
      the horizontal look and the frame times turn the body equally, and
      two that agree on the vertical look and frame times pitch equally. */
  lemma {:induction false} LookAxesIndependent(yaw: real, pitch: real, a: seq<LookFrame>, b: seq<LookFrame>,
                                               sensitivity: real, upperLimit: real, bottomLimit: real)
    requires |a| == |b|
    requires forall i :: 0 <= i < |a| ==> a[i].dt == b[i].dt
    decreases a
    ensures (forall i :: 0 <= i < |a| ==> a[i].look.x == b[i].look.x) ==>
              YawAfterFrames(yaw, a, sensitivity) == YawAfterFrames(yaw, b, sensitivity)
    ensures (forall i :: 0 <= i < |a| ==> a[i].look.y == b[i].look.y) ==>
              PitchAfterFrames(pitch, a, sensitivity, upperLimit, bottomLimit)
              == PitchAfterFrames(pitch, b, sensitivity, upperLimit, bottomLimit)
  {
    if a != [] {
      LookAxesIndependent(YawStep(yaw, a[0].look.x, sensitivity, a[0].dt),
                          PitchStep(pitch, a[0].look.y, sensitivity, a[0].dt, upperLimit, bottomLimit),
                          a[1..], b[1..], sensitivity, upperLimit, bottomLimit);
    }
  }

  // ------------------------------------------------------------------ POV

  /** One POV toggle: only the third-person priority moves, up by PovStep
      while the first-person camera is strictly higher, down otherwise. */
  function PovToggle(first: int, third: int): (newThird: int)
    ensures newThird - third == PovStep || third - newThird == PovStep
    ensures newThird > third <==> first > third
  {
    if first > third then third + PovStep else third - PovStep
  }

  /** The band of priority differences first - third within which toggling
      alternates: (-PovStep, PovStep]. */
  predicate PovInRange(first: int, third: int)
  {
    -PovStep < first - third <= PovStep
  }

  function PovToggles(first: int, third: int, n: nat): int
  {
    if n == 0 then third else PovToggle(first, PovToggles(first, third, n - 1))
  }

  /** Inside the band one toggle keeps the difference in the band, swaps
      which camera wins the comparison first > third, and a second toggle
      restores the original priority exactly. */
  lemma PovToggleFlips(first: int, third: int)
    requires PovInRange(first, third)
    ensures PovInRange(first, PovToggle(first, third))
    ensures (first > PovToggle(first, third)) == !(first > third)
    ensures PovToggle(first, PovToggle(first, third)) == third
  {
  }

  /** Inside the band toggles strictly alternate: after an even number the
      third-person priority is back where it started, after an odd number it
      is where one toggle puts it. */
  lemma {:induction false} PovTogglesAlternate(first: int, third: int, n: nat)
    requires PovInRange(first, third)
    ensures PovToggles(first, third, n) == if n % 2 == 0 then third else PovToggle(first, third)
  {
    if n > 0 {
      PovTogglesAlternate(first, third, n - 1);
      PovToggleFlips(first, third);
    }
  }

  /** Inside the band, away from its two tie points (difference 0 or
      PovStep), toggling never makes the two priorities equal. */
  lemma PovNeverTies(first: int, third: int, n: nat)
    requires PovInRange(first, third) && first - third != 0 && first - third != PovStep
    ensures PovToggles(first, third, n) != first
  {
    PovTogglesAlternate(first, third, n);
  }

  /** Outside the band toggles do not alternate: while the difference stays
      beyond PovStep * n, each of `n` toggles moves the third-person priority
      the same way, and the camera that was ahead stays ahead, except that
      the downward case ends in a tie when the difference is exactly
      -PovStep * n. */
  lemma {:induction false} PovTogglesDrift(first: int, third: int, n: nat)
    ensures first - third > PovStep * n ==> PovToggles(first, third, n) == third + PovStep * n
    ensures first - third <= -PovStep * n ==> PovToggles(first, third, n) == third - PovStep * n
  {
    if n > 0 {
      PovTogglesDrift(first, third, n - 1);
    }
  }
}
