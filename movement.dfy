/** The discrete and arithmetic steps of `move_character`: mouse look, pitch
    clamp, speed tier, planar direction, vertical integration and the
    grounded rule. Library maths (yaw wrapping, cos/sin, normalisation) and
    the physics engine (shape casting, the ground probe) are parameters. */
module Movement {
  import opened Math
  import opened Structures

  /** `std::f32::consts::FRAC_PI_2`, the exact value of the f32 constant. */
  const FRAC_PI_2: real := 1.57079637050628662109375

  /** The margin kept away from a vertical look, 1/512. */
  const PITCH_MARGIN: real := 0.001953125

  const PITCH_LIMIT: real := FRAC_PI_2 - PITCH_MARGIN

  /** Radians of turn per unit of accumulated mouse motion. */
  const MOUSE_SENSITIVITY: real := 0.0032

  /** Calls into libraries whose definitions are not part of this model:
      nalgebra's `wrap(v, 0, 2π)`, `f32::cos`, `f32::sin` and
      `Vec3::normalize_or_zero`. */
  datatype Maths = Maths(
    wrapYaw: real -> real,
    cos: real -> real,
    sin: real -> real,
    normalizeOrZero: Vec3 -> Vec3)

  /** The physics engine's queries. `moveShape(desired, position, autostep)`
      is the effective translation Rapier's `move_shape` returns for the
      player's collider; `groundProbe(centre)` is whether
      `intersection_with_shape` finds a collider (other than the player's)
      overlapping the thin probe cylinder centred there. */
  datatype Physics = Physics(
    moveShape: (Vec3, Vec3, bool) -> Vec3,
    groundProbe: Vec3 -> bool)

  /** Mouse motion is ignored while input is disabled, and scaled by the
      sensitivity otherwise. */
  function MouseDelta(inputEnabled: bool, motion: Vec2): (d: Vec2)
    ensures !inputEnabled ==> d == ZERO2
    ensures inputEnabled ==> d == Scale2(motion, MOUSE_SENSITIVITY)
    ensures motion == ZERO2 ==> d == ZERO2
  {
    if inputEnabled then Scale2(motion, MOUSE_SENSITIVITY) else ZERO2
  }

  /** The pitch always ends inside the open quarter turn either way, and a
      pitch already within the limit is kept. */
  function ClampPitch(pitch: real): (r: real)
    ensures -PITCH_LIMIT <= r <= PITCH_LIMIT
    ensures -PITCH_LIMIT <= pitch <= PITCH_LIMIT ==> r == pitch
    ensures -FRAC_PI_2 < r < FRAC_PI_2
  {
    Clamp(pitch, -PITCH_LIMIT, PITCH_LIMIT)
  }

  /** A larger upward turn never gives a lower pitch. */
  lemma ClampPitchMonotone(p1: real, p2: real)
    requires p1 <= p2
    ensures ClampPitch(p1) <= ClampPitch(p2)
  {
  }

  /** The new (pitch, yaw) after applying a mouse delta: pitch down by
      `delta.y` and clamped, yaw down by `delta.x` and wrapped. */
  function Turn(rotation: Vec2, delta: Vec2, maths: Maths): (r: Vec2)
    ensures -PITCH_LIMIT <= r.x <= PITCH_LIMIT
    ensures r.x == ClampPitch(rotation.x - delta.y)
    ensures r.y == maths.wrapYaw(rotation.y - delta.x)
  {
    Vec2(ClampPitch(rotation.x - delta.y), maths.wrapYaw(rotation.y - delta.x))
  }

  /** Crouching wins over running, which wins over walking; the tiers are
      ordered so the result is never below crouch speed nor above run speed. */
  function SpeedTier(input: PlayersInput): (speed: real)
    ensures input.crouch ==> speed == CROUCH_SPEED
    ensures !input.crouch && input.run ==> speed == RUN_SPEED
    ensures !input.crouch && !input.run ==> speed == WALK_SPEED
    ensures CROUCH_SPEED <= speed <= RUN_SPEED
    ensures speed == RUN_SPEED <==> input.run && !input.crouch
  {
    if input.crouch then CROUCH_SPEED
    else if input.run then RUN_SPEED
    else WALK_SPEED
  }

  /** One movement axis from a pair of opposing keys: +1, -1, or 0 when
      both or neither are held. */
  function Axis(positive: bool, negative: bool): (a: real)
    ensures -1.0 <= a <= 1.0
    ensures a == 0.0 <==> positive == negative
    ensures positive && !negative ==> a == 1.0
    ensures !positive && negative ==> a == -1.0
  {
    (if positive then 1.0 else 0.0) - (if negative then 1.0 else 0.0)
  }

  /** The unnormalised planar direction (backward is +forward, right is
      +sideways) rotated by the yaw's cosine and sine. It never has a
      vertical part, and it is zero when no direction key nets out. At yaw
      0 sideways is +x and backward is +z; a quarter turn later backward is
      +x and sideways is -z. */
  function PlanarDirection(input: PlayersInput, cosYaw: real, sinYaw: real): (v: Vec3)
    ensures v.y == 0.0
    ensures input.backward == input.forward && input.right == input.left ==> v == ZERO3
    ensures cosYaw == 1.0 && sinYaw == 0.0 ==>
      v == Vec3(Axis(input.right, input.left), 0.0, Axis(input.backward, input.forward))
    ensures cosYaw == 0.0 && sinYaw == 1.0 ==>
      v == Vec3(Axis(input.backward, input.forward), 0.0, -Axis(input.right, input.left))
  {
    var forward := Axis(input.backward, input.forward);
    var sideways := Axis(input.right, input.left);
    Vec3(sinYaw * forward + cosYaw * sideways, 0.0, cosYaw * forward + (-sinYaw) * sideways)
  }

  /** The planar velocity: the normalised direction scaled by the speed
      tier. With no net direction key it is zero (given that normalisation
      keeps the zero vector); a unit direction moves at exactly the tier's
      speed, and the velocity's projection on the normalised direction is
      the tier times its squared length, so it points along it. */
  function PlanarVelocity(input: PlayersInput, yaw: real, maths: Maths): (v: Vec3)
    ensures input.backward == input.forward && input.right == input.left && maths.normalizeOrZero(ZERO3) == ZERO3 ==>
      v == ZERO3
    ensures var n := maths.normalizeOrZero(PlanarDirection(input, maths.cos(yaw), maths.sin(yaw)));
      n.x * n.x + n.y * n.y + n.z * n.z == 1.0 ==>
      v.x * v.x + v.y * v.y + v.z * v.z == SpeedTier(input) * SpeedTier(input)
    ensures var n := maths.normalizeOrZero(PlanarDirection(input, maths.cos(yaw), maths.sin(yaw)));
      v.x * n.x + v.y * n.y + v.z * n.z == SpeedTier(input) * (n.x * n.x + n.y * n.y + n.z * n.z)
  {
    var direction := PlanarDirection(input, maths.cos(yaw), maths.sin(yaw));
    Scale(maths.normalizeOrZero(direction), SpeedTier(input))
  }

  /** The vertical state update before integration.
      Grounded: a falling state (negative acceleration or velocity) is
      reset to zero, then a jump adds `jumpForce`. Airborne: gravity is set
      as the acceleration only while not falling; a falling body keeps its
      acceleration. Only the vertical parts of acceleration and velocity
      change. */
  function VerticalImpulse(c: PlayerControllerData, jump: bool): (r: PlayerControllerData)
    ensures r == c.(acceleration := c.acceleration.(y := r.acceleration.y),
                    velocity := c.velocity.(y := r.velocity.y))
    ensures c.grounded && (c.acceleration.y < 0.0 || c.velocity.y < 0.0) ==>
      r.acceleration.y == 0.0 && r.velocity.y == (if jump then c.jumpForce else 0.0)
    ensures c.grounded && !(c.acceleration.y < 0.0 || c.velocity.y < 0.0) ==>
      r.acceleration.y == c.acceleration.y && r.velocity.y == c.velocity.y + (if jump then c.jumpForce else 0.0)
    ensures !c.grounded ==> r.velocity == c.velocity
    ensures !c.grounded && c.velocity.y >= 0.0 ==> r.acceleration.y == -c.gravity
    ensures !c.grounded && c.velocity.y < 0.0 ==> r.acceleration == c.acceleration
  {
    if c.grounded then
      var landed := if c.acceleration.y < 0.0 || c.velocity.y < 0.0
                    then c.(acceleration := c.acceleration.(y := 0.0), velocity := c.velocity.(y := 0.0))
                    else c;
      if jump then landed.(velocity := landed.velocity.(y := landed.velocity.y + landed.jumpForce))
      else landed
    else if c.velocity.y >= 0.0 then
      c.(acceleration := c.acceleration.(y := -c.gravity))
    else
      c
  }

  /** `velocity += acceleration * dt`, then the vertical part is clamped to
      the terminal velocity band; only the velocity changes. */
  function Integrate(c: PlayerControllerData, dt: real): (r: PlayerControllerData)
    requires c.terminalVelocity >= 0.0
    ensures r == c.(velocity := r.velocity)
    ensures -c.terminalVelocity <= r.velocity.y <= c.terminalVelocity
    ensures r.velocity.x == c.velocity.x + c.acceleration.x * dt
    ensures r.velocity.z == c.velocity.z + c.acceleration.z * dt
    ensures var vy := c.velocity.y + c.acceleration.y * dt;
            -c.terminalVelocity <= vy <= c.terminalVelocity ==> r.velocity.y == vy
    ensures var vy := c.velocity.y + c.acceleration.y * dt;
            vy < -c.terminalVelocity ==> r.velocity.y == -c.terminalVelocity
    ensures var vy := c.velocity.y + c.acceleration.y * dt;
            vy > c.terminalVelocity ==> r.velocity.y == c.terminalVelocity
  {
    var v := Add(c.velocity, Scale(c.acceleration, dt));
    c.(velocity := v.(y := Clamp(v.y, -c.terminalVelocity, c.terminalVelocity)))
  }

  /** The whole vertical update of `move_character`: impulse, then integration. */
  function VerticalUpdate(c: PlayerControllerData, jump: bool, dt: real): (r: PlayerControllerData)
    requires c.terminalVelocity >= 0.0
    ensures -c.terminalVelocity <= r.velocity.y <= c.terminalVelocity
    ensures r == c.(acceleration := r.acceleration, velocity := r.velocity)
  {
    Integrate(VerticalImpulse(c, jump), dt)
  }

  /** The grounded rule: the probe must hit AND the body must not be rising,
      so the player is never grounded while moving up. */
  function GroundedAfterProbe(probeHit: bool, verticalVelocity: real): (grounded: bool)
    ensures grounded ==> verticalVelocity <= 0.0
    ensures grounded ==> probeHit
    ensures probeHit && verticalVelocity <= 0.0 ==> grounded
  {
    probeHit && verticalVelocity <= 0.0
  }

  /** The probe sits one player height below the given position. */
  function GroundProbeCentre(translation: Vec3): Vec3 {
    Add(translation, Vec3(0.0, -PLAYER_HEIGHT, 0.0))
  }

  /** The translation requested from the shape cast: planar plus full
      velocity, times the tick length. */
  function DesiredMove(planar: Vec3, velocity: Vec3, dt: real): Vec3 {
    Scale(Add(planar, velocity), dt)
  }

  /** Jumping from rest on the ground raises the vertical velocity by
      exactly the jump force, and resets nothing else. */
  lemma JumpFromRest(c: PlayerControllerData, dt: real)
    requires c.terminalVelocity >= 0.0
    requires c.grounded && c.velocity.y == 0.0 && c.acceleration.y == 0.0
    requires 0.0 <= c.jumpForce <= c.terminalVelocity
    ensures VerticalUpdate(c, true, dt).velocity.y == c.velocity.y + c.jumpForce
    ensures VerticalUpdate(c, true, dt).acceleration == c.acceleration
  {
  }

  /** Landing: a grounded, falling body that does not jump comes to rest
      vertically. */
  lemma LandingStops(c: PlayerControllerData, dt: real)
    requires c.terminalVelocity >= 0.0
    requires c.grounded && (c.acceleration.y < 0.0 || c.velocity.y < 0.0)
    ensures VerticalUpdate(c, false, dt).velocity.y == 0.0
    ensures VerticalUpdate(c, false, dt).acceleration.y == 0.0
  {
  }

  /** Airborne and falling under non-positive acceleration, the body never
      slows its fall within a non-negative tick. */
  lemma FallNeverSlows(c: PlayerControllerData, dt: real)
    requires c.terminalVelocity >= 0.0
    requires -c.terminalVelocity <= c.velocity.y
    requires !c.grounded && c.velocity.y < 0.0 && c.acceleration.y <= 0.0 && dt >= 0.0
    ensures VerticalUpdate(c, false, dt).velocity.y <= c.velocity.y
  {
  }

  /** Leaving the ground at rest: the first airborne tick switches gravity
      on, and the vertical velocity falls by exactly `gravity * dt` while
      the result stays inside the band. */
  lemma TakeOffSwitchesGravityOn(c: PlayerControllerData, dt: real)
    requires c.terminalVelocity >= 0.0
    requires !c.grounded && c.velocity.y >= 0.0
    requires -c.terminalVelocity <= c.velocity.y - c.gravity * dt <= c.terminalVelocity
    ensures VerticalUpdate(c, false, dt).acceleration.y == -c.gravity
    ensures VerticalUpdate(c, false, dt).velocity.y == c.velocity.y - c.gravity * dt
  {
  }
}
