/** The player's tuning constants and plain records with their default values. */
module Structures {
  import opened Math

  // player size
  const PLAYER_HEIGHT: real := 1.5
  const PLAYER_RADIUS: real := 1.0

  // player stamina
  const MIN_STAMINA_TO_UNBLOCK_RUN: real := 52.0
  const STAMINA_RECOVERY_SPEED: real := 0.3
  const STAMINA_DECRASE_RATE: real := 0.7
  const MAX_STAMINA: real := 250.0 * 10000.0

  // player speed
  const CROUCH_SPEED: real := 0.7
  const WALK_SPEED: real := 2.0
  const RUN_SPEED: real := 4.72

  // player fear: declared, but no system of this revision reads them
  const FEAR_RECOVERY_SPEED: real := 0.05
  const FEAR_DECRASE_RATE: real := 0.12

  // camera offsets: declared, but no system of this revision reads them
  const CAMERA_WALK_TRANSLATION: Vec3 := Vec3(0.0, 1.5, 0.0)
  const CAMERA_CROUCH_TRANSLATION: Vec3 := ZERO3

  /** The single player's meters. */
  datatype PlayerComponent = PlayerComponent(fear: real, stamina: real, stopRun: bool)

  /** The input snapshot: four directions and three actions. */
  datatype PlayersInput = PlayersInput(
    backward: bool, forward: bool, right: bool, left: bool,
    jump: bool, run: bool, crouch: bool)

  /** The kinematic controller's state; `rotation.x` is pitch, `rotation.y` yaw. */
  datatype PlayerControllerData = PlayerControllerData(
    jumpForce: real,
    crouched: bool,
    acceleration: Vec3,
    velocity: Vec3,
    rotation: Vec2,
    mass: real,
    gravity: real,
    terminalVelocity: real,
    grounded: bool)

  /** A fresh player is fearless, fully rested and allowed to run. */
  function DefaultPlayerComponent(): (p: PlayerComponent)
    ensures p.fear == 0.0 && p.stamina == MAX_STAMINA && !p.stopRun
  {
    PlayerComponent(0.0, MAX_STAMINA, false)
  }

  /** No key is recorded as held before the first sample. */
  function DefaultPlayersInput(): (i: PlayersInput)
    ensures !i.backward && !i.forward && !i.right && !i.left
    ensures !i.jump && !i.run && !i.crouch
  {
    PlayersInput(false, false, false, false, false, false, false)
  }

  /** A fresh controller is at rest, airborne, standing, unrotated, with the
      tuning 7 / 9.8 / 180 / 100; its velocity band is therefore non-empty
      and the jump impulse fits inside it. */
  function DefaultPlayerControllerData(): (c: PlayerControllerData)
    ensures !c.grounded && !c.crouched
    ensures c.velocity == ZERO3 && c.acceleration == ZERO3 && c.rotation == ZERO2
    ensures c.jumpForce == 7.0 && c.gravity == 9.8 && c.terminalVelocity == 180.0 && c.mass == 100.0
    ensures 0.0 < c.jumpForce <= c.terminalVelocity && 0.0 < c.gravity
  {
    PlayerControllerData(
      jumpForce := 7.0,
      crouched := false,
      acceleration := ZERO3,
      velocity := ZERO3,
      rotation := ZERO2,
      mass := 100.0,
      gravity := 9.8,
      terminalVelocity := 180.0,
      grounded := false)
  }

  /** The stamina thresholds form a hysteresis band above the zero crossing,
      both rates are positive, and the speed tiers are strictly ordered. */
  lemma TuningConstantsOrdered()
    ensures 0.0 < MIN_STAMINA_TO_UNBLOCK_RUN < MAX_STAMINA
    ensures 0.0 < STAMINA_DECRASE_RATE && 0.0 < STAMINA_RECOVERY_SPEED
    ensures 0.0 < CROUCH_SPEED < WALK_SPEED < RUN_SPEED
  {
  }
}
