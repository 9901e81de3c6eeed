# Player systems of a first-person horror prototype, in Dafny

This project models the per-tick gameplay logic of the player in a Bevy game
prototype (`src/player/systems.rs`), the constants and records it relies on
(`src/player/structures.rs`), and the fear-trigger membership test
(`src/components.rs`).

- **Input** (`update_input`): held keys become a `PlayersInput` snapshot of
  seven flags. Running needs a Shift key and no `stop_run`. Jumping needs
  Space and no crouch. With input disabled, or without exactly one player,
  the old snapshot is kept as it was.
- **Stamina** (`update_stamina`): a hysteresis automaton over
  `(stamina, stop_run)` for a grounded player. Running drains 0.7 while
  stamina is positive and running is allowed, and blocks running once
  stamina is strictly negative. Resting recovers 0.3 below the maximum and
  unblocks running only above 52.
- **Fear** (`update_fear`): each trigger sphere containing the player adds
  0.1 per tick. Nothing lowers fear.
- **Sphere membership** (`SphereOfTear::point_in_sphere`): the squared
  distance is compared, inclusively, with the stored value itself.
- **Movement** (`move_character`): mouse look with a pitch clamp, the speed
  tier, the vertical state update (landing reset, jump, gravity only while
  not falling, integration, terminal-velocity clamp), the shape-cast move and
  the grounded rule.

Layout: `math.dfy` (vectors and `f32::clamp`), `components.dfy`,
`structures.dfy`, `input.dfy`, `stamina.dfy`, `fear.dfy` and `movement.dfy`
hold the specification functions and their lemmas. `systems.dfy` holds the
class `World`, whose methods are the systems. They update the world's fields
in place, as the source does, and are proved against those functions. Its
`Valid()` invariant holds after every system. It says:

- stamina stays in its band;
- running is never blocked above the unblock threshold;
- fear is not negative;
- the pitch stays inside its limit;
- the vertical velocity stays inside the terminal band;
- the player is never grounded while rising.

`f32` is modelled as `real`. The library maths and the physics engine are
parameters (`Movement.Maths`, `Movement.Physics`).

Some behaviour of the code worth knowing:

- disabled input keeps the old snapshot; it does not yield an all-false one;
- stamina is not clamped: it can dip below zero, to just above -0.7;
- stamina exactly 0 with running allowed is a dead point: draining needs
  stamina above 0 and blocking needs it below 0, so a running tick there
  changes nothing and the player keeps running;
- fear has no recovery;
- this revision has no crouch guard, no crouch-exit correction and no
  camera-pivot offset;
- `crouched` is never written.

## Model

| member | source | states |
|---|---|---|
| Math.Clamp | src/player/systems.rs:278-280 | `f32::clamp` (needs lo <= hi): the result lies in [lo, hi] and is the input itself when the input already lies there |
| Math.ClampIsNearest | src/player/systems.rs:278-280 | no point of the band is closer to the input than the clamped value |
| Math.ClampMonotone | src/player/systems.rs:213-215 | clamping preserves order |
| Math.ClampIdempotent | src/player/systems.rs:278-280 | clamping an already clamped value changes nothing |
| Components.Square | src/components.rs:15-17 | `powf(2.0)` of a difference is never negative |
| Components.SquaredDistance | src/components.rs:14-17 | the summed squares are never negative and are zero from a point to itself |
| Components.PointInSphere | src/components.rs:13-20 | a point can be inside only if the stored value is not negative; the centre is inside exactly when the stored value is not negative |
| Components.BoundaryIsInside | src/components.rs:19 | the comparison is inclusive: squared distance equal to the stored value counts as inside |
| Components.PointInSphereSymmetric | src/components.rs:14-17 | swapping sphere position and point gives the same answer |
| Components.PointInSphereMonotone | src/components.rs:19 | inside for a stored value implies inside for any larger stored value |
| Components.AxisPointInside | src/components.rs:14-19 | a point at distance d along an axis is inside exactly when d*d <= stored value, so the stored value acts as a squared radius |
| Components.OffsetPointInside | src/components.rs:14-19 | a point offset by (dx, dy, dz) is inside exactly when dx*dx + dy*dy + dz*dz <= stored value, so all three coordinates enter the test |
| Components.StoredValueIsSquaredRadius | src/components.rs:14-19 | a sphere storing 4.0 at the origin contains (1,1,1) (squared distance 3) and not (3,0,0) (distance 3 < 4, squared 9) |
| Structures.DefaultPlayerComponent | src/player/structures.rs:31-43 | default fear 0, stamina `MAX_STAMINA`, `stop_run` false |
| Structures.DefaultPlayersInput | src/player/structures.rs:51-63 | all seven input flags default to false |
| Structures.DefaultPlayerControllerData | src/player/structures.rs:65-95 | default controller: airborne, standing, zero velocity, acceleration and rotation, jump 7, gravity 9.8, terminal velocity 180, mass 100; so 0 < jump force <= terminal velocity |
| Structures.TuningConstantsOrdered | src/player/structures.rs:11-19 | 0 < unblock threshold < maximum stamina, both stamina rates positive, crouch < walk < run speed |
| Input.SampleInput | src/player/systems.rs:64-78 | each direction follows its key; crouch is either Control key; run iff a Shift key is held and `stop_run` is false; jump iff Space is held and no crouch, so crouching always suppresses the jump |
| Stamina.StaminaTick | src/player/systems.rs:134-154 | running drains exactly 0.7 iff stamina > 0 and not blocked, else leaves stamina; resting below the maximum recovers exactly 0.3, at or above it changes nothing; `stop_run` is set iff running leaves stamina strictly negative, and cleared iff resting below the maximum lifts stamina above 52; fear untouched |
| Stamina.RunningAtZeroNeitherDrainsNorBlocks | src/player/systems.rs:134-145 | at stamina exactly 0 with running allowed, a running tick neither drains (needs > 0) nor blocks (needs < 0): the state is unchanged |
| Stamina.DefaultInBounds | src/player/structures.rs:34-43 | the default player lies in the stamina band |
| Stamina.TickPreservesBounds | src/player/systems.rs:134-154 | one tick keeps stamina in (-0.7, MAX + 0.3) and keeps blocked stamina at most 52 |
| Stamina.TicksPreserveBounds | src/player/systems.rs:134-154 | any sequence of grounded ticks keeps the band |
| Stamina.StaminaBoundedFromDefault | src/player/systems.rs:137-147 | from the default, stamina stays strictly between -0.7 and MAX + 0.3 whatever the player does; there is no clamp to MAX |
| Stamina.RecoveryIsGradual | src/player/systems.rs:146-147 | over n ticks stamina rises by at most 0.3 * n |
| Stamina.BlockedUntilRecovered | src/player/systems.rs:143-153 | hysteresis over a trace: a blocked player is unblocked only after some prefix has raised stamina above 52 |
| Stamina.RecoveryTakesTime | src/player/systems.rs:143-153 | once blocked below zero, at least 174 ticks pass before running is unblocked |
| Fear.InsideCountAtMostLength | src/player/systems.rs:164-170 | at most one increment per queried entity |
| Fear.InsideCountAppend | src/player/systems.rs:164-170 | the number of containing spheres adds up over concatenated queries |
| Fear.InsideCountOrderFree | src/player/systems.rs:164-170 | moving a block of entries to the front does not change the count |
| Fear.InsideCountRemove | src/player/systems.rs:164-170 | taking one entry out of the query lowers the count by exactly that entry's contribution |
| Fear.InsideCountPermutation | src/player/systems.rs:164-170 | any reordering of the query (same multiset of entries) gives the same count, so the unspecified iteration order does not matter |
| Fear.InsideCountExtremes | src/player/systems.rs:164-170 | the count is the full length when every entry contains the player and zero when none does |
| Fear.FearAfter | src/player/systems.rs:164-170 | fear after a tick is never lower than before and at most 0.1 per entity higher |
| Fear.FearScenario | src/player/systems.rs:166-167 | a sphere storing 4.0 at the origin raises the fear of a player at squared distance 3 by exactly 0.1 |
| Movement.MouseDelta | src/player/systems.rs:204-209 | mouse motion is ignored while input is disabled and scaled by the sensitivity 0.0032 while it is enabled; no motion means no turn |
| Movement.ClampPitch | src/player/systems.rs:213-215 | pitch ends in [-(π/2 - 1/512), π/2 - 1/512], strictly inside the quarter turn, and an in-range pitch is kept |
| Movement.ClampPitchMonotone | src/player/systems.rs:213-215 | the pitch clamp is monotone in its input |
| Movement.Turn | src/player/systems.rs:211-215 | the new pitch is the pitch clamp of pitch minus the vertical delta, hence within the limit; the new yaw is the library wrap of yaw minus the horizontal delta |
| Movement.SpeedTier | src/player/systems.rs:226-233 | crouch over run over walk; the speed lies between crouch and run speed and is run speed iff running and not crouching |
| Movement.Axis | src/player/systems.rs:236-242 | an axis value lies in [-1, 1], is zero iff both or neither opposing key is held, +1 when only the positive key is held and -1 when only the negative one is |
| Movement.PlanarDirection | src/player/systems.rs:236-249 | the direction has no vertical part and is zero when opposing keys cancel or none is held; at yaw 0 D/A drive +x/-x and S/W drive +z/-z; a quarter turn later S/W drive +x/-x and D/A drive -z/+z |
| Movement.PlanarVelocity | src/player/systems.rs:226-252 | with no net direction key the velocity is zero (normalisation keeping zero); the velocity points along the normalised key direction (its projection on it is the speed tier times its squared length), and a unit direction gives a velocity whose length is exactly the speed tier |
| Movement.VerticalImpulse | src/player/systems.rs:255-269 | only the vertical acceleration and velocity change; grounded and falling: both zeroed, then jump force added if jumping; grounded otherwise: jump force added; airborne: velocity untouched, acceleration set to -gravity only while velocity.y >= 0 |
| Movement.Integrate | src/player/systems.rs:271-280 | only velocity changes; horizontal parts gain acceleration * dt; the vertical part ends in [-terminal, terminal], is exact when inside it and saturates at -terminal below and at +terminal above |
| Movement.VerticalUpdate | src/player/systems.rs:255-280 | after the vertical update velocity.y lies in [-terminal, terminal], and only acceleration and velocity change |
| Movement.GroundedAfterProbe | src/player/systems.rs:318-332 | grounded iff the probe hits and velocity.y <= 0: never grounded while rising |
| Movement.JumpFromRest | src/player/systems.rs:255-280 | from rest on the ground a jump raises velocity.y by exactly the jump force |
| Movement.LandingStops | src/player/systems.rs:255-280 | a grounded, falling body that does not jump ends with zero vertical velocity and acceleration |
| Movement.FallNeverSlows | src/player/systems.rs:264-280 | airborne and falling, a tick never slows the fall (the acceleration is not re-applied but also not lost) |
| Movement.TakeOffSwitchesGravityOn | src/player/systems.rs:264-280 | the first airborne tick with velocity.y >= 0 sets acceleration to -gravity and lowers velocity.y by exactly gravity * dt |
| PlayerSystems.World.constructor | src/player/systems.rs:27-45 | a world with one player holding the default components, its pivot and one physics context; satisfies `Valid()` |
| PlayerSystems.World.UpdateInput | src/player/systems.rs:49-79 | disabled input or no single player leaves the snapshot unchanged; otherwise the snapshot is `SampleInput` of the held keys and the current `stop_run` |
| PlayerSystems.World.UpdateStamina | src/player/systems.rs:115-155 | disabled input, no single player or airborne: nothing changes; otherwise one `StaminaTick` on `input.run`; keeps `Valid()` |
| PlayerSystems.World.UpdateFear | src/player/systems.rs:158-171 | the loop over the sphere query raises fear by exactly 0.1 per containing sphere and changes nothing else; no change without a single player |
| PlayerSystems.World.MoveCharacter | src/player/systems.rs:175-336 | no single player or context: nothing changes; the rotation is turned before the pivot lookup can stop the system; then the pivot takes the pitch, the vertical update runs, the probe one player height below the position from before the move sets grounded, and last the position advances by the effective translation for the desired move (planar plus velocity, times dt), with autostep iff grounded at the start; keeps `Valid()` |
| PlayerSystems.World.ApplyVerticalImpulse | src/player/systems.rs:255-269 | the in-place field updates compute `VerticalImpulse` |
| PlayerSystems.World.IntegrateVelocity | src/player/systems.rs:271-280 | the in-place field updates compute `Integrate` |
| PlayerSystems.World.UpdateGrounded | src/player/systems.rs:318-332 | the nested probe and velocity tests compute `GroundedAfterProbe`, touching only `grounded` |

## Left out

- `f32` rounding: all arithmetic is exact over `real`, `powf(2.0)` is an exact square, and NaN is not modelled. This includes the 0.3 recovery steps near `MAX_STAMINA`, where `f32` spacing is coarse.
- Yaw wrapping by nalgebra's `wrap`, `cos`/`sin` of the yaw and `normalize_or_zero` are library calls. They are parameters (`Movement.Maths`), so the model proves nothing about the yaw range or the unit length of the planar direction.
- The quaternions built in `update_rotation` and for the camera pivot are left out. The pivot is modelled by the pitch angle it encodes (`pivotPitch`), and `update_rotation` is not modelled.
- Rapier's `move_shape` and `intersection_with_shape` are the physics engine. They are parameters (`Movement.Physics`): the effective translation is a function of the desired move, the position and the autostep flag. The collider shapes, mass, autostep limits (1.65, 0.1), sliding and query filters are not modelled.
- `Time::delta` is the parameter `dt`.
- Bevy's queries are abstracted. `playerCount` stands for the number of entities every player query matches, and `pivotCount` and `contextCount` likewise. The `error!` logging on a failed lookup is not modelled.
- `setup` and `update_cursor_visible` (entity spawning, window and cursor state) are not modelled. The constructor only stands for the world right after one player was spawned.
- `src/player/character_controller.rs`, `src/player/mod.rs`, `src/camera.rs`, `src/systems.rs`, `src/ui.rs`, `src/lib.rs` and `src/main.rs` are engine glue, a third-party controller or UI, and are not part of this model.
- `FEAR_RECOVERY_SPEED`, `FEAR_DECRASE_RATE`, `CAMERA_WALK_TRANSLATION`, `CAMERA_CROUCH_TRANSLATION` and `PLAYER_RADIUS` are declared but no modelled system reads them, and `crouched` is never written.
- Stamina.Ticks: the stamina traces list only the ticks that reach the automaton. Ticks in the air or with input disabled change nothing and are left out of the trace.
- Movement.DesiredMove and Movement.GroundProbeCentre carry no contract of their own. They are arithmetic on vectors, and their effect is stated through `World.MoveCharacter`.
