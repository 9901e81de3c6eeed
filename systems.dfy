/** The player systems that run every tick, as methods of the world state they
    update in place: the input snapshot resource, the single player's
    meters, controller state and translation, the camera pivot, and the
    trigger spheres. */
module PlayerSystems {
  import opened Math
  import opened Components
  import opened Structures
  import opened Input
  import opened Stamina
  import opened Fear
  import opened Movement

  class World {
    /** The `PlayerInputEnabled` resource. */
    var inputEnabled: bool
    /** The `PlayersInput` resource. */
    var input: PlayersInput
    /** How many entities the player queries match; the systems act only
        when it is exactly one. */
    var playerCount: nat
    /** The player's `PlayerComponent`. */
    var player: PlayerComponent
    /** The player's `PlayerControllerData`. */
    var controller: PlayerControllerData
    /** The player's `Transform.translation`. */
    var translation: Vec3
    /** How many camera pivots exist; the look update needs exactly one. */
    var pivotCount: nat
    /** The pitch the camera pivot's rotation encodes. */
    var pivotPitch: real
    /** How many physics contexts exist; movement needs exactly one. */
    var contextCount: nat
    /** Every entity of the sphere query, with its sphere when it has one. */
    var spheres: seq<Option<SphereEntity>>

    /** What every tick preserves: the stamina band and its hysteresis,
        non-negative fear, a pitch inside the limit, a vertical velocity
        inside the terminal band, and never grounded while rising. */
    ghost predicate Valid()
      reads this
    {
      && InBounds(player)
      && player.fear >= 0.0
      && -PITCH_LIMIT <= controller.rotation.x <= PITCH_LIMIT
      && controller.terminalVelocity >= 0.0
      && -controller.terminalVelocity <= controller.velocity.y <= controller.terminalVelocity
      && (controller.grounded ==> controller.velocity.y <= 0.0)
    }

    /** A world holding one player with default components at `translation`,
        its camera pivot, one physics context and the given spheres. */
    constructor (inputEnabled: bool, translation: Vec3, spheres: seq<Option<SphereEntity>>)
      ensures Valid()
      ensures this.inputEnabled == inputEnabled && this.translation == translation && this.spheres == spheres
      ensures input == DefaultPlayersInput()
      ensures player == DefaultPlayerComponent() && controller == DefaultPlayerControllerData()
      ensures playerCount == 1 && pivotCount == 1 && contextCount == 1 && pivotPitch == 0.0
    {
      this.inputEnabled := inputEnabled;
      this.input := DefaultPlayersInput();
      this.playerCount := 1;
      this.player := DefaultPlayerComponent();
      this.controller := DefaultPlayerControllerData();
      this.translation := translation;
      this.pivotCount := 1;
      this.pivotPitch := 0.0;
      this.contextCount := 1;
      this.spheres := spheres;
      new;
      DefaultInBounds();
    }

    /** `update_input`: with input disabled or no single player the old
        snapshot stays as it was (it is not cleared); otherwise every field
        is resampled from the held keys. */
    method UpdateInput(held: set<KeyCode>)
      requires Valid()
      modifies this`input
      ensures Valid()
      ensures !inputEnabled || playerCount != 1 ==> input == old(input)
      ensures inputEnabled && playerCount == 1 ==> input == SampleInput(held, player.stopRun)
    {
      if !inputEnabled {
        return;
      } else if playerCount != 1 {
        return;
      }

      input := input.(backward := KeyS in held);
      input := input.(forward := KeyW in held);
      input := input.(right := KeyD in held);
      input := input.(left := KeyA in held);

      input := input.(crouch := ControlLeft in held || ControlRight in held);

      var run := ShiftLeft in held || ShiftRight in held;
      input := input.(run := run && !player.stopRun);

      input := input.(jump := Space in held && !input.crouch);
    }

    /** `update_stamina`: nothing changes with input disabled, no single
        player, or the player in the air; otherwise one step of the stamina
        automaton on the current run input. */
    method UpdateStamina()
      requires Valid()
      modifies this`player
      ensures Valid()
      ensures !inputEnabled || playerCount != 1 || !controller.grounded ==> player == old(player)
      ensures inputEnabled && playerCount == 1 && controller.grounded ==> player == StaminaTick(old(player), input.run)
    {
      if !inputEnabled {
        return;
      }
      if playerCount != 1 {
        return;
      }
      if !controller.grounded {
        return;
      }

      if input.run {
        if player.stamina > 0.0 && !player.stopRun {
          player := player.(stamina := player.stamina - STAMINA_DECRASE_RATE);
        }
        if player.stamina < 0.0 && !player.stopRun {
          player := player.(stopRun := true);
        }
      } else if player.stamina < MAX_STAMINA {
        player := player.(stamina := player.stamina + STAMINA_RECOVERY_SPEED);
        if player.stamina > MIN_STAMINA_TO_UNBLOCK_RUN && player.stopRun {
          player := player.(stopRun := false);
        }
      }
      TickPreservesBounds(old(player), input.run);
    }

    /** `update_fear`: the system runs only for a single player; it walks the
        sphere query and adds one increment per sphere containing the
        player's translation, so fear rises by exactly `FEAR_INCREMENT`
        times that count and nothing else changes. */
    method UpdateFear()
      requires Valid()
      modifies this`player
      ensures Valid()
      ensures playerCount != 1 ==> player == old(player)
      ensures playerCount == 1 ==>
        player == old(player).(fear := FearAfter(old(player).fear, spheres, translation))
    {
      if playerCount != 1 {
        return;
      }
      var i := 0;
      while i < |spheres|
        invariant 0 <= i <= |spheres|
        invariant player == old(player).(fear := old(player).fear + FEAR_INCREMENT * (InsideCount(spheres[..i], translation) as real))
      {
        match spheres[i] {
          case Some(sphere) =>
            if PointInSphere(sphere.sphere, sphere.translation, translation) {
              player := player.(fear := player.fear + FEAR_INCREMENT);
            }
          case None =>
        }
        assert spheres[..i + 1][..i] == spheres[..i];
        i := i + 1;
      }
      assert spheres[..|spheres|] == spheres;
    }

    /** `move_character`. With no single player or physics context nothing
        changes. Otherwise the rotation is turned first, so it changes even
        when the camera pivot is then missing and the system stops there.
        With the pivot found: the pivot takes the new pitch, the vertical
        state is updated and integrated, the ground probe is taken one
        player height below the position from BEFORE the move, grounded is
        set from the probe and the new vertical velocity, and last the
        position advances by the shape cast's effective translation (with
        autostep only if the player was grounded at the start of the tick). */
    method MoveCharacter(mouseMotion: Vec2, dt: real, maths: Maths, physics: Physics)
      requires Valid()
      modifies this`controller, this`translation, this`pivotPitch
      ensures Valid()
      ensures playerCount != 1 || contextCount != 1 ==>
        controller == old(controller) && translation == old(translation) && pivotPitch == old(pivotPitch)
      ensures playerCount == 1 && contextCount == 1 ==>
        controller.rotation == Turn(old(controller.rotation), MouseDelta(inputEnabled, mouseMotion), maths)
      ensures playerCount == 1 && contextCount == 1 && pivotCount != 1 ==>
        controller == old(controller).(rotation := controller.rotation)
        && translation == old(translation) && pivotPitch == old(pivotPitch)
      ensures playerCount == 1 && contextCount == 1 && pivotCount == 1 ==>
        var moved := VerticalUpdate(old(controller).(rotation := controller.rotation), input.jump, dt);
        var desired := DesiredMove(PlanarVelocity(input, controller.rotation.y, maths), moved.velocity, dt);
        && pivotPitch == controller.rotation.x
        && controller == moved.(grounded := GroundedAfterProbe(physics.groundProbe(GroundProbeCentre(old(translation))), moved.velocity.y))
        && translation == Add(old(translation), physics.moveShape(desired, old(translation), old(controller.grounded)))
    {
      if playerCount != 1 {
        return;
      } else if contextCount != 1 {
        return;
      }

      var mouseDelta := MouseDelta(inputEnabled, mouseMotion);

      // the rotation is written before the pivot lookup can stop the system
      controller := controller.(rotation := Turn(controller.rotation, mouseDelta, maths));

      if pivotCount != 1 {
        return;
      }
      pivotPitch := controller.rotation.x;

      var planar := PlanarVelocity(input, controller.rotation.y, maths);

      var startedGrounded := controller.grounded;
      ApplyVerticalImpulse();
      IntegrateVelocity(dt);

      var desired := DesiredMove(planar, controller.velocity, dt);
      var effectiveTranslation := physics.moveShape(desired, translation, startedGrounded);

      // the probe uses the translation before the move
      var probeHit := physics.groundProbe(GroundProbeCentre(translation));
      UpdateGrounded(probeHit);

      translation := Add(translation, effectiveTranslation);
    }

    /** Lines 255-269 of `move_character`: landing reset and jump on the
        ground, gravity in the air while not falling. */
    method ApplyVerticalImpulse()
      modifies this`controller
      ensures controller == VerticalImpulse(old(controller), input.jump)
    {
      if controller.grounded {
        if controller.acceleration.y < 0.0 || controller.velocity.y < 0.0 {
          controller := controller.(acceleration := controller.acceleration.(y := 0.0));
          controller := controller.(velocity := controller.velocity.(y := 0.0));
        }
        if input.jump {
          controller := controller.(velocity := controller.velocity.(y := controller.velocity.y + controller.jumpForce));
        }
      } else {
        if controller.velocity.y >= 0.0 {
          controller := controller.(acceleration := controller.acceleration.(y := -controller.gravity));
        }
      }
    }

    /** Lines 271-280 of `move_character`: add `acceleration * dt`, then clamp
        the vertical velocity to the terminal band. */
    method IntegrateVelocity(dt: real)
      requires controller.terminalVelocity >= 0.0
      modifies this`controller
      ensures controller == Integrate(old(controller), dt)
    {
      controller := controller.(velocity := Add(controller.velocity, Scale(controller.acceleration, dt)));
      controller := controller.(velocity := controller.velocity.(y :=
        Clamp(controller.velocity.y, -controller.terminalVelocity, controller.terminalVelocity)));
    }

    /** Lines 318-332 of `move_character`: grounded only on a probe hit while
        not rising. */
    method UpdateGrounded(probeHit: bool)
      modifies this`controller
      ensures controller == old(controller).(grounded := GroundedAfterProbe(probeHit, old(controller).velocity.y))
    {
      if probeHit {
        if controller.velocity.y <= 0.0 {
          controller := controller.(grounded := true);
        } else {
          controller := controller.(grounded := false);
        }
      } else {
        controller := controller.(grounded := false);
      }
    }
  }
}
