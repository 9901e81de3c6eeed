/** Sampling the keyboard into a `PlayersInput` snapshot (`update_input`). */
module Input {
  import opened Structures

  /** The keys the player systems read. */
  datatype KeyCode = KeyW | KeyA | KeyS | KeyD
                   | ControlLeft | ControlRight
                   | ShiftLeft | ShiftRight
                   | Space

  predicate CrouchKeyHeld(held: set<KeyCode>) {
    ControlLeft in held || ControlRight in held
  }

  predicate RunKeyHeld(held: set<KeyCode>) {
    ShiftLeft in held || ShiftRight in held
  }

  /** The snapshot `update_input` writes for the held keys when the player's
      `stop_run` flag is `stopRun`: each direction follows its key, running
      needs a Shift key and no `stop_run`, and jumping needs Space and no
      crouch, so a held Control key always suppresses the jump. */
  function SampleInput(held: set<KeyCode>, stopRun: bool): (i: PlayersInput)
    ensures i.backward == (KeyS in held) && i.forward == (KeyW in held)
    ensures i.right == (KeyD in held) && i.left == (KeyA in held)
    ensures i.crouch == CrouchKeyHeld(held)
    ensures i.run <==> RunKeyHeld(held) && !stopRun
    ensures i.jump <==> Space in held && !CrouchKeyHeld(held)
    ensures i.crouch ==> !i.jump
    ensures stopRun ==> !i.run
  {
    var crouch := CrouchKeyHeld(held);
    PlayersInput(
      backward := KeyS in held,
      forward := KeyW in held,
      right := KeyD in held,
      left := KeyA in held,
      jump := Space in held && !crouch,
      run := RunKeyHeld(held) && !stopRun,
      crouch := crouch)
  }
}
