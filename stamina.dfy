/** The stamina automaton of `update_stamina`: a pair (stamina, stop_run)
    driven by the run input while the player stands on the ground. */
module Stamina {
  import opened Structures

  /** One tick of `update_stamina` for a grounded player.
      Running drains stamina only while it is positive and running is not
      blocked, and blocks running once stamina is strictly negative; resting
      recovers stamina only below `MAX_STAMINA` (no clamp afterwards) and
      unblocks running only once stamina exceeds
      `MIN_STAMINA_TO_UNBLOCK_RUN`. Fear is untouched. */
  function StaminaTick(p: PlayerComponent, run: bool): (r: PlayerComponent)
    ensures r.fear == p.fear
    // how much stamina moves
    ensures run && p.stamina > 0.0 && !p.stopRun ==> r.stamina == p.stamina - STAMINA_DECRASE_RATE
    ensures run && !(p.stamina > 0.0 && !p.stopRun) ==> r.stamina == p.stamina
    ensures !run && p.stamina < MAX_STAMINA ==> r.stamina == p.stamina + STAMINA_RECOVERY_SPEED
    ensures !run && p.stamina >= MAX_STAMINA ==> r == p
    // hysteresis: the flag is set only below zero while running, cleared
    // only above the unblock threshold while resting
    ensures !p.stopRun && r.stopRun <==> !p.stopRun && run && r.stamina < 0.0
    ensures p.stopRun && !r.stopRun <==> p.stopRun && !run && p.stamina < MAX_STAMINA && r.stamina > MIN_STAMINA_TO_UNBLOCK_RUN
  {
    if run then
      var drained := if p.stamina > 0.0 && !p.stopRun
                     then p.(stamina := p.stamina - STAMINA_DECRASE_RATE) else p;
      if drained.stamina < 0.0 && !drained.stopRun then drained.(stopRun := true) else drained
    else if p.stamina < MAX_STAMINA then
      var recovered := p.(stamina := p.stamina + STAMINA_RECOVERY_SPEED);
      if recovered.stamina > MIN_STAMINA_TO_UNBLOCK_RUN && recovered.stopRun
      then recovered.(stopRun := false) else recovered
    else
      p
  }

  /** The band stamina never leaves: above `-STAMINA_DECRASE_RATE` (a drain
      starts only from a positive value), below `MAX_STAMINA +
      STAMINA_RECOVERY_SPEED` (a recovery starts only below the maximum), and
      never above the unblock threshold while running is blocked. */
  ghost predicate InBounds(p: PlayerComponent) {
    && -STAMINA_DECRASE_RATE < p.stamina < MAX_STAMINA + STAMINA_RECOVERY_SPEED
    && (p.stopRun ==> p.stamina <= MIN_STAMINA_TO_UNBLOCK_RUN)
  }

  /** Stamina at exactly zero with running allowed is a fixed point of a
      running tick: draining needs stamina above zero and blocking needs it
      below zero, so the player keeps running without either. */
  lemma RunningAtZeroNeitherDrainsNorBlocks(fear: real)
    ensures StaminaTick(PlayerComponent(fear, 0.0, false), true) == PlayerComponent(fear, 0.0, false)
  {
  }

  lemma DefaultInBounds()
    ensures InBounds(DefaultPlayerComponent())
  {
  }

  lemma TickPreservesBounds(p: PlayerComponent, run: bool)
    requires InBounds(p)
    ensures InBounds(StaminaTick(p, run))
  {
  }

  /** Grounded ticks in order, one run input per tick (ticks in the air or
      with input disabled change nothing and are left out of the trace). */
  function Ticks(p: PlayerComponent, runs: seq<bool>): PlayerComponent
    decreases |runs|
  {
    if runs == [] then p else Ticks(StaminaTick(p, runs[0]), runs[1..])
  }

  lemma {:induction false} TicksPreserveBounds(p: PlayerComponent, runs: seq<bool>)
    requires InBounds(p)
    ensures InBounds(Ticks(p, runs))
    decreases |runs|
  {
    if runs != [] {
      TickPreservesBounds(p, runs[0]);
      TicksPreserveBounds(StaminaTick(p, runs[0]), runs[1..]);
    }
  }

  /** From the default, stamina stays strictly between `-STAMINA_DECRASE_RATE`
      and `MAX_STAMINA + STAMINA_RECOVERY_SPEED` whatever the player does. */
  lemma StaminaBoundedFromDefault(runs: seq<bool>)
    ensures -STAMINA_DECRASE_RATE < Ticks(DefaultPlayerComponent(), runs).stamina
    ensures Ticks(DefaultPlayerComponent(), runs).stamina < MAX_STAMINA + STAMINA_RECOVERY_SPEED
  {
    DefaultInBounds();
    TicksPreserveBounds(DefaultPlayerComponent(), runs);
  }

  /** No tick ever raises stamina by more than `STAMINA_RECOVERY_SPEED`. */
  lemma {:induction false} RecoveryIsGradual(p: PlayerComponent, runs: seq<bool>)
    ensures Ticks(p, runs).stamina <= p.stamina + STAMINA_RECOVERY_SPEED * (|runs| as real)
    decreases |runs|
  {
    if runs != [] {
      var q := StaminaTick(p, runs[0]);
      RecoveryIsGradual(q, runs[1..]);
      assert |runs[1..]| as real == |runs| as real - 1.0;
    }
  }

  /** Hysteresis over a trace: once running is blocked it stays blocked
      until some prefix of the trace has brought stamina strictly above
      `MIN_STAMINA_TO_UNBLOCK_RUN`. */
  lemma {:induction false} BlockedUntilRecovered(p: PlayerComponent, runs: seq<bool>)
    requires p.stopRun
    requires !Ticks(p, runs).stopRun
    ensures exists k :: 0 < k <= |runs| && Ticks(p, runs[..k]).stamina > MIN_STAMINA_TO_UNBLOCK_RUN
    decreases |runs|
  {
    assert runs != [];
    var q := StaminaTick(p, runs[0]);
    assert Ticks(p, runs[..1]) == Ticks(q, []) by {
      assert runs[..1][1..] == [];
    }
    if !q.stopRun {
      assert Ticks(p, runs[..1]).stamina > MIN_STAMINA_TO_UNBLOCK_RUN;
    } else {
      BlockedUntilRecovered(q, runs[1..]);
      var k :| 0 < k <= |runs[1..]| && Ticks(q, runs[1..][..k]).stamina > MIN_STAMINA_TO_UNBLOCK_RUN;
      assert runs[..k + 1][1..] == runs[1..][..k];
      assert Ticks(p, runs[..k + 1]) == Ticks(q, runs[1..][..k]);
    }
  }

  /** Running blocked below zero is not unblocked for at least 174 ticks:
      recovery must climb more than 52 in steps of 0.3. */
  lemma RecoveryTakesTime(p: PlayerComponent, runs: seq<bool>)
    requires p.stopRun && p.stamina < 0.0
    requires !Ticks(p, runs).stopRun
    ensures |runs| >= 174
  {
    BlockedUntilRecovered(p, runs);
    var k :| 0 < k <= |runs| && Ticks(p, runs[..k]).stamina > MIN_STAMINA_TO_UNBLOCK_RUN;
    RecoveryIsGradual(p, runs[..k]);
  }
}
