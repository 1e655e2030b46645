/**
 * What the handlers of src/classes/Player.ts do, one rule at a time, over
 * the functions of module PlayerModel: movement, jumping, attacks and
 * their lockout, the attack frame windows in milliseconds, friction and
 * the fall latch, damage and hit-stun, the end of an attack clip, the
 * order of the per-tick steps, and the state after construction.
 */
module PlayerBehaviour {
  import opened Wrappers
  import Fsm
  import Animation
  import opened PlayerModel
  import opened PlayerProperties

  // ---------------------------------------------------------------------
  // handlePlayerAction
  // ---------------------------------------------------------------------

  /**
   * Horizontal input: left sets -600, else right sets 600; when not
   * attacking the facing follows the key and, on the floor, `walk` becomes
   * current; while attacking neither facing nor state change.
   */
  lemma {:induction false} MoveOutcome(p: PlayerView, now: int)
    requires Consistent(p)
    ensures var r := MoveStepP(p, now);
      && Consistent(r)
      && (p.controls.left ==> r.phys.body.vx == -RUN_SPEED)
      && (!p.controls.left && p.controls.right ==> r.phys.body.vx == RUN_SPEED)
      && ((p.controls.left || p.controls.right) && !p.isAttacking ==> r.phys.body.flipX == !p.controls.left)
      && ((p.controls.left || p.controls.right) && !p.isAttacking && p.phys.onFloor ==> Fsm.IsCurrent(r.fsm, WALK))
      && (p.isAttacking ==> r.phys.body.flipX == p.phys.body.flipX && r.fsm == p.fsm && r.anim == p.anim)
      && (!p.phys.onFloor ==> r.fsm == p.fsm)
      && r.combat == p.combat && r.phys.onFloor == p.phys.onFloor
  {
    MoveStepKeepsConsistent(p, now);
    if p.controls.left || p.controls.right {
      var right := !p.controls.left;
      var q := FacingP(WithVx(p, if right then RUN_SPEED else -RUN_SPEED), right);
      assert MoveStepP(p, now) == HeadingP(WithVx(p, if right then RUN_SPEED else -RUN_SPEED), right, now);
      if !p.isAttacking && p.phys.onFloor {
        HeadingKeepsConsistent(p, if right then RUN_SPEED else -RUN_SPEED, right);
        SetStateKeepsConsistent(q, WALK, now);
      }
    }
  }

  /**
   * Jump held on the floor sets -450 and makes `jump` current unless
   * attacking; otherwise no horizontal input on the floor, not attacking
   * and not stunned makes `idle` current; otherwise nothing changes.
   */
  lemma {:induction false} JumpOutcome(p: PlayerView, now: int)
    requires Consistent(p)
    ensures var r := JumpStepP(p, now);
      && Consistent(r)
      && (p.controls.jump && p.phys.onFloor ==> r.phys.body.vy == JUMP_VELOCITY)
      && (p.controls.jump && p.phys.onFloor && !p.isAttacking ==> Fsm.IsCurrent(r.fsm, JUMP))
      && ((!(p.controls.jump && p.phys.onFloor) && !p.controls.left && !p.controls.right && p.phys.onFloor
             && !p.isAttacking && !p.combat.damageTakenRecently) ==> Fsm.IsCurrent(r.fsm, IDLE))
      && (!(p.controls.jump && p.phys.onFloor) ==> r.phys == p.phys)
      && r.combat == p.combat
  {
    JumpStepKeepsConsistent(p, now);
    SetStateKeepsConsistent(WithVy(p, JUMP_VELOCITY), JUMP, now);
    SetStateKeepsConsistent(p, IDLE, now);
  }

  /**
   * Attack keys: attack (checked first) makes `stab` current, else swing
   * makes `swing` current, neither while attacking; entering the state
   * afresh sets the lockout and stamps its startTime with `now`.
   */
  lemma {:induction false} AttackOutcome(p: PlayerView, now: int)
    requires Consistent(p)
    ensures var r := AttackStepP(p, now);
      && Consistent(r)
      && (p.controls.attack && !p.isAttacking ==> Fsm.IsCurrent(r.fsm, STAB))
      && (!p.controls.attack && p.controls.swing && !p.isAttacking ==> Fsm.IsCurrent(r.fsm, SWING))
      && ((p.controls.attack || p.controls.swing) && !p.isAttacking && !InAttackState(p.fsm) ==>
            r.isAttacking && StartTime(r.fsm) == now)
      && r.phys == p.phys && r.combat == p.combat
  {
    AttackStepKeepsConsistent(p, now);
    if !p.isAttacking && !InAttackState(p.fsm) {
      if p.controls.attack {
        SetStateResult(p, STAB, now);
      } else if p.controls.swing {
        SetStateResult(p, SWING, now);
      }
    }
    SetStateKeepsConsistent(p, STAB, now);
    SetStateKeepsConsistent(p, SWING, now);
  }

  /**
   * While attacking (and not stunned) handlePlayerAction changes only the
   * motion: no facing, no state, no clip and no key changes.
   */
  lemma {:induction false} AttackLockout(p: PlayerView, now: int)
    requires p.isAttacking
    ensures var r := HandlePlayerActionP(p, now);
      && r == p.(phys := r.phys)
      && r.phys.body.flipX == p.phys.body.flipX
      && r.phys.onFloor == p.phys.onFloor
  {
    if !p.combat.damageTakenRecently {
      var p1 := LandedP(p);
      var p2 := MoveStepP(p1, now);
      assert p2 == p1.(phys := p2.phys) && p2.phys.body.flipX == p.phys.body.flipX;
      var p3 := JumpStepP(p2, now);
      assert p3 == p2.(phys := p3.phys) && p3.phys.body.flipX == p.phys.body.flipX;
    }
  }

  /** Fast-falling is cleared by handlePlayerAction exactly when grounded and not stunned. */
  lemma {:induction false} FastFallCleared(p: PlayerView, now: int)
    ensures var r := HandlePlayerActionP(p, now);
      && r.phys.isFastFalling == (p.phys.isFastFalling && (p.combat.damageTakenRecently || !p.phys.onFloor))
      && r.phys.onFloor == p.phys.onFloor
  {
    if !p.combat.damageTakenRecently {
      var p1 := LandedP(p);
      var p2 := MoveStepP(p1, now);
      assert p2.phys.isFastFalling == p1.phys.isFastFalling && p2.phys.onFloor == p1.phys.onFloor;
      var p3 := JumpStepP(p2, now);
      assert p3.phys.isFastFalling == p1.phys.isFastFalling && p3.phys.onFloor == p1.phys.onFloor;
    }
  }

  // ---------------------------------------------------------------------
  // Exit of an attack state
  // ---------------------------------------------------------------------

  /**
   * Leaving `stab` or `swing` for another registered state clears that
   * attack's key and its lockout, and queues the floor state (or `jump`
   * when airborne); the next update of the machine takes that request.
   */
  lemma {:induction false} AttackExit(p: PlayerView, name: string, now: int)
    requires Consistent(p) && InAttackState(p.fsm) && name in Registry() && !Fsm.IsCurrent(p.fsm, name)
    ensures var r := SetStateP(p, name, now);
      && r.fsm.queue == p.fsm.queue + AfterAttackRequests(p.phys.onFloor, p.controls)
      && (Fsm.IsCurrent(p.fsm, STAB) ==> !r.controls.attack)
      && (Fsm.IsCurrent(p.fsm, SWING) ==> !r.controls.swing)
      && (!AttackState(name) ==> !r.isAttacking)
      && (p.fsm.queue == [] ==> FsmUpdateP(r, now) == SetStateP(PoppedP(r), r.fsm.queue[0], now))
  {
    SetStateResult(p, name, now);
  }

  // ---------------------------------------------------------------------
  // The attack frame windows, in milliseconds since the state was entered
  // ---------------------------------------------------------------------

  lemma {:induction false} StabWindows(now: int, start: int)
    ensures StabAction(AttackFrame(now, start)) == PlaceHitbox <==> 240 <= now - start < 256
    ensures StabAction(AttackFrame(now, start)) == RemoveHitbox <==> now - start >= 320
  {
    var f := AttackFrame(now, start);
    assert FRAME_MS * f <= now - start < FRAME_MS * f + FRAME_MS;
  }

  lemma {:induction false} SwingWindows(now: int, start: int)
    ensures SwingAction(AttackFrame(now, start)) == PlaceHitbox <==> 480 <= now - start < 496
    ensures SwingAction(AttackFrame(now, start)) == RemoveHitbox <==> now - start >= 656
  {
    var f := AttackFrame(now, start);
    assert FRAME_MS * f <= now - start < FRAME_MS * f + FRAME_MS;
  }

  /**
   * The stab update touches the attack zone only: the stab hitbox during
   * 240-255 ms, out of the world from 320 ms, unchanged otherwise.
   */
  lemma {:induction false} StabUpdateOutcome(p: PlayerView, now: int)
    ensures var d := now - StartTime(p.fsm);
      StabUpdateP(p, now) == p.(combat := p.combat.(attackZone :=
        if 240 <= d < 256 then StabHitbox(p.phys.body)
        else if d >= 320 then p.combat.attackZone.(inWorld := false)
        else p.combat.attackZone))
  {
    StabWindows(now, StartTime(p.fsm));
  }

  /** The swing update: the swing hitbox during 480-495 ms, out of the world from 656 ms. */
  lemma {:induction false} SwingUpdateOutcome(p: PlayerView, now: int)
    ensures var d := now - StartTime(p.fsm);
      SwingUpdateP(p, now) == p.(combat := p.combat.(attackZone :=
        if 480 <= d < 496 then SwingHitbox(p.phys.body)
        else if d >= 656 then p.combat.attackZone.(inWorld := false)
        else p.combat.attackZone))
  {
    SwingWindows(now, StartTime(p.fsm));
  }

  // ---------------------------------------------------------------------
  // Friction and the fall latch
  // ---------------------------------------------------------------------

  /** Friction on the floor with no key held, applied `n` times. */
  function Coast(vx: real, n: nat): real
    decreases n
  {
    if n == 0 then vx else Coast(Friction(vx, true, false, false), n - 1)
  }

  /** A speed of `k` steps of 50 in either direction coasts to exactly 0 in `k` ticks. */
  lemma {:induction false} CoastFromMultiple(k: nat, sign: bool)
    ensures Coast((if sign then 1.0 else -1.0) * (k as real) * FRICTION_STEP, k) == 0.0
    decreases k
  {
    if k > 0 {
      var s := if sign then 1.0 else -1.0;
      assert Friction(s * (k as real) * FRICTION_STEP, true, false, false) == s * ((k - 1) as real) * FRICTION_STEP;
      CoastFromMultiple(k - 1, sign);
    }
  }

  /** With no clamp, a speed strictly between 0 and 50 never settles: two ticks bring it back. */
  lemma CoastOscillates(vx: real)
    requires 0.0 < vx < FRICTION_STEP
    ensures Coast(vx, 1) == vx - FRICTION_STEP < 0.0
    ensures Coast(vx, 2) == vx
  {
  }

  /** A boosted fall is boosted only once: the latch holds it for every later descending tick. */
  lemma LatchBoostsOnce(vy: real, fastFalling: bool, jumpHeld: bool, ff2: bool, held2: bool)
    requires vy > 0.0
    ensures var f := BetterJump(vy, false, fastFalling, jumpHeld);
      f.latch && (f.vy > 0.0 ==> BetterJump(f.vy, f.latch, ff2, held2) == f)
  {
  }

  /** The `vy * 30 - 1` of the fall boost without parentheses reverses a descent slower than 1/31. */
  lemma FallBoostReverses(vy: real, jumpHeld: bool)
    requires 0.0 < vy < 1.0 / 31.0
    ensures BetterJump(vy, false, false, jumpHeld).vy < 0.0
  {
  }

  // ---------------------------------------------------------------------
  // onDamageTaken and the timers
  // ---------------------------------------------------------------------

  /**
   * A hit outside hit-stun: health drops by exactly the damage, hit-stun
   * starts, the own zone leaves the world, the attacker's hitbox shrinks
   * to 0 x 0, `alert` becomes current, and the knockback of 500 pushes
   * away from the attacker (right when the x positions are equal).
   */
  lemma {:induction false} DamageOutcome(p: PlayerView, attack: Hitbox, attackerX: real, now: int)
    requires Consistent(p) && !p.combat.damageTakenRecently
    ensures var h := DamageP(p, attack, attackerX, now);
      var r := h.player;
      && Consistent(r)
      && r.combat == Combat(p.combat.hp - attack.damage, true, p.combat.attackZone.(inWorld := false))
      && h.attack == attack.(width := 0, height := 0)
      && Fsm.IsCurrent(r.fsm, ALERT)
      && (attackerX > p.phys.body.x ==> r.phys.body.vx == p.phys.body.vx - KNOCKBACK && !r.phys.body.flipX)
      && (attackerX <= p.phys.body.x ==> r.phys.body.vx == p.phys.body.vx + KNOCKBACK && r.phys.body.flipX)
      && r.phys.body.vy == p.phys.body.vy && r.phys.onFloor == p.phys.onFloor
  {
    var q := HurtP(p, attack.damage);
    HurtKeepsConsistent(p, attack.damage, attackerX);
    SetStateKeepsConsistent(q, ALERT, now);
    DamageKeepsConsistent(p, attack, attackerX, now);
  }

  /** During hit-stun a second hit has no effect; once the hit-stun timer fires, the next hit lands. */
  lemma {:induction false} HitStun(p: PlayerView, a1: Hitbox, x1: real, a2: Hitbox, x2: real, now: int)
    requires Consistent(p) && !p.combat.damageTakenRecently
    ensures var r := DamageP(p, a1, x1, now).player;
      && DamageP(r, a2, x2, now) == Hit(r, a2)
      && DamageP(DamageTimerP(r), a2, x2, now).player.combat.hp == r.combat.hp - a2.damage
  {
    DamageOutcome(p, a1, x1, now);
    var r := DamageP(p, a1, x1, now).player;
    TimersKeepConsistent(r, now);
    DamageOutcome(DamageTimerP(r), a2, x2, now);
  }

  /** The alert timer firing makes `idle` current and keeps motion and combat. */
  /**
   * The jump update: on landing the jump key is released and the grounded
   * state is requested, `walk` with a horizontal key held and `idle`
   * otherwise, which then is current; in the air only the `jump` clip is
   * requested.
   */
  lemma {:induction false} JumpLandingOutcome(p: PlayerView, now: int)
    requires Consistent(p) && Fsm.IsCurrent(p.fsm, JUMP)
    ensures var r := JumpUpdateP(p, now);
      p.phys.onFloor ==> Fsm.IsCurrent(r.fsm, FloorState(p.controls)) && !r.controls.jump && Consistent(r)
    ensures var r := JumpUpdateP(p, now);
      !p.phys.onFloor ==> r == p.(anim := Animation.PlaySpec(p.anim, JUMP_CLIP, p.isAttacking)) && Consistent(r)
  {
    var q := p.(anim := Animation.PlaySpec(p.anim, JUMP_CLIP, p.isAttacking));
    ClipKeepsConsistent(p, JUMP_CLIP);
    if p.phys.onFloor {
      SetStateKeepsConsistent(q.(controls := q.controls.(jump := false)), FloorState(q.controls), now);
    }
  }

  lemma {:induction false} AlertTimerOutcome(p: PlayerView, now: int)
    requires Consistent(p)
    ensures var r := AlertTimerP(p, now);
      Fsm.IsCurrent(r.fsm, IDLE) && r.phys == p.phys && r.combat == p.combat
  {
    SetStateKeepsConsistent(p, IDLE, now);
  }

  // ---------------------------------------------------------------------
  // ANIMATION_COMPLETE
  // ---------------------------------------------------------------------

  /**
   * The end of an attack clip ends the lockout; `idle` becomes current
   * with no horizontal input on the floor outside hit-stun, `jump` when
   * airborne, and otherwise nothing else changes.
   */
  lemma {:induction false} CompletionOutcome(p: PlayerView, key: string, now: int)
    requires Consistent(p) && Animation.IsAttackClip(p.anim, key)
    ensures var r := AnimationCompleteP(p, key, now);
      && !r.isAttacking
      && (!p.controls.left && !p.controls.right && p.phys.onFloor && !p.combat.damageTakenRecently ==>
            Fsm.IsCurrent(r.fsm, IDLE))
      && (!p.phys.onFloor ==> Fsm.IsCurrent(r.fsm, JUMP))
      && ((p.controls.left || p.controls.right || p.combat.damageTakenRecently) && p.phys.onFloor ==>
            r == p.(isAttacking := false))
      && r.phys == p.phys && r.combat == p.combat
  {
    var q := p.(isAttacking := false);
    assert Consistent(q);
    SetStateKeepsConsistent(q, IDLE, now);
    SetStateKeepsConsistent(q, JUMP, now);
    SetStateNoLockout(q, IDLE, now);
    SetStateNoLockout(q, JUMP, now);
  }

  // ---------------------------------------------------------------------
  // The order of the steps of update(dt)
  // ---------------------------------------------------------------------

  /** The machine's update never moves the body or touches the grounded flag. */
  lemma {:induction false} FsmUpdateKeepsPhys(p: PlayerView, now: int)
    ensures FsmUpdateP(p, now).phys == p.phys
  {
    if |p.fsm.queue| == 0 && p.fsm.current.Some? && p.fsm.current.value.onUpdate.Some? {
      var q := UpdateLoggedP(p);
      if Fsm.IsCurrent(q.fsm, JUMP) {
        var q1 := q.(anim := Animation.PlaySpec(q.anim, JUMP_CLIP, q.isAttacking));
        assert JumpUpdateP(q, now).phys == q1.phys;
      }
    }
  }

  /**
   * The grounded flag after a tick is floor contact with no vertical
   * speed after the action, friction and jump steps; friction itself read
   * the grounded flag of the previous tick.
   */
  lemma {:induction false} TickGroundedFlag(p: PlayerView, stick: Option<Stick>, now: int)
    ensures var a := HandlePlayerActionP(GamepadP(p, stick), now);
      var f := FrictionP(a);
      var b := BetterJumpingP(f);
      var r := TickP(p, stick, now);
      && f.phys.body.vx == Friction(a.phys.body.vx, p.phys.onFloor, a.controls.left, a.controls.right)
      && (r.phys.onFloor <==> b.phys.body.onFloorRaw && b.phys.body.vy == 0.0)
      && r.phys.body == b.phys.body
  {
    var g := GamepadP(p, stick);
    FastFallCleared(g, now);
    var b := BetterJumpingP(FrictionP(HandlePlayerActionP(g, now)));
    FsmUpdateKeepsPhys(SyncP(b), now);
  }

  // ---------------------------------------------------------------------
  // Construction
  // ---------------------------------------------------------------------

  /**
   * After the constructor: the invariant holds, `idle` is current with no
   * previous state, full health, no lockout or hit-stun, facing right, at
   * rest where placed, and `stand1` showing.
   */
  lemma {:induction false} InitialOutcome(x: real, y: real, keys: Controls)
    ensures var r := InitialP(x, y, keys);
      && Consistent(r)
      && Fsm.IsCurrent(r.fsm, IDLE) && r.fsm.previous.None? && r.fsm.queue == []
      && r.combat.hp == MAX_HP && !r.combat.damageTakenRecently && !r.isAttacking
      && r.phys.body == Body(x, y, 0.0, 0.0, true, false)
      && r.anim == StartedAnimations()
  {
    var c := Created(x, y, keys);
    TransitionAccepting(c, IDLE, 0);
    SetStateHooks(c, IDLE, 0);
    var r := InitialP(x, y, keys);
    assert MachineOk(r.fsm);
    assert AnimationOk(StartedAnimations());
  }
}
