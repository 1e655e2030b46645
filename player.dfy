/**
 * The mutable controller of src/classes/Player.ts. Each method changes the
 * fields step by step as the source does and is proved to have the effect
 * of the matching function of module PlayerModel on the snapshot of the
 * whole controller; the properties of those functions are in module
 * PlayerProperties.
 *
 * In the source the controller extends its state machine; here it owns one
 * (`fsm`) and drives a transition through the machine's steps, running its
 * own hook bodies in between. A hook's `setState` call made during a
 * transition reaches the machine while its flag is set, so it is queued or
 * dropped exactly as the inherited method would do.
 */
module Players {
  import opened Wrappers
  import Fsm
  import Animation
  import opened PlayerModel
  import PlayerProperties

  class Player {
    /** The sprite and its physics body. */
    var sprite: Body
    var onFloor: bool
    var position: Point
    var velocity: Point
    var startedFallingFromJump: bool
    var isFastFalling: bool
    var hp: int
    var damageTakenRecently: bool
    var attackZone: Hitbox
    /** The `isDown` flags of the control keys. */
    var controls: Controls
    var isAttacking: bool
    const fsm: Fsm.StateMachine
    const playerAnimation: Animation.PlayerAnimation

    ghost function Snapshot(): PlayerView
      reads this, fsm, playerAnimation
    {
      PlayerView(Physics(sprite, onFloor, position, velocity, startedFallingFromJump, isFastFalling),
                 Combat(hp, damageTakenRecently, attackZone),
                 controls, isAttacking, playerAnimation.Snapshot(), fsm.Snapshot())
    }

    /**
     * `new Player(...)` at (x, y) with keys in state `keys`:
     * createAnimations, create, defineStates.
     */
    constructor (x: real, y: real, keys: Controls)
      ensures Snapshot() == InitialP(x, y, keys)
    {
      sprite := Body(x, y, 0.0, 0.0, false, false);
      onFloor := false;
      position := Point(x, y);
      velocity := Point(0.0, 0.0);
      startedFallingFromJump := false;
      isFastFalling := false;
      hp := MAX_HP;
      damageTakenRecently := false;
      attackZone := Hitbox(-1000.0, -1000.0, 140, 25, 0, true);
      controls := keys;
      isAttacking := false;
      fsm := new Fsm.StateMachine();
      playerAnimation := new Animation.PlayerAnimation();
      new;
      CreateAnimations();
      Create();
      DefineStates();
    }

    /** `createAnimations` on the new animation helper. */
    method CreateAnimations()
      requires playerAnimation.Snapshot() == Animation.Empty
      modifies playerAnimation
      ensures playerAnimation.Snapshot() == BuiltAnimations()
    {
      var calls := FrameCalls();
      var i := 0;
      while i < |calls|
        invariant 0 <= i <= |calls|
        invariant PlayerModel.CreateAnimations(Animation.Empty, calls)
                  == PlayerModel.CreateAnimations(playerAnimation.Snapshot(), calls[i..])
      {
        assert calls[i..][1..] == calls[i + 1..];
        playerAnimation.CreateFrame(calls[i]);
        i := i + 1;
      }
      PlayerProperties.AnimationsCreated();
    }

    /** `create`: face right and start `stand1` (the rest is rendering and collider setup). */
    method Create()
      modifies this, playerAnimation
      ensures Snapshot() == FacingP(old(Snapshot()), true)
                              .(anim := Animation.PlaySpec(old(playerAnimation.Snapshot()), STAND_CLIP, old(isAttacking)))
      ensures old(playerAnimation.Snapshot()) == BuiltAnimations() && !old(isAttacking) ==> playerAnimation.Snapshot() == StartedAnimations()
    {
      PlayerProperties.StandStarted();
      SetPlayerFacingRight(true);
      var outcome := playerAnimation.PlayAnimation(STAND_CLIP, isAttacking);
    }

    /** `defineStates` on the new machine: the six `addState` calls, then `setState('idle')`. */
    method DefineStates()
      requires fsm.Snapshot() == Fsm.Initial
      modifies this, fsm, playerAnimation
      ensures Snapshot() == SetStateP(old(Snapshot()).(fsm := Fsm.Initial.(states := Registry())), IDLE, 0)
    {
      AddStates();
      SetState(IDLE, 0);
    }

    method AddStates()
      requires fsm.Snapshot() == Fsm.Initial
      modifies fsm
      ensures fsm.Snapshot() == Fsm.Initial.(states := Registry())
    {
      ghost var m := fsm.Snapshot();
      var self := fsm.AddState(IDLE, None, CodeHook, None);
      self := fsm.AddState(WALK, None, CodeHook, None);
      self := fsm.AddState(JUMP, CodeHook, CodeHook, None);
      self := fsm.AddState(SWING, CodeHook, CodeHook, CodeHook);
      self := fsm.AddState(STAB, CodeHook, CodeHook, CodeHook);
      self := fsm.AddState(ALERT, CodeHook, CodeHook, None);
      assert fsm.Snapshot() == PlayerModel.DefineStates(m);
      PlayerProperties.StatesDefined();
    }

    // -------------------------------------------------------------------
    // setState and the hooks it runs
    // -------------------------------------------------------------------

    method SetState(name: string, now: int)
      modifies this, fsm, playerAnimation
      ensures Snapshot() == SetStateP(old(Snapshot()), name, now)
      decreases if fsm.isChangingState then 1 else 6
    {
      if fsm.Disposition(name) != Fsm.Immediate {
        fsm.SetState(name);
        return;
      }
      fsm.BeginTransition();
      ExitPhase(now);
      fsm.SwitchTo(name);
      EnterPhase(now);
      fsm.EndTransition();
    }

    method ExitPhase(now: int)
      requires fsm.isChangingState
      modifies this, fsm, playerAnimation
      ensures Snapshot() == ExitPhaseP(old(Snapshot()))
      decreases 5
    {
      if fsm.currentState.Some? && fsm.currentState.value.onExit.Some? {
        fsm.LogExit();
        ExitHook(now);
      }
    }

    /** The exit hooks of `swing` and `stab`. */
    method ExitHook(now: int)
      requires fsm.isChangingState
      modifies this, fsm, playerAnimation
      ensures Snapshot() == ExitHookP(old(Snapshot()))
      decreases 4
    {
      if fsm.IsCurrentState(SWING) {
        controls := controls.(swing := false);
        isAttacking := false;
        AfterAttack(now);
      } else if fsm.IsCurrentState(STAB) {
        controls := controls.(attack := false);
        isAttacking := false;
        AfterAttack(now);
      }
    }

    /** The tail of both exit hooks: the floor state, or `jump` when airborne. */
    method AfterAttack(now: int)
      requires fsm.isChangingState
      modifies this, fsm, playerAnimation
      ensures Snapshot() == old(Snapshot()).(fsm := Fsm.RequestAll(old(fsm.Snapshot()), AfterAttackRequests(old(onFloor), old(controls))))
      decreases 3
    {
      if onFloor {
        HandleOnFloorAnimation(now);
      } else {
        fsm.SetState(JUMP);
      }
    }

    method HandleOnFloorAnimation(now: int)
      modifies this, fsm, playerAnimation
      ensures Snapshot() == FloorAnimationP(old(Snapshot()), now)
      decreases if fsm.isChangingState then 2 else 7
    {
      if !onFloor {
        return;
      }
      if controls.left || controls.right {
        SetState(WALK, now);
      } else {
        SetState(IDLE, now);
      }
    }

    method EnterPhase(now: int)
      modifies this, fsm, playerAnimation
      ensures Snapshot() == EnterPhaseP(old(Snapshot()), now)
    {
      if fsm.currentState.Some? && fsm.currentState.value.onEnter.Some? {
        fsm.LogEnter();
        EnterHook(now);
      }
    }

    /** The enter hooks of `jump`, `swing`, `stab` and `alert`. */
    method EnterHook(now: int)
      requires fsm.currentState.Some?
      modifies this, fsm, playerAnimation
      ensures Snapshot() == EnterHookP(old(Snapshot()), now)
    {
      var name := fsm.currentState.value.name;
      if name == JUMP {
        var outcome := playerAnimation.PlayAnimation(JUMP_CLIP, isAttacking);
      } else if name == SWING {
        var outcome := playerAnimation.PlayAnimation(SWING_CLIP, isAttacking);
        isAttacking := true;
        fsm.StampStartTime(now);
      } else if name == STAB {
        var outcome := playerAnimation.PlayAnimation(STAB_CLIP, isAttacking);
        isAttacking := true;
        fsm.StampStartTime(now);
      } else if name == ALERT {
        var outcome := playerAnimation.PlayAnimation(ALERT_CLIP, isAttacking);
      }
    }

    method SetPlayerFacingRight(right: bool)
      modifies this
      ensures Snapshot() == FacingP(old(Snapshot()), right)
    {
      if right {
        sprite := sprite.(flipX := true);
      } else {
        sprite := sprite.(flipX := false);
      }
    }

    // -------------------------------------------------------------------
    // Update hooks and the machine's update
    // -------------------------------------------------------------------

    method OnIdleUpdate()
      modifies playerAnimation
      ensures Snapshot() == old(Snapshot()).(anim := if onFloor then Animation.PlaySpec(old(playerAnimation.Snapshot()), STAND_CLIP, isAttacking)
                                                     else old(playerAnimation.Snapshot()))
    {
      if onFloor {
        var outcome := playerAnimation.PlayAnimation(STAND_CLIP, isAttacking);
      }
    }

    method OnWalkUpdate()
      modifies playerAnimation
      ensures Snapshot() == old(Snapshot()).(anim := if onFloor then Animation.PlaySpec(old(playerAnimation.Snapshot()), WALK_CLIP, isAttacking)
                                                     else old(playerAnimation.Snapshot()))
    {
      if onFloor {
        var outcome := playerAnimation.PlayAnimation(WALK_CLIP, isAttacking);
      }
    }

    method OnJumpUpdate(now: int)
      modifies this, fsm, playerAnimation
      ensures Snapshot() == JumpUpdateP(old(Snapshot()), now)
    {
      var outcome := playerAnimation.PlayAnimation(JUMP_CLIP, isAttacking);
      if onFloor {
        controls := controls.(jump := false);
        HandleOnFloorAnimation(now);
      }
    }

    /** The frame the current attack is at, from its startTime. */
    function CurrentFrame(now: int): (f: int)
      reads this, fsm
      ensures f == AttackFrame(now, StartTime(fsm.Snapshot()))
    {
      var start := if fsm.currentState.Some? then fsm.currentState.value.startTime else 0;
      (now - start) / FRAME_MS
    }

    method OnStabUpdate(now: int)
      modifies this
      ensures Snapshot() == StabUpdateP(old(Snapshot()), now)
    {
      var currentFrame := CurrentFrame(now);
      // The third branch comes after `>= 20` and is never taken; it only sets a local here.
      var ends := false;
      if currentFrame == 15 {
        attackZone := Hitbox(sprite.x + 110.0 * Dir(sprite.flipX), sprite.y + 30.0, 130, 25, 5, true);
      } else if currentFrame >= 20 {
        attackZone := attackZone.(inWorld := false);
      } else if currentFrame >= 40 {
        ends := true;
      }
      isAttacking := isAttacking && !ends;
    }

    method OnSwingUpdate(now: int)
      modifies this
      ensures Snapshot() == SwingUpdateP(old(Snapshot()), now)
    {
      var currentFrame := CurrentFrame(now);
      // As in the stab update, the `>= 66` branch is never taken.
      var ends := false;
      if currentFrame == 30 {
        attackZone := Hitbox(sprite.x + 70.0 * Dir(sprite.flipX), sprite.y - 30.0, 140, 150, 10, true);
      } else if currentFrame > 40 {
        attackZone := attackZone.(inWorld := false);
      } else if currentFrame >= 66 {
        ends := true;
      }
      isAttacking := isAttacking && !ends;
    }

    /** The update hook of the current state; `alert`'s only schedules a timer, an external event here. */
    method UpdateHook(now: int)
      modifies this, fsm, playerAnimation
      ensures Snapshot() == UpdateHookP(old(Snapshot()), now)
    {
      if fsm.IsCurrentState(IDLE) {
        OnIdleUpdate();
      } else if fsm.IsCurrentState(WALK) {
        OnWalkUpdate();
      } else if fsm.IsCurrentState(JUMP) {
        OnJumpUpdate(now);
      } else if fsm.IsCurrentState(STAB) {
        OnStabUpdate(now);
      } else if fsm.IsCurrentState(SWING) {
        OnSwingUpdate(now);
      }
    }

    /** `onUpdate(dt)`: one queued transition, or else the current state's update hook. */
    method OnUpdate(now: int)
      modifies this, fsm, playerAnimation
      ensures Snapshot() == FsmUpdateP(old(Snapshot()), now)
    {
      if |fsm.changeStateQueue| > 0 {
        var head := fsm.PopQueue();
        SetState(head, now);
        return;
      }
      if fsm.currentState.Some? && fsm.currentState.value.onUpdate.Some? {
        fsm.LogUpdate();
        UpdateHook(now);
      }
    }

    // -------------------------------------------------------------------
    // The per-tick handlers
    // -------------------------------------------------------------------

    method HandlePlayerAction(now: int)
      modifies this, fsm, playerAnimation
      ensures Snapshot() == HandlePlayerActionP(old(Snapshot()), now)
    {
      if damageTakenRecently {
        return;
      }
      if onFloor {
        isFastFalling := false;
      }
      MoveStep(now);
      JumpStep(now);
      AttackStep(now);
    }

    /** The horizontal-movement block of handlePlayerAction. */
    method MoveStep(now: int)
      modifies this, fsm, playerAnimation
      ensures Snapshot() == MoveStepP(old(Snapshot()), now)
    {
      if controls.left {
        sprite := sprite.(vx := -RUN_SPEED);
        if !isAttacking {
          SetPlayerFacingRight(false);
          if onFloor {
            SetState(WALK, now);
          }
        }
      } else if controls.right {
        sprite := sprite.(vx := RUN_SPEED);
        if !isAttacking {
          SetPlayerFacingRight(true);
          if onFloor {
            SetState(WALK, now);
          }
        }
      }
    }

    /** The jump / idle block of handlePlayerAction. */
    method JumpStep(now: int)
      modifies this, fsm, playerAnimation
      ensures Snapshot() == JumpStepP(old(Snapshot()), now)
    {
      if controls.jump && onFloor {
        sprite := sprite.(vy := JUMP_VELOCITY);
        if !isAttacking {
          SetState(JUMP, now);
        }
      } else if !controls.left && !controls.right && onFloor && !isAttacking && !damageTakenRecently {
        SetState(IDLE, now);
      }
    }

    /** The attack block of handlePlayerAction. */
    method AttackStep(now: int)
      modifies this, fsm, playerAnimation
      ensures Snapshot() == AttackStepP(old(Snapshot()), now)
    {
      if controls.attack && !isAttacking {
        SetState(STAB, now);
      } else if controls.swing && !isAttacking {
        SetState(SWING, now);
      }
    }

    method HandleFriction()
      modifies this
      ensures Snapshot() == FrictionP(old(Snapshot()))
    {
      if onFloor && sprite.vx > 0.0 && !controls.right {
        sprite := sprite.(vx := sprite.vx - FRICTION_STEP);
      } else if onFloor && sprite.vx < 0.0 && !controls.left {
        sprite := sprite.(vx := sprite.vx + FRICTION_STEP);
      }
    }

    method BetterJumping()
      modifies this
      ensures Snapshot() == BetterJumpingP(old(Snapshot()))
    {
      if sprite.vy > 0.0 && !startedFallingFromJump {
        startedFallingFromJump := true;
        if isFastFalling {
          sprite := sprite.(vy := sprite.vy + sprite.vy * FAST_FALL_MULTIPLIER);
        } else {
          sprite := sprite.(vy := sprite.vy + (sprite.vy * FALL_MULTIPLIER - 1.0));
        }
      } else if sprite.vy < 0.0 && !controls.jump {
        sprite := sprite.(vy := sprite.vy + sprite.vy * (LOW_JUMP_MULTIPLIER - 1.0));
        startedFallingFromJump := false;
      }
    }

    /** The stick part of handleGamepadControls; `stick` is None when no pad is connected. */
    method HandleGamepadControls(stick: Option<Stick>)
      modifies this
      ensures Snapshot() == GamepadP(old(Snapshot()), stick)
    {
      if stick.Some? {
        var joyStick := stick.value;
        if joyStick.x > DEAD_ZONE_X {
          controls := controls.(right := true);
        } else {
          controls := controls.(right := false);
        }
        if joyStick.x < -DEAD_ZONE_X {
          controls := controls.(left := true);
        } else {
          controls := controls.(left := false);
        }
        if joyStick.y > DEAD_ZONE_Y {
          isFastFalling := true;
        }
      }
    }

    /** `update(dt)`, with the stick reading and the clock as inputs. */
    method Update(stick: Option<Stick>, now: int)
      modifies this, fsm, playerAnimation
      ensures Snapshot() == TickP(old(Snapshot()), stick, now)
    {
      HandleGamepadControls(stick);
      HandlePlayerAction(now);
      HandleFriction();
      BetterJumping();
      Sync();
      OnUpdate(now);
    }

    /** Mirror the sprite into position, velocity and the grounded flag. */
    method Sync()
      modifies this
      ensures Snapshot() == SyncP(old(Snapshot()))
    {
      position := Point(sprite.x, sprite.y);
      velocity := Point(sprite.vx, sprite.vy);
      onFloor := sprite.onFloorRaw && sprite.vy == 0.0;
    }

    // -------------------------------------------------------------------
    // Damage, timers and animation completion
    // -------------------------------------------------------------------

    /**
     * `onDamageTaken(attack, attacker)`: `attackerX` is the attacker's
     * sprite x; the attacker's hitbox, which the source shrinks in place,
     * is passed in and returned.
     */
    method OnDamageTaken(attack: Hitbox, attackerX: real, now: int) returns (attackAfter: Hitbox)
      modifies this, fsm, playerAnimation
      ensures Hit(Snapshot(), attackAfter) == DamageP(old(Snapshot()), attack, attackerX, now)
    {
      attackAfter := attack;
      if !damageTakenRecently {
        Hurt(attack.damage);
        attackAfter := attackAfter.(width := 0, height := 0);
        SetState(ALERT, now);
        Knockback(attackerX);
      }
    }

    /** Health, the own attack zone and hit-stun, as onDamageTaken first sets them. */
    method Hurt(damage: int)
      modifies this
      ensures Snapshot() == HurtP(old(Snapshot()), damage)
    {
      hp := hp - damage;
      attackZone := attackZone.(inWorld := false);
      damageTakenRecently := true;
    }

    /** The knockback of onDamageTaken. */
    method Knockback(attackerX: real)
      modifies this
      ensures Snapshot() == KnockbackP(old(Snapshot()), attackerX)
    {
      if attackerX > sprite.x {
        sprite := sprite.(vx := sprite.vx - KNOCKBACK);
        SetPlayerFacingRight(false);
      } else {
        sprite := sprite.(vx := sprite.vx + KNOCKBACK);
        SetPlayerFacingRight(true);
      }
    }

    /** The hit-stun timer of onDamageTaken firing. */
    method OnDamageTimerFired()
      modifies this
      ensures Snapshot() == DamageTimerP(old(Snapshot()))
    {
      damageTakenRecently := false;
    }

    /** The 500 ms timer scheduled by the `alert` update firing. */
    method OnAlertTimerFired(now: int)
      modifies this, fsm, playerAnimation
      ensures Snapshot() == AlertTimerP(old(Snapshot()), now)
    {
      SetState(IDLE, now);
    }

    /** The ANIMATION_COMPLETE listener of the animation helper, for clip `key`. */
    method OnAnimationComplete(key: string, now: int)
      modifies this, fsm, playerAnimation
      ensures Snapshot() == AnimationCompleteP(old(Snapshot()), key, now)
    {
      if playerAnimation.IsAttackAnimation(key) {
        isAttacking := false;
        if !controls.left && !controls.right && onFloor && !damageTakenRecently {
          SetState(IDLE, now);
        } else if !onFloor {
          SetState(JUMP, now);
        }
      }
    }
  }
}
