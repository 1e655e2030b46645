/**
 * Properties of the character controller of src/classes/Player.ts, stated
 * over the functions of module PlayerModel.
 */
module PlayerProperties {
  import opened Wrappers
  import Fsm
  import Animation
  import opened PlayerModel

  // ---------------------------------------------------------------------
  // setState
  // ---------------------------------------------------------------------

  lemma ExitPhaseFsm(p: PlayerView, p1: PlayerView)
    requires p1 == BeginP(p)
    ensures ExitPhaseP(p1).fsm ==
      (if Fsm.HasExit(p1.fsm) then Fsm.RequestAll(Fsm.ExitLogged(p1.fsm), ExitReqs(p)) else p1.fsm)
  {
    assert ExitReqs(p1) == ExitReqs(p);
  }

  lemma TransitionNoEnterRequests(m: Fsm.Machine, name: string, exitReqs: seq<string>)
    requires name in m.states
    ensures var m1 := Fsm.Began(m);
      var m2 := if Fsm.HasExit(m1) then Fsm.RequestAll(Fsm.ExitLogged(m1), exitReqs) else m1;
      var m3 := Fsm.Switched(m2, name);
      Fsm.TransitionWith(m, name, exitReqs, []) == Fsm.Ended(if Fsm.HasEnter(m3) then Fsm.EnterLogged(m3) else m3)
  {
    var m1 := Fsm.Began(m);
    var m2 := if Fsm.HasExit(m1) then Fsm.RequestAll(Fsm.ExitLogged(m1), exitReqs) else m1;
    var m3 := Fsm.Switched(m2, name);
    assert Fsm.RequestAll(Fsm.EnterLogged(m3), []) == Fsm.EnterLogged(m3);
  }

  /**
   * On the machine, the controller's setState is the generic transition in
   * which an attack state's exit hook issues its one request and no enter
   * hook issues any; entering an attack state also stamps its startTime.
   */
  lemma {:induction false} SetStateFsm(p: PlayerView, name: string, now: int)
    requires Fsm.Classify(p.fsm, name) == Fsm.Immediate
    requires p.fsm.states[name].name == name
    requires AttackState(name) ==> p.fsm.states[name].onEnter.Some?
    ensures var t := Fsm.TransitionWith(p.fsm, name, ExitReqs(p), []);
      SetStateP(p, name, now).fsm == (if AttackState(name) then Stamped(t, now) else t)
  {
    var p1 := BeginP(p);
    var p2 := ExitPhaseP(p1);
    ExitPhaseFsm(p, p1);
    var p3 := SwitchP(p2, name);
    assert InAttackState(p3.fsm) == AttackState(name);
    TransitionNoEnterRequests(p.fsm, name, ExitReqs(p));
  }

  /** The controller side of a transition: lockout, attack keys and clip. */
  lemma {:induction false} SetStateHooks(p: PlayerView, name: string, now: int)
    requires Fsm.Classify(p.fsm, name) == Fsm.Immediate
    requires Fsm.HasExit(p.fsm) <==> InAttackState(p.fsm)
    requires p.fsm.states[name].name == name
    requires p.fsm.states[name].onEnter.Some? <==> EnterClip(name).Some?
    requires AttackState(name) ==> EnterClip(name).Some?
    ensures var r := SetStateP(p, name, now);
      && r.isAttacking == (AttackState(name) || (p.isAttacking && !InAttackState(p.fsm)))
      && r.controls == ExitControls(p)
      && r.anim == (if EnterClip(name).Some?
                    then Animation.PlaySpec(p.anim, EnterClip(name).value, p.isAttacking && !InAttackState(p.fsm))
                    else p.anim)
  {
    var p1 := BeginP(p);
    var p2 := ExitPhaseP(p1);
    assert ExitControls(p1) == ExitControls(p);
    assert !InAttackState(p.fsm) ==> ExitControls(p) == p.controls;
    var p3 := SwitchP(p2, name);
    assert InAttackState(p3.fsm) == AttackState(name);
  }

  /** The requests of an attack state's exit hook all reach the queue. */
  lemma {:induction false} ExitRequestsAccepted(p: PlayerView)
    requires Consistent(p)
    ensures Fsm.Accepted(p.fsm, ExitReqs(p)) == ExitReqs(p)
  {
    var rs := ExitReqs(p);
    if rs != [] {
      assert rs[..0] == [];
      assert Fsm.Accepted(p.fsm, rs) == Fsm.Accepted(p.fsm, []) + [rs[0]];
    }
  }

  /** The machine side of a transition whose exit requests are all accepted. */
  lemma {:induction false} TransitionAccepting(p: PlayerView, name: string, now: int)
    requires Fsm.Classify(p.fsm, name) == Fsm.Immediate
    requires p.fsm.states[name].name == name
    requires AttackState(name) ==> p.fsm.states[name].onEnter.Some?
    requires Fsm.HasExit(p.fsm) ==> Fsm.Accepted(p.fsm, ExitReqs(p)) == ExitReqs(p)
    requires !Fsm.HasExit(p.fsm) ==> ExitReqs(p) == []
    ensures var r := SetStateP(p, name, now).fsm;
      && r.current == Some(if AttackState(name) then p.fsm.states[name].(startTime := now) else p.fsm.states[name])
      && r.previous == p.fsm.current
      && r.queue == p.fsm.queue + ExitReqs(p)
      && r.calls == p.fsm.calls + Fsm.ExitCalls(p.fsm) + Fsm.EnterCalls(p.fsm.states[name])
      && r.states == p.fsm.states && !r.changing
  {
    SetStateFsm(p, name, now);
    Fsm.TransitionOutcome(p.fsm, name, ExitReqs(p), []);
  }

  /** The machine side of a transition under the invariant. */
  lemma {:induction false} SetStateMachine(p: PlayerView, name: string, now: int)
    requires Consistent(p) && name in Registry() && !Fsm.IsCurrent(p.fsm, name)
    ensures var r := SetStateP(p, name, now).fsm;
      && r.current == Some(if AttackState(name) then Registry()[name].(startTime := now) else Registry()[name])
      && r.previous == p.fsm.current
      && r.queue == p.fsm.queue + ExitReqs(p)
      && r.calls == p.fsm.calls + Fsm.ExitCalls(p.fsm) + Fsm.EnterCalls(Registry()[name])
      && r.states == Registry() && !r.changing
  {
    var cur := p.fsm.current.value;
    assert cur.onExit == Registry()[cur.name].onExit;
    if Fsm.HasExit(p.fsm) {
      ExitRequestsAccepted(p);
    }
    TransitionAccepting(p, name, now);
  }

  /**
   * A transition to a registered state other than the current one: the
   * state becomes current (stamped with `now` when it is an attack state),
   * the old one previous; an old attack state's exit clears its key and
   * the lockout and queues the floor state (or `jump`); the new state's
   * enter hook selects its clip and an attack state sets the lockout; the
   * invariant is kept.
   */
  lemma {:induction false} SetStateResult(p: PlayerView, name: string, now: int)
    requires Consistent(p) && name in Registry() && !Fsm.IsCurrent(p.fsm, name)
    ensures var r := SetStateP(p, name, now);
      && Consistent(r)
      && Fsm.IsCurrent(r.fsm, name)
      && r.fsm.current.value.startTime == (if AttackState(name) then now else 0)
      && r.fsm.previous == p.fsm.current
      && r.fsm.queue == p.fsm.queue + ExitReqs(p)
      && r.fsm.calls == p.fsm.calls + Fsm.ExitCalls(p.fsm) + Fsm.EnterCalls(Registry()[name])
      && r.isAttacking == (AttackState(name) || (p.isAttacking && !InAttackState(p.fsm)))
      && r.controls == ExitControls(p)
      && r.anim == (if EnterClip(name).Some?
                    then Animation.PlaySpec(p.anim, EnterClip(name).value, p.isAttacking && !InAttackState(p.fsm))
                    else p.anim)
  {
    SetStateHooksApply(p, name);
    SetStateHooks(p, name, now);
    SetStateMachine(p, name, now);
    SetStateTransitionKeepsConsistent(p, name, now);
  }

  /** The controller invariant gives what SetStateHooks needs of a registered, non-current target. */
  lemma SetStateHooksApply(p: PlayerView, name: string)
    requires Consistent(p) && name in Registry() && !Fsm.IsCurrent(p.fsm, name)
    ensures Fsm.Classify(p.fsm, name) == Fsm.Immediate
    ensures Fsm.HasExit(p.fsm) <==> InAttackState(p.fsm)
    ensures p.fsm.states[name].name == name
    ensures p.fsm.states[name].onEnter.Some? <==> EnterClip(name).Some?
    ensures AttackState(name) ==> EnterClip(name).Some?
  {
    var cur := p.fsm.current.value;
    assert cur.onExit == Registry()[cur.name].onExit;
  }

  /** A request for an unknown or the current state changes nothing. */
  lemma SetStateIgnored(p: PlayerView, name: string, now: int)
    requires Consistent(p) && (name !in Registry() || Fsm.IsCurrent(p.fsm, name))
    ensures SetStateP(p, name, now) == p
  {
  }

  /** What a transition leaves of the machine invariant. */
  lemma MachineOkAfterTransition(m: Fsm.Machine, r: Fsm.Machine, name: string, now: int, extra: seq<string>)
    requires MachineOk(m) && name in Registry()
    requires r.current == Some(if AttackState(name) then Registry()[name].(startTime := now) else Registry()[name])
    requires r.queue == m.queue + extra && (forall i :: 0 <= i < |extra| ==> extra[i] in Registry())
    requires r.states == Registry() && !r.changing
    ensures MachineOk(r)
  {
  }

  /** The animation part of the invariant depends only on what the hooks keep. */
  lemma AnimationOkKept(p: PlayerView, r: PlayerView)
    requires AnimationOk(p.anim) && HooksKeep(p, r)
    ensures AnimationOk(r.anim)
  {
  }

  /** Every setState keeps the invariant, and a registered name ends up current. */
  lemma {:induction false} SetStateKeepsConsistent(p: PlayerView, name: string, now: int)
    requires Consistent(p)
    ensures Consistent(SetStateP(p, name, now))
    ensures name in Registry() ==> Fsm.IsCurrent(SetStateP(p, name, now).fsm, name)
  {
    if name in Registry() && !Fsm.IsCurrent(p.fsm, name) {
      SetStateTransitionKeepsConsistent(p, name, now);
    } else {
      SetStateIgnored(p, name, now);
    }
  }

  lemma {:induction false} SetStateTransitionKeepsConsistent(p: PlayerView, name: string, now: int)
    requires Consistent(p) && name in Registry() && !Fsm.IsCurrent(p.fsm, name)
    ensures Consistent(SetStateP(p, name, now)) && Fsm.IsCurrent(SetStateP(p, name, now).fsm, name)
  {
    var r := SetStateP(p, name, now);
    SetStateMachine(p, name, now);
    assert forall i :: 0 <= i < |ExitReqs(p)| ==> ExitReqs(p)[i] in Registry();
    MachineOkAfterTransition(p.fsm, r.fsm, name, now, ExitReqs(p));
    AnimationOkKept(p, r);
  }

  /** A non-attack transition never sets the lockout and never sets an attack key. */
  lemma {:induction false} SetStateNoLockout(p: PlayerView, name: string, now: int)
    requires Consistent(p) && !AttackState(name)
    ensures var r := SetStateP(p, name, now);
      && (r.isAttacking ==> p.isAttacking)
      && (r.controls.attack ==> p.controls.attack) && (r.controls.swing ==> p.controls.swing)
  {
    if name in Registry() && !Fsm.IsCurrent(p.fsm, name) {
      SetStateResult(p, name, now);
    }
  }

  // ---------------------------------------------------------------------
  // Construction
  // ---------------------------------------------------------------------

  /** `defineStates` on a new machine registers exactly the six states of Registry. */
  lemma StatesDefined()
    ensures DefineStates(Fsm.Initial) == Fsm.Initial.(states := Registry())
  {
  }

  /** `createAnimations` builds exactly the clip and data tables listed in the model. */
  lemma AnimationsCreated()
    ensures CreateAnimations(Animation.Empty, FrameCalls()) == BuiltAnimations()
  {
  }

  /** `create`'s `playAnimation('stand1')` on those tables starts `stand1` at frame 1, with its size and offset. */
  lemma StandStarted()
    ensures Animation.PlaySpec(BuiltAnimations(), STAND_CLIP, false) == StartedAnimations()
  {
  }

  // ---------------------------------------------------------------------
  // Every handler keeps the invariant
  // ---------------------------------------------------------------------

  /** Setting the speed and facing keeps the invariant. */
  lemma HeadingKeepsConsistent(p: PlayerView, vx: real, right: bool)
    requires Consistent(p)
    ensures Consistent(FacingP(WithVx(p, vx), right))
  {
  }

  lemma {:induction false} HeadingStepKeepsConsistent(p: PlayerView, vx: real, right: bool, now: int)
    requires Consistent(p)
    ensures Consistent(HeadingP(WithVx(p, vx), right, now))
  {
    HeadingKeepsConsistent(p, vx, right);
    SetStateKeepsConsistent(FacingP(WithVx(p, vx), right), WALK, now);
  }

  lemma {:induction false} MoveStepKeepsConsistent(p: PlayerView, now: int)
    requires Consistent(p)
    ensures Consistent(MoveStepP(p, now))
  {
    HeadingStepKeepsConsistent(p, -RUN_SPEED, false, now);
    HeadingStepKeepsConsistent(p, RUN_SPEED, true, now);
  }

  lemma {:induction false} JumpStepKeepsConsistent(p: PlayerView, now: int)
    requires Consistent(p)
    ensures Consistent(JumpStepP(p, now))
  {
    SetStateKeepsConsistent(WithVy(p, JUMP_VELOCITY), JUMP, now);
    SetStateKeepsConsistent(p, IDLE, now);
  }

  lemma {:induction false} AttackStepKeepsConsistent(p: PlayerView, now: int)
    requires Consistent(p)
    ensures Consistent(AttackStepP(p, now))
  {
    SetStateKeepsConsistent(p, STAB, now);
    SetStateKeepsConsistent(p, SWING, now);
  }

  lemma {:induction false} HandlePlayerActionKeepsConsistent(p: PlayerView, now: int)
    requires Consistent(p)
    ensures Consistent(HandlePlayerActionP(p, now))
  {
    if !p.combat.damageTakenRecently {
      var p1 := MoveStepP(LandedP(p), now);
      MoveStepKeepsConsistent(LandedP(p), now);
      JumpStepKeepsConsistent(p1, now);
      AttackStepKeepsConsistent(JumpStepP(p1, now), now);
    }
  }

  /** Reselecting a clip keeps the invariant. */
  lemma ClipKeepsConsistent(p: PlayerView, key: string)
    requires Consistent(p)
    ensures Consistent(p.(anim := Animation.PlaySpec(p.anim, key, p.isAttacking)))
  {
  }

  lemma {:induction false} JumpUpdateKeepsConsistent(p: PlayerView, now: int)
    requires Consistent(p)
    ensures Consistent(JumpUpdateP(p, now))
  {
    var q := p.(anim := Animation.PlaySpec(p.anim, JUMP_CLIP, p.isAttacking));
    ClipKeepsConsistent(p, JUMP_CLIP);
    SetStateKeepsConsistent(q.(controls := q.controls.(jump := false)), FloorState(q.controls), now);
  }

  lemma StabUpdateKeepsConsistent(p: PlayerView, now: int)
    requires Consistent(p)
    ensures Consistent(StabUpdateP(p, now))
  {
  }

  lemma SwingUpdateKeepsConsistent(p: PlayerView, now: int)
    requires Consistent(p)
    ensures Consistent(SwingUpdateP(p, now))
  {
  }

  lemma {:induction false} UpdateHookKeepsConsistent(p: PlayerView, now: int)
    requires Consistent(p)
    ensures Consistent(UpdateHookP(p, now))
  {
    if Fsm.IsCurrent(p.fsm, IDLE) {
      ClipKeepsConsistent(p, STAND_CLIP);
    } else if Fsm.IsCurrent(p.fsm, WALK) {
      ClipKeepsConsistent(p, WALK_CLIP);
    } else if Fsm.IsCurrent(p.fsm, JUMP) {
      JumpUpdateKeepsConsistent(p, now);
    } else if Fsm.IsCurrent(p.fsm, STAB) {
      StabUpdateKeepsConsistent(p, now);
    } else if Fsm.IsCurrent(p.fsm, SWING) {
      SwingUpdateKeepsConsistent(p, now);
    }
  }

  lemma {:induction false} FsmUpdateKeepsConsistent(p: PlayerView, now: int)
    requires Consistent(p)
    ensures Consistent(FsmUpdateP(p, now))
  {
    if |p.fsm.queue| > 0 {
      assert Consistent(PoppedP(p));
      SetStateKeepsConsistent(PoppedP(p), p.fsm.queue[0], now);
    } else if p.fsm.current.Some? && p.fsm.current.value.onUpdate.Some? {
      assert Consistent(UpdateLoggedP(p));
      UpdateHookKeepsConsistent(UpdateLoggedP(p), now);
    }
  }

  /** One `update(dt)` keeps the invariant. */
  lemma {:induction false} TickKeepsConsistent(p: PlayerView, stick: Option<Stick>, now: int)
    requires Consistent(p)
    ensures Consistent(TickP(p, stick, now))
  {
    var p1 := HandlePlayerActionP(GamepadP(p, stick), now);
    HandlePlayerActionKeepsConsistent(GamepadP(p, stick), now);
    FsmUpdateKeepsConsistent(SyncP(BetterJumpingP(FrictionP(p1))), now);
  }

  /** Neither health and hit-stun nor knockback touch the invariant. */
  lemma HurtKeepsConsistent(p: PlayerView, damage: int, attackerX: real)
    requires Consistent(p)
    ensures Consistent(HurtP(p, damage)) && Consistent(KnockbackP(p, attackerX))
  {
  }

  /** A hit keeps the invariant. */
  lemma {:induction false} DamageKeepsConsistent(p: PlayerView, attack: Hitbox, attackerX: real, now: int)
    requires Consistent(p)
    ensures Consistent(DamageP(p, attack, attackerX, now).player)
  {
    if !p.combat.damageTakenRecently {
      HurtKeepsConsistent(p, attack.damage, attackerX);
      SetStateKeepsConsistent(HurtP(p, attack.damage), ALERT, now);
      HurtKeepsConsistent(SetStateP(HurtP(p, attack.damage), ALERT, now), 0, attackerX);
    }
  }

  /** Both timers keep the invariant. */
  lemma {:induction false} TimersKeepConsistent(p: PlayerView, now: int)
    requires Consistent(p)
    ensures Consistent(DamageTimerP(p))
    ensures Consistent(AlertTimerP(p, now))
  {
    SetStateKeepsConsistent(p, IDLE, now);
  }

  /** An animation's completion keeps the invariant. */
  lemma {:induction false} CompletionKeepsConsistent(p: PlayerView, key: string, now: int)
    requires Consistent(p)
    ensures Consistent(AnimationCompleteP(p, key, now))
  {
    var q := p.(isAttacking := false);
    var req := Animation.CompletionRequest(true, q.controls.left, q.controls.right, q.phys.onFloor,
                                           q.combat.damageTakenRecently);
    if req.Some? {
      SetStateKeepsConsistent(q, req.value, now);
    }
  }
}
