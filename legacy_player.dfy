/**
 * The older controller of src/objects/Player.ts: four states on the
 * machine of src/objects/StateMachine.ts, driven by the arrow keys and
 * space. Its hooks are code; none of them runs during a transition and
 * issues a request, so the machine's queue is never used.
 *
 * The sprite is the record Sprite; the keys are an input to every update;
 * playing a clip is recorded as the key last played.
 */
module Legacy {
  import opened Wrappers
  import Fsm

  const IDLE := "idle"
  const WALK := "walk"
  const JUMP := "jump"
  const SWING := "swing"

  const RUN_SPEED: real := 300.0
  const JUMP_VELOCITY: real := -500.0

  /** The `cursors` keys of the scene. */
  datatype Keys = Keys(left: bool, right: bool, up: bool, space: bool)

  /**
   * The sprite: its body's velocity, its facing, the engine's floor contact,
   * the clip it last started and its own `state` property.
   */
  datatype Sprite = Sprite(vx: real, vy: real, flipX: bool, onFloor: bool, playing: Option<string>,
                           spriteState: Option<string>)

  datatype LegacyView = LegacyView(sprite: Sprite, fsm: Fsm.Machine)

  const CodeHook: Option<Fsm.Hook> := Some(Fsm.Hook([]))

  /** The four states of the constructor: `swing` has an enter hook only, and no state has an exit hook. */
  function Registry(): (r: map<string, Fsm.StateDef>)
    ensures r.Keys == {IDLE, WALK, JUMP, SWING}
    ensures forall k :: k in r ==> r[k].name == k && r[k].onEnter.Some? && r[k].onExit.None?
    ensures forall k :: k in r ==> (r[k].onUpdate.Some? <==> k != SWING)
  {
    map[IDLE := Fsm.StateDef(IDLE, CodeHook, CodeHook, None, 0),
        WALK := Fsm.StateDef(WALK, CodeHook, CodeHook, None, 0),
        JUMP := Fsm.StateDef(JUMP, CodeHook, CodeHook, None, 0),
        SWING := Fsm.StateDef(SWING, CodeHook, None, None, 0)]
  }

  /** The four `addState` calls, in order. */
  function RegisterStates(m: Fsm.Machine): (r: Fsm.Machine)
    ensures r.states.Keys == m.states.Keys + {IDLE, WALK, JUMP, SWING}
    ensures r == m.(states := r.states)
  {
    var m1 := Fsm.AddStateSpec(m, IDLE, CodeHook, CodeHook, None);
    var m2 := Fsm.AddStateSpec(m1, WALK, CodeHook, CodeHook, None);
    var m3 := Fsm.AddStateSpec(m2, JUMP, CodeHook, CodeHook, None);
    Fsm.AddStateSpec(m3, SWING, CodeHook, None, None)
  }

  function Play(s: Sprite, key: string): Sprite
  {
    s.(playing := Some(key))
  }

  /**
   * The enter hooks: `idle` plays its clip and stops horizontally,
   * `walk` plays its clip, `jump` plays its clip and launches upward at
   * 500, `swing` plays its clip and stops horizontally.
   */
  function EnterEffect(s: Sprite, name: string): (r: Sprite)
    ensures name in Registry() ==> r.playing == Some(name)
    ensures name == IDLE || name == SWING ==> r.vx == 0.0 && r.vy == s.vy
    ensures name == JUMP ==> r.vy == JUMP_VELOCITY && r.vx == s.vx
    ensures name == WALK ==> r.vx == s.vx && r.vy == s.vy
    ensures r.flipX == s.flipX && r.onFloor == s.onFloor && r.spriteState == s.spriteState
  {
    if name == IDLE then Play(s, IDLE).(vx := 0.0)
    else if name == WALK then Play(s, WALK)
    else if name == JUMP then Play(s, JUMP).(vy := JUMP_VELOCITY)
    else if name == SWING then Play(s, SWING).(vx := 0.0)
    else s
  }

  /** The enter step of a transition: log and run the new state's enter hook. */
  function EnterPhaseL(v: LegacyView): (r: LegacyView)
    ensures !Fsm.HasEnter(v.fsm) ==> r == v
    ensures Fsm.HasEnter(v.fsm) ==> r.sprite == EnterEffect(v.sprite, v.fsm.current.value.name)
    ensures r.fsm.states == v.fsm.states && r.fsm.current == v.fsm.current && r.fsm.queue == v.fsm.queue
  {
    if Fsm.HasEnter(v.fsm) then LegacyView(EnterEffect(v.sprite, v.fsm.current.value.name), Fsm.EnterLogged(v.fsm))
    else v
  }

  /**
   * `setState(name)` with these hooks. An exit step would only be logged,
   * since no state defines an exit hook, and no hook runs while the flag
   * is set and issues a request.
   */
  function SetStateL(v: LegacyView, name: string): (r: LegacyView)
    ensures r.fsm.states == v.fsm.states && r.fsm.changing == v.fsm.changing
    ensures Fsm.Classify(v.fsm, name) != Fsm.Immediate ==> r.sprite == v.sprite
  {
    if Fsm.Classify(v.fsm, name) != Fsm.Immediate then v.(fsm := Fsm.SetStateSpec(v.fsm, name))
    else
      var m1 := Fsm.Began(v.fsm);
      var m2 := if Fsm.HasExit(m1) then Fsm.ExitLogged(m1) else m1;
      var e := EnterPhaseL(v.(fsm := Fsm.Switched(m2, name)));
      e.(fsm := Fsm.Ended(e.fsm))
  }

  /**
   * `handleLateralMovement`: left runs left, else right runs right
   * (facing with it); with neither held and the body on the floor,
   * request `idle`.
   */
  function LateralL(v: LegacyView, k: Keys): (r: LegacyView)
    ensures r.fsm.states == v.fsm.states && r.sprite.onFloor == v.sprite.onFloor
    ensures k.left ==> r.sprite.vx == -RUN_SPEED && !r.sprite.flipX && r.fsm == v.fsm
    ensures !k.left && k.right ==> r.sprite.vx == RUN_SPEED && r.sprite.flipX && r.fsm == v.fsm
  {
    var s := v.sprite;
    var moved := if k.left then s.(vx := -RUN_SPEED, flipX := false)
                 else if k.right then s.(flipX := true, vx := RUN_SPEED)
                 else s;
    var w := v.(sprite := moved);
    if !k.left && !k.right && moved.onFloor then SetStateL(w, IDLE) else w
  }

  /**
   * `onIdleUpdate`. Space calls the sprite's own `setState`, which only
   * sets the sprite's `state` property; the machine does not move.
   */
  function IdleUpdateL(v: LegacyView, k: Keys): (r: LegacyView)
    ensures r.fsm.states == v.fsm.states
  {
    var a := LateralL(v, k);
    var b := if k.space then a.(sprite := a.sprite.(spriteState := Some(SWING))) else a;
    if k.up && b.sprite.onFloor then SetStateL(b, JUMP) else b
  }

  /** `onWalkUpdate`: movement, maybe `jump`, then `swing` on space and `idle` otherwise. */
  function WalkUpdateL(v: LegacyView, k: Keys): (r: LegacyView)
    ensures r.fsm.states == v.fsm.states
  {
    var a := LateralL(v, k);
    var b := if k.up && a.sprite.onFloor then SetStateL(a, JUMP) else a;
    if k.space then SetStateL(b, SWING) else SetStateL(b, IDLE)
  }

  /** `onJumpUpdate`: movement; on the floor, `idle` when at rest in both axes, else `walk`. */
  function JumpUpdateL(v: LegacyView, k: Keys): (r: LegacyView)
    ensures r.fsm.states == v.fsm.states
    ensures !v.sprite.onFloor ==> r.fsm == v.fsm
  {
    var a := LateralL(v, k);
    if !a.sprite.onFloor then a
    else if a.sprite.vy == 0.0 && a.sprite.vx == 0.0 then SetStateL(a, IDLE)
    else SetStateL(a, WALK)
  }

  function UpdateHookL(v: LegacyView, k: Keys): (r: LegacyView)
    ensures r.fsm.states == v.fsm.states
    ensures Fsm.IsCurrent(v.fsm, SWING) ==> r == v
  {
    if Fsm.IsCurrent(v.fsm, IDLE) then IdleUpdateL(v, k)
    else if Fsm.IsCurrent(v.fsm, WALK) then WalkUpdateL(v, k)
    else if Fsm.IsCurrent(v.fsm, JUMP) then JumpUpdateL(v, k)
    else v
  }

  /** The machine's `update(dt)` with these hooks. */
  function UpdateL(v: LegacyView, k: Keys): (r: LegacyView)
    ensures r.fsm.states == v.fsm.states
  {
    if |v.fsm.queue| > 0 then SetStateL(v.(fsm := v.fsm.(queue := v.fsm.queue[1..])), v.fsm.queue[0])
    else if v.fsm.current.Some? && v.fsm.current.value.onUpdate.Some? then
      UpdateHookL(v.(fsm := v.fsm.(calls := v.fsm.calls + [Fsm.Updated(v.fsm.current.value.name)])), k)
    else v
  }

  /** `update` called once per tick with the keys of each tick. */
  function UpdatesL(v: LegacyView, ks: seq<Keys>): (r: LegacyView)
    ensures r.fsm.states == v.fsm.states
    decreases |ks|
  {
    if ks == [] then v else UpdatesL(UpdateL(v, ks[0]), ks[1..])
  }

  /** The constructor: the four states, then `setState('idle')`. */
  function InitialL(s: Sprite): (r: LegacyView)
    ensures r.fsm.states == Registry() && !r.fsm.changing
  {
    SetStateL(LegacyView(s, Fsm.Initial.(states := Registry())), IDLE)
  }

  /** The four `addState` calls on a new machine build exactly the registry above. */
  lemma StatesAdded()
    ensures RegisterStates(Fsm.Initial) == Fsm.Initial.(states := Registry())
  {
  }

  // ---------------------------------------------------------------------
  // The invariant and its preservation
  // ---------------------------------------------------------------------

  /** The registry is the constructor's, no transition is in progress, the queue is empty, and a state is current. */
  ghost predicate Inv(v: LegacyView)
  {
    && v.fsm.states == Registry()
    && !v.fsm.changing
    && v.fsm.queue == []
    && v.fsm.current.Some?
    && v.fsm.current.value.name in Registry()
    && v.fsm.current.value == Registry()[v.fsm.current.value.name]
  }

  /** What a transition does under the invariant. */
  lemma {:induction false} SetStateOutcome(v: LegacyView, name: string)
    requires Inv(v)
    ensures var r := SetStateL(v, name);
      && Inv(r)
      && (name in Registry() ==> Fsm.IsCurrent(r.fsm, name))
      && (name !in Registry() || Fsm.IsCurrent(v.fsm, name) ==> r == v)
      && (name in Registry() && !Fsm.IsCurrent(v.fsm, name) ==>
            r.sprite == EnterEffect(v.sprite, name) && r.fsm.previous == v.fsm.current)
  {
    if name in Registry() && !Fsm.IsCurrent(v.fsm, name) {
      var m1 := Fsm.Began(v.fsm);
      assert !Fsm.HasExit(m1);
      assert Fsm.HasEnter(Fsm.Switched(m1, name));
    }
  }

  lemma {:induction false} LateralKeepsInv(v: LegacyView, k: Keys)
    requires Inv(v)
    ensures Inv(LateralL(v, k))
  {
    var s := v.sprite;
    var moved := if k.left then s.(vx := -RUN_SPEED, flipX := false)
                 else if k.right then s.(flipX := true, vx := RUN_SPEED)
                 else s;
    SetStateOutcome(v.(sprite := moved), IDLE);
  }

  lemma {:induction false} IdleUpdateKeepsInv(v: LegacyView, k: Keys)
    requires Inv(v)
    ensures Inv(IdleUpdateL(v, k))
  {
    LateralKeepsInv(v, k);
    var a := LateralL(v, k);
    var b := if k.space then a.(sprite := a.sprite.(spriteState := Some(SWING))) else a;
    SetStateOutcome(b, JUMP);
  }

  lemma {:induction false} WalkUpdateKeepsInv(v: LegacyView, k: Keys)
    requires Inv(v)
    ensures Inv(WalkUpdateL(v, k))
  {
    LateralKeepsInv(v, k);
    var a := LateralL(v, k);
    SetStateOutcome(a, JUMP);
    var b := if k.up && a.sprite.onFloor then SetStateL(a, JUMP) else a;
    SetStateOutcome(b, SWING);
    SetStateOutcome(b, IDLE);
  }

  lemma {:induction false} JumpUpdateKeepsInv(v: LegacyView, k: Keys)
    requires Inv(v)
    ensures Inv(JumpUpdateL(v, k))
  {
    LateralKeepsInv(v, k);
    SetStateOutcome(LateralL(v, k), IDLE);
    SetStateOutcome(LateralL(v, k), WALK);
  }

  /** Every update keeps the invariant; in particular the queue stays empty. */
  lemma {:induction false} UpdateKeepsInv(v: LegacyView, k: Keys)
    requires Inv(v)
    ensures Inv(UpdateL(v, k))
    ensures UpdateL(v, k).fsm.queue == []
  {
    if v.fsm.current.value.onUpdate.Some? {
      var w := v.(fsm := v.fsm.(calls := v.fsm.calls + [Fsm.Updated(v.fsm.current.value.name)]));
      assert Inv(w);
      IdleUpdateKeepsInv(w, k);
      WalkUpdateKeepsInv(w, k);
      JumpUpdateKeepsInv(w, k);
    }
  }

  /** The constructor establishes the invariant with `idle` current and its enter effect applied. */
  lemma {:induction false} InitialOutcome(s: Sprite)
    ensures var r := InitialL(s);
      && Inv(r) && Fsm.IsCurrent(r.fsm, IDLE) && r.fsm.previous.None?
      && r.sprite == s.(playing := Some(IDLE), vx := 0.0)
  {
    var m := Fsm.Initial.(states := Registry());
    var m1 := Fsm.Began(m);
    assert !Fsm.HasExit(m1);
    assert Fsm.HasEnter(Fsm.Switched(m1, IDLE));
  }

  // ---------------------------------------------------------------------
  // Behaviour
  // ---------------------------------------------------------------------

  /**
   * handleLateralMovement: left gives speed -300 facing left; else right
   * gives 300 facing right; neither leaves speed and facing; and with
   * neither held on the floor, `idle` is current afterwards.
   */
  lemma {:induction false} LateralOutcome(v: LegacyView, k: Keys)
    requires Inv(v)
    ensures var r := LateralL(v, k);
      && (k.left ==> r.sprite.vx == -RUN_SPEED && !r.sprite.flipX)
      && (!k.left && k.right ==> r.sprite.vx == RUN_SPEED && r.sprite.flipX)
      && (!k.left && !k.right && !v.sprite.onFloor ==> r == v)
      && (!k.left && !k.right && v.sprite.onFloor ==> Fsm.IsCurrent(r.fsm, IDLE))
  {
    if !k.left && !k.right {
      SetStateOutcome(v, IDLE);
    }
  }

  /** `swing` has no update or exit hook and nothing queues a request: an update changes nothing at all. */
  lemma SwingUpdateIsIdentity(v: LegacyView, k: Keys)
    requires Inv(v) && Fsm.IsCurrent(v.fsm, SWING)
    ensures UpdateL(v, k) == v
  {
  }

  /** Once `swing` is current, no sequence of updates ever leaves it. */
  lemma {:induction false} SwingIsNeverLeft(v: LegacyView, ks: seq<Keys>)
    requires Inv(v) && Fsm.IsCurrent(v.fsm, SWING)
    ensures UpdatesL(v, ks) == v
    decreases |ks|
  {
    if ks != [] {
      SwingUpdateIsIdentity(v, ks[0]);
      SwingIsNeverLeft(v, ks[1..]);
    }
  }

  /**
   * An `idle` update never reaches `swing` through the machine: space only
   * sets the sprite's own `state`; the machine ends in `idle` or `jump`.
   */
  lemma {:induction false} IdleUpdateNeverSwings(v: LegacyView, k: Keys)
    requires Inv(v) && Fsm.IsCurrent(v.fsm, IDLE)
    ensures var r := UpdateL(v, k);
      && (Fsm.IsCurrent(r.fsm, IDLE) || Fsm.IsCurrent(r.fsm, JUMP))
      && !Fsm.IsCurrent(r.fsm, SWING)
      && (k.space ==> r.sprite.spriteState == Some(SWING))
      && (Fsm.IsCurrent(r.fsm, JUMP) <==> k.up && v.sprite.onFloor)
  {
    var w := v.(fsm := v.fsm.(calls := v.fsm.calls + [Fsm.Updated(IDLE)]));
    assert Inv(w);
    LateralOutcome(w, k);
    var a := LateralL(w, k);
    SetStateOutcome(w, IDLE);
    assert Fsm.IsCurrent(a.fsm, IDLE) && a.sprite.onFloor == v.sprite.onFloor;
    var b := if k.space then a.(sprite := a.sprite.(spriteState := Some(SWING))) else a;
    SetStateOutcome(b, JUMP);
  }

  /** One `walk` update never stays in `walk`: it ends in `swing` when space is held and in `idle` otherwise. */
  lemma {:induction false} WalkUpdateLeavesWalk(v: LegacyView, k: Keys)
    requires Inv(v) && Fsm.IsCurrent(v.fsm, WALK)
    ensures var r := UpdateL(v, k);
      Fsm.IsCurrent(r.fsm, if k.space then SWING else IDLE)
  {
    var w := v.(fsm := v.fsm.(calls := v.fsm.calls + [Fsm.Updated(WALK)]));
    assert Inv(w);
    LateralKeepsInv(w, k);
    var a := LateralL(w, k);
    SetStateOutcome(a, JUMP);
    var b := if k.up && a.sprite.onFloor then SetStateL(a, JUMP) else a;
    SetStateOutcome(b, SWING);
    SetStateOutcome(b, IDLE);
  }

  /**
   * A `jump` update on the floor: with the velocities left by the lateral
   * step both zero, `idle`; otherwise `walk`. In the air nothing but the
   * lateral step happens.
   */
  lemma {:induction false} JumpLanding(v: LegacyView, k: Keys)
    requires Inv(v) && Fsm.IsCurrent(v.fsm, JUMP)
    ensures var w := v.(fsm := v.fsm.(calls := v.fsm.calls + [Fsm.Updated(JUMP)]));
      var a := LateralL(w, k);
      var r := UpdateL(v, k);
      && (v.sprite.onFloor ==>
            Fsm.IsCurrent(r.fsm, if a.sprite.vx == 0.0 && a.sprite.vy == 0.0 then IDLE else WALK))
      && (!v.sprite.onFloor ==> r == a && Fsm.IsCurrent(r.fsm, JUMP))
  {
    var w := v.(fsm := v.fsm.(calls := v.fsm.calls + [Fsm.Updated(JUMP)]));
    assert Inv(w);
    LateralKeepsInv(w, k);
    LateralOutcome(w, k);
    var a := LateralL(w, k);
    assert a.sprite.onFloor == v.sprite.onFloor;
    SetStateOutcome(a, IDLE);
    SetStateOutcome(a, WALK);
  }

  // ---------------------------------------------------------------------
  // The mutable controller
  // ---------------------------------------------------------------------

  class LegacyPlayer {
    var playerSprite: Sprite
    const fsm: Fsm.StateMachine

    ghost function Snapshot(): LegacyView
      reads this, fsm
    {
      LegacyView(playerSprite, fsm.Snapshot())
    }

    /** `new Player(id, scene, sprite)`: the four states, then `setState('idle')`. */
    constructor (sprite: Sprite)
      ensures Snapshot() == InitialL(sprite)
    {
      playerSprite := sprite;
      fsm := new Fsm.StateMachine();
      new;
      AddStates();
      SetState(IDLE);
    }

    method AddStates()
      requires fsm.Snapshot() == Fsm.Initial
      modifies fsm
      ensures fsm.Snapshot() == Fsm.Initial.(states := Registry())
    {
      ghost var m := fsm.Snapshot();
      var self := fsm.AddState(IDLE, CodeHook, CodeHook, None);
      self := fsm.AddState(WALK, CodeHook, CodeHook, None);
      self := fsm.AddState(JUMP, CodeHook, CodeHook, None);
      self := fsm.AddState(SWING, CodeHook, None, None);
      assert fsm.Snapshot() == RegisterStates(m);
      StatesAdded();
    }

    method SetState(name: string)
      modifies this, fsm
      ensures Snapshot() == SetStateL(old(Snapshot()), name)
    {
      if fsm.Disposition(name) != Fsm.Immediate {
        fsm.SetState(name);
        return;
      }
      fsm.BeginTransition();
      if fsm.currentState.Some? && fsm.currentState.value.onExit.Some? {
        fsm.LogExit();
      }
      fsm.SwitchTo(name);
      if fsm.currentState.Some? && fsm.currentState.value.onEnter.Some? {
        fsm.LogEnter();
        EnterHook();
      }
      fsm.EndTransition();
    }

    /** `onIdleEnter`, `onWalkEnter`, `onJumpEnter` and `onSwing`. */
    method EnterHook()
      requires fsm.currentState.Some?
      modifies this
      ensures Snapshot() == old(Snapshot()).(sprite := EnterEffect(old(playerSprite), old(fsm.currentState).value.name))
    {
      var name := fsm.currentState.value.name;
      if name == IDLE {
        playerSprite := playerSprite.(playing := Some(IDLE));
        playerSprite := playerSprite.(vx := 0.0);
      } else if name == WALK {
        playerSprite := playerSprite.(playing := Some(WALK));
      } else if name == JUMP {
        playerSprite := playerSprite.(playing := Some(JUMP));
        playerSprite := playerSprite.(vy := JUMP_VELOCITY);
      } else if name == SWING {
        playerSprite := playerSprite.(playing := Some(SWING));
        playerSprite := playerSprite.(vx := 0.0);
      }
    }

    method HandleLateralMovement(k: Keys)
      modifies this, fsm
      ensures Snapshot() == LateralL(old(Snapshot()), k)
    {
      if k.left {
        playerSprite := playerSprite.(vx := -RUN_SPEED);
        playerSprite := playerSprite.(flipX := false);
      } else if k.right {
        playerSprite := playerSprite.(flipX := true);
        playerSprite := playerSprite.(vx := RUN_SPEED);
      }
      if !k.left && !k.right && playerSprite.onFloor {
        SetState(IDLE);
      }
    }

    method OnIdleUpdate(k: Keys)
      modifies this, fsm
      ensures Snapshot() == IdleUpdateL(old(Snapshot()), k)
    {
      HandleLateralMovement(k);
      if k.space {
        playerSprite := playerSprite.(spriteState := Some(SWING));
      }
      if k.up && playerSprite.onFloor {
        SetState(JUMP);
      }
    }

    method OnWalkUpdate(k: Keys)
      modifies this, fsm
      ensures Snapshot() == WalkUpdateL(old(Snapshot()), k)
    {
      HandleLateralMovement(k);
      if k.up && playerSprite.onFloor {
        SetState(JUMP);
      }
      if k.space {
        SetState(SWING);
      } else {
        SetState(IDLE);
      }
    }

    method OnJumpUpdate(k: Keys)
      modifies this, fsm
      ensures Snapshot() == JumpUpdateL(old(Snapshot()), k)
    {
      HandleLateralMovement(k);
      if playerSprite.onFloor {
        if playerSprite.vy == 0.0 && playerSprite.vx == 0.0 {
          SetState(IDLE);
        } else {
          SetState(WALK);
        }
      }
    }

    /** The machine's `update(dt)`, with the keys as they are this tick. */
    method Update(k: Keys)
      modifies this, fsm
      ensures Snapshot() == UpdateL(old(Snapshot()), k)
    {
      if |fsm.changeStateQueue| > 0 {
        var head := fsm.PopQueue();
        SetState(head);
        return;
      }
      if fsm.currentState.Some? && fsm.currentState.value.onUpdate.Some? {
        fsm.LogUpdate();
        if fsm.IsCurrentState(IDLE) {
          OnIdleUpdate(k);
        } else if fsm.IsCurrentState(WALK) {
          OnWalkUpdate(k);
        } else if fsm.IsCurrentState(JUMP) {
          OnJumpUpdate(k);
        }
      }
    }
  }
}
