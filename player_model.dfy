/**
 * The character controller of src/classes/Player.ts, as pure functions.
 *
 * The Phaser sprite and its physics body are the record Body; the control
 * keys are the fixed record Controls; wall-clock time is the parameter
 * `now` (milliseconds). The whole controller is the record PlayerView, and
 * each handler of the source is a function from the view before to the view
 * after. The class Players.Player is proved to follow these functions.
 *
 * The controller extends a state machine whose file is not part of this
 * model; it is taken to behave as the machine of src/objects/StateMachine.ts
 * (module Fsm), with `onUpdate(dt)` meaning that machine's `update(dt)` and
 * with a `startTime` on every state.
 */
module PlayerModel {
  import opened Wrappers
  import Fsm
  import Animation

  // State names and clip keys.
  const IDLE := "idle"
  const WALK := "walk"
  const JUMP := "jump"
  const STAB := "stab"
  const SWING := "swing"
  const ALERT := "alert"

  const STAND_CLIP := "stand1"
  const WALK_CLIP := "walk1"
  const JUMP_CLIP := "jump"
  const STAB_CLIP := "stabO1"
  const SWING_CLIP := "swingO2"
  const ALERT_CLIP := "alert"

  // Tuning constants of the source.
  const RUN_SPEED: real := 600.0
  const JUMP_VELOCITY: real := -450.0
  const FRICTION_STEP: real := 50.0
  const KNOCKBACK: real := 500.0
  const DEAD_ZONE_X: real := 0.7
  const DEAD_ZONE_Y: real := 0.7
  const FALL_MULTIPLIER: real := 30.0
  const LOW_JUMP_MULTIPLIER: real := 0.1
  const FAST_FALL_MULTIPLIER: real := 120.0
  const FRAME_MS := 16
  const MAX_HP := 100

  datatype Controls = Controls(left: bool, right: bool, jump: bool, attack: bool, swing: bool)

  /** The sprite and its body: position, velocity, facing and the engine's floor contact. */
  datatype Body = Body(x: real, y: real, vx: real, vy: real, flipX: bool, onFloorRaw: bool)

  datatype Point = Point(x: real, y: real)

  /** A gamepad analog stick. */
  datatype Stick = Stick(x: real, y: real)

  /** The attack zone: position, body size, damage and whether it takes part in overlap checks. */
  datatype Hitbox = Hitbox(x: real, y: real, width: int, height: int, damage: int, inWorld: bool)

  /** The controller's own motion fields and the body they mirror. */
  datatype Physics = Physics(
    body: Body,
    onFloor: bool,
    position: Point,
    velocity: Point,
    startedFallingFromJump: bool,
    isFastFalling: bool)

  /** Health, hit-stun and the own attack zone. */
  datatype Combat = Combat(hp: int, damageTakenRecently: bool, attackZone: Hitbox)

  /** The whole controller: its fields, its animation helper and its state machine. */
  datatype PlayerView = PlayerView(
    phys: Physics,
    combat: Combat,
    controls: Controls,
    isAttacking: bool,
    anim: Animation.AnimView,
    fsm: Fsm.Machine)

  /** What `onDamageTaken` leaves: the victim, and the attacker's hitbox it shrank. */
  datatype Hit = Hit(player: PlayerView, attack: Hitbox)

  /** Vertical velocity and the "started falling" latch after `betterJumping`. */
  datatype Fall = Fall(vy: real, latch: bool)

  // ---------------------------------------------------------------------
  // Per-tick rules on plain values
  // ---------------------------------------------------------------------

  /**
   * `handleFriction`: on the (previous tick's) floor, a rightward velocity
   * without right held loses exactly 50, a leftward one without left held
   * gains exactly 50; there is no clamp at zero.
   */
  function Friction(vx: real, onFloor: bool, left: bool, right: bool): (r: real)
    ensures !onFloor ==> r == vx
    ensures onFloor && vx > 0.0 && !right ==> r == vx - FRICTION_STEP
    ensures onFloor && vx < 0.0 && !left ==> r == vx + FRICTION_STEP
    ensures (vx > 0.0 && right) || (vx < 0.0 && left) || vx == 0.0 ==> r == vx
  {
    if onFloor && vx > 0.0 && !right then vx - FRICTION_STEP
    else if onFloor && vx < 0.0 && !left then vx + FRICTION_STEP
    else vx
  }

  /**
   * `betterJumping`: the first tick of a descent sets the latch and boosts
   * the fall (far more when fast-falling); a tick of ascent with jump
   * released cuts the upward speed to a tenth and clears the latch. Real
   * arithmetic stands in for floating point.
   */
  function BetterJump(vy: real, latch: bool, fastFalling: bool, jumpHeld: bool): (r: Fall)
    ensures vy > 0.0 && !latch ==> r.latch && r.vy == (if fastFalling then vy * 121.0 else vy * 31.0 - 1.0)
    ensures !(vy > 0.0 && !latch) && vy < 0.0 && !jumpHeld ==> !r.latch && r.vy == vy / 10.0
    ensures !(vy > 0.0 && !latch) && !(vy < 0.0 && !jumpHeld) ==> r == Fall(vy, latch)
  {
    if vy > 0.0 && !latch then
      Fall(if fastFalling then vy + vy * FAST_FALL_MULTIPLIER else vy + (vy * FALL_MULTIPLIER - 1.0), true)
    else if vy < 0.0 && !jumpHeld then
      Fall(vy + vy * (LOW_JUMP_MULTIPLIER - 1.0), false)
    else Fall(vy, latch)
  }

  /** `Math.floor((now - startTime) / 16)`: the index of the 16 ms tick that `now` falls in. */
  function AttackFrame(now: int, startTime: int): (f: int)
    ensures FRAME_MS * f <= now - startTime < FRAME_MS * f + FRAME_MS
  {
    (now - startTime) / FRAME_MS
  }

  /** `+1` when facing right (flipX), `-1` otherwise. */
  function Dir(flipX: bool): real
  {
    if flipX then 1.0 else -1.0
  }

  /** The branches of an attack's update hook, in the source's order. */
  datatype FrameAction = PlaceHitbox | RemoveHitbox | EndAttack | NoAction

  /**
   * The stab update's frame windows: place the hitbox at frame 15, remove
   * it from frame 20 on. The `>= 40` branch that would end the attack comes
   * after `>= 20` and is never taken.
   */
  function StabAction(frame: int): (a: FrameAction)
    ensures a == PlaceHitbox <==> frame == 15
    ensures a == RemoveHitbox <==> frame >= 20
    ensures a != EndAttack
  {
    if frame == 15 then PlaceHitbox
    else if frame >= 20 then RemoveHitbox
    else if frame >= 40 then EndAttack
    else NoAction
  }

  /** The swing update's frame windows: place at 30, remove after 40; the `>= 66` branch is never taken. */
  function SwingAction(frame: int): (a: FrameAction)
    ensures a == PlaceHitbox <==> frame == 30
    ensures a == RemoveHitbox <==> frame > 40
    ensures a != EndAttack
  {
    if frame == 30 then PlaceHitbox
    else if frame > 40 then RemoveHitbox
    else if frame >= 66 then EndAttack
    else NoAction
  }

  /** The stab hitbox: 130 x 25, damage 5, 110 ahead of the sprite and 30 below it. */
  function StabHitbox(b: Body): (h: Hitbox)
    ensures h.inWorld && h.damage == 5 && h.width == 130 && h.height == 25
    ensures h.x == b.x + 110.0 * Dir(b.flipX) && h.y == b.y + 30.0
  {
    Hitbox(b.x + 110.0 * Dir(b.flipX), b.y + 30.0, 130, 25, 5, true)
  }

  /** The swing hitbox: 140 x 150, damage 10, 70 ahead of the sprite and 30 above it. */
  function SwingHitbox(b: Body): (h: Hitbox)
    ensures h.inWorld && h.damage == 10 && h.width == 140 && h.height == 150
    ensures h.x == b.x + 70.0 * Dir(b.flipX) && h.y == b.y - 30.0
  {
    Hitbox(b.x + 70.0 * Dir(b.flipX), b.y - 30.0, 140, 150, 10, true)
  }

  /** `handleOnFloorAnimation`: on the floor, `walk` with horizontal input held, else `idle`. */
  function FloorState(c: Controls): (s: string)
    ensures s == WALK <==> c.left || c.right
    ensures s == IDLE <==> !c.left && !c.right
  {
    if c.left || c.right then WALK else IDLE
  }

  /** What an attack state's exit hook requests: the floor state when grounded, else `jump`. */
  function AfterAttackRequests(onFloor: bool, c: Controls): (rs: seq<string>)
    ensures onFloor ==> rs == [FloorState(c)]
    ensures !onFloor ==> rs == [JUMP]
  {
    if onFloor then [FloorState(c)] else [JUMP]
  }

  /** The analog stick thresholds of `handleGamepadControls`. */
  function StickControls(c: Controls, stick: Stick): (r: Controls)
    ensures r.right <==> stick.x > DEAD_ZONE_X
    ensures r.left <==> stick.x < -DEAD_ZONE_X
    ensures r.jump == c.jump && r.attack == c.attack && r.swing == c.swing
  {
    c.(right := stick.x > DEAD_ZONE_X, left := stick.x < -DEAD_ZONE_X)
  }

  // ---------------------------------------------------------------------
  // The registered states and the animation table
  // ---------------------------------------------------------------------

  /**
   * A hook written as controller code. The requests it makes come from the
   * controller's hook bodies below, so none are recorded in the registry.
   */
  const CodeHook: Option<Fsm.Hook> := Some(Fsm.Hook([]))

  /** The six states of `defineStates` and which hooks each has. */
  function Registry(): (r: map<string, Fsm.StateDef>)
    ensures r.Keys == {IDLE, WALK, JUMP, SWING, STAB, ALERT}
    ensures forall k :: k in r ==> r[k].name == k && r[k].startTime == 0 && r[k].onUpdate.Some?
    ensures forall k :: k in r ==> (r[k].onExit.Some? <==> k == STAB || k == SWING)
    ensures forall k :: k in r ==> (r[k].onEnter.Some? <==> k != IDLE && k != WALK)
  {
    map[IDLE := Fsm.StateDef(IDLE, None, CodeHook, None, 0),
        WALK := Fsm.StateDef(WALK, None, CodeHook, None, 0),
        JUMP := Fsm.StateDef(JUMP, CodeHook, CodeHook, None, 0),
        SWING := Fsm.StateDef(SWING, CodeHook, CodeHook, CodeHook, 0),
        STAB := Fsm.StateDef(STAB, CodeHook, CodeHook, CodeHook, 0),
        ALERT := Fsm.StateDef(ALERT, CodeHook, CodeHook, None, 0)]
  }

  /** The six `createFrame` calls of `createAnimations`, in order. */
  function FrameCalls(): seq<Animation.FrameOptions>
  {
    [Animation.FrameOptions(ALERT_CLIP, 4, None, None, None, Some([Animation.Vec(10, 0)])),
     Animation.FrameOptions(STAND_CLIP, 4, None, None, Some([Animation.Vec(40, 70)]), Some([Animation.Vec(10, 0)])),
     Animation.FrameOptions(WALK_CLIP, 5, None, None, None, Some([Animation.Vec(10, 0)])),
     Animation.FrameOptions(JUMP_CLIP, 2, None, None, None, Some([Animation.Vec(10, 0)])),
     Animation.FrameOptions(SWING_CLIP, 5, Some(true), Some(true), Some([Animation.Vec(40, 70)]), Some([Animation.Vec(80, 21)])),
     Animation.FrameOptions(STAB_CLIP, 3, Some(true), Some(true), None, Some([Animation.Vec(80, -5)]))]
  }

  /** The animation table those calls build. */
  function AnimationTable(): (t: map<string, Animation.AnimationData>)
    ensures t.Keys == {ALERT_CLIP, STAND_CLIP, WALK_CLIP, JUMP_CLIP, SWING_CLIP, STAB_CLIP}
    ensures forall k :: k in t ==> (t[k].isAttack <==> k == SWING_CLIP || k == STAB_CLIP)
    ensures forall k :: k in t ==> |t[k].offset| == 1
  {
    map[ALERT_CLIP := Animation.AnimationData(false, [], [Animation.Vec(10, 0)]),
        STAND_CLIP := Animation.AnimationData(false, [Animation.Vec(40, 70)], [Animation.Vec(10, 0)]),
        WALK_CLIP := Animation.AnimationData(false, [], [Animation.Vec(10, 0)]),
        JUMP_CLIP := Animation.AnimationData(false, [], [Animation.Vec(10, 0)]),
        SWING_CLIP := Animation.AnimationData(true, [Animation.Vec(40, 70)], [Animation.Vec(80, 21)]),
        STAB_CLIP := Animation.AnimationData(true, [], [Animation.Vec(80, -5)])]
  }


  /** `createFrame` applied to each of `os` in order. */
  function CreateAnimations(a: Animation.AnimView, os: seq<Animation.FrameOptions>): (r: Animation.AnimView)
    ensures forall i :: 0 <= i < |os| ==> os[i].key in r.clips && os[i].key in r.dataMap
    ensures a.clips.Keys <= r.clips.Keys && a.dataMap.Keys <= r.dataMap.Keys
    ensures r.current == a.current && r.bodySize == a.bodySize && r.offset == a.offset
    decreases |os|
  {
    if os == [] then a else CreateAnimations(Animation.CreateFrameSpec(a, os[0]), os[1..])
  }

  /** The six `addState` calls of `defineStates`, in order. */
  function DefineStates(m: Fsm.Machine): (r: Fsm.Machine)
    ensures r.states.Keys == m.states.Keys + {IDLE, WALK, JUMP, SWING, STAB, ALERT}
    ensures r == m.(states := r.states)
  {
    var m1 := Fsm.AddStateSpec(m, IDLE, None, CodeHook, None);
    var m2 := Fsm.AddStateSpec(m1, WALK, None, CodeHook, None);
    var m3 := Fsm.AddStateSpec(m2, JUMP, CodeHook, CodeHook, None);
    var m4 := Fsm.AddStateSpec(m3, SWING, CodeHook, CodeHook, CodeHook);
    var m5 := Fsm.AddStateSpec(m4, STAB, CodeHook, CodeHook, CodeHook);
    Fsm.AddStateSpec(m5, ALERT, CodeHook, CodeHook, None)
  }

  /** The clips those calls register: 5 fps, the attacks played once, the rest looped. */
  function ClipTable(): (t: map<string, Animation.Clip>)
    ensures t.Keys == AnimationTable().Keys
    ensures forall k :: k in t ==> t[k].key == k && t[k].frameRate == Animation.FRAME_RATE
    ensures forall k :: k in t ==> (t[k].repeat == 0 <==> AnimationTable()[k].isAttack)
  {
    map[ALERT_CLIP := Animation.Clip(ALERT_CLIP, 4, Animation.FRAME_RATE, -1),
        STAND_CLIP := Animation.Clip(STAND_CLIP, 4, Animation.FRAME_RATE, -1),
        WALK_CLIP := Animation.Clip(WALK_CLIP, 5, Animation.FRAME_RATE, -1),
        JUMP_CLIP := Animation.Clip(JUMP_CLIP, 2, Animation.FRAME_RATE, -1),
        SWING_CLIP := Animation.Clip(SWING_CLIP, 5, Animation.FRAME_RATE, 0),
        STAB_CLIP := Animation.Clip(STAB_CLIP, 3, Animation.FRAME_RATE, 0)]
  }

  /** The animation helper once `createAnimations` has run. */
  function BuiltAnimations(): Animation.AnimView
  {
    Animation.AnimView(AnimationTable(), ClipTable(), None, None, None)
  }

  /** The animation helper once `stand1` has started: its first size and offset applied. */
  function StartedAnimations(): Animation.AnimView
  {
    Animation.AnimView(AnimationTable(), ClipTable(), Some(Animation.Playing(STAND_CLIP, 1, false)),
                       Some(Animation.Vec(40, 70)), Some(Animation.Vec(10, 0)))
  }

  /**
   * The controller once `createAnimations`, `create` and the `addState`
   * calls have run: at rest where it was placed and facing right, full
   * health, the attack zone parked off-screen at 140 x 25, `stand1`
   * started, and no state current yet. The engine reports no floor
   * contact before the first physics step.
   */
  function Created(x: real, y: real, keys: Controls): (r: PlayerView)
    ensures r.phys.body.x == x && r.phys.body.y == y && r.phys.body.vx == 0.0 && r.phys.body.vy == 0.0
    ensures !r.phys.onFloor && r.combat.hp == MAX_HP && !r.combat.damageTakenRecently && !r.isAttacking
    ensures r.controls == keys && r.fsm.states == Registry() && r.fsm.current.None? && r.fsm.queue == []
  {
    PlayerView(Physics(Body(x, y, 0.0, 0.0, true, false), false, Point(x, y), Point(0.0, 0.0), false, false),
               Combat(MAX_HP, false, Hitbox(-1000.0, -1000.0, 140, 25, 0, true)),
               keys,
               false,
               StartedAnimations(),
               Fsm.Initial.(states := Registry()))
  }

  /** The constructor: the above, then `setState('idle')`. */
  function InitialP(x: real, y: real, keys: Controls): (r: PlayerView)
    ensures r.fsm.states == Registry() && r.combat.hp == MAX_HP && r.phys.body.x == x && r.phys.body.y == y
  {
    SetStateP(Created(x, y, keys), IDLE, 0)
  }

  /**
   * The controller invariant: the registry is the one `defineStates`
   * built, no transition is in progress between handlers, only registered
   * names are queued, the current state is a registered one (up to its
   * stamp), and the animation table is the one `createAnimations` built,
   * with a clip already showing.
   */
  ghost predicate Consistent(p: PlayerView)
  {
    MachineOk(p.fsm) && AnimationOk(p.anim)
  }

  ghost predicate MachineOk(m: Fsm.Machine)
  {
    && m.states == Registry()
    && Fsm.Wf(m)
    && !m.changing
    && m.current.Some?
    && m.current.value.name in Registry()
    && m.current.value.(startTime := 0) == Registry()[m.current.value.name]
  }

  ghost predicate AnimationOk(a: Animation.AnimView)
  {
    && a.dataMap == AnimationTable()
    && a.clips.Keys == AnimationTable().Keys
    && a.current.Some?
    && Animation.AnimValid(a)
  }

  // ---------------------------------------------------------------------
  // setState with the controller's hooks
  // ---------------------------------------------------------------------

  predicate AttackState(name: string)
  {
    name == STAB || name == SWING
  }

  predicate InAttackState(m: Fsm.Machine)
  {
    m.current.Some? && AttackState(m.current.value.name)
  }

  /** The clip an enter hook selects. */
  function EnterClip(name: string): Option<string>
  {
    if name == JUMP then Some(JUMP_CLIP)
    else if name == STAB then Some(STAB_CLIP)
    else if name == SWING then Some(SWING_CLIP)
    else if name == ALERT then Some(ALERT_CLIP)
    else None
  }

  function Stamped(m: Fsm.Machine, now: int): Fsm.Machine
    requires m.current.Some?
  {
    m.(current := Some(m.current.value.(startTime := now)))
  }

  /**
   * What the controller's hooks never touch: motion, health, hit-stun, the
   * hitbox, the movement keys, the animation table and the registry.
   */
  ghost predicate HooksKeep(p: PlayerView, r: PlayerView)
  {
    && r.phys == p.phys && r.combat == p.combat
    && r.controls.left == p.controls.left && r.controls.right == p.controls.right
    && r.controls.jump == p.controls.jump
    && r.anim.dataMap == p.anim.dataMap && r.anim.clips == p.anim.clips
    && (p.anim.current.Some? ==> r.anim.current.Some?)
    && (Animation.AnimValid(p.anim) ==> Animation.AnimValid(r.anim))
    && r.fsm.states == p.fsm.states
  }

  /** The keys an attack state's exit hook leaves: it clears its own key. */
  function ExitControls(p: PlayerView): (c: Controls)
    ensures c.attack == (p.controls.attack && !Fsm.IsCurrent(p.fsm, STAB))
    ensures c.swing == (p.controls.swing && !Fsm.IsCurrent(p.fsm, SWING))
    ensures c.left == p.controls.left && c.right == p.controls.right && c.jump == p.controls.jump
  {
    p.controls.(attack := p.controls.attack && !Fsm.IsCurrent(p.fsm, STAB),
                swing := p.controls.swing && !Fsm.IsCurrent(p.fsm, SWING))
  }

  /** The requests an exit hook makes (all go to the queue, since a transition is in progress). */
  function ExitReqs(p: PlayerView): seq<string>
  {
    if InAttackState(p.fsm) then AfterAttackRequests(p.phys.onFloor, p.controls) else []
  }

  /**
   * The stab and swing exit hooks: clear that state's key and the attack
   * lockout, then request the floor state (or `jump` when airborne). Only
   * these two states have exit hooks.
   */
  function ExitHookP(p: PlayerView): (r: PlayerView)
    requires p.fsm.changing
    ensures HooksKeep(p, r) && r.anim == p.anim
    ensures r.controls == ExitControls(p)
    ensures r.isAttacking == (p.isAttacking && !InAttackState(p.fsm))
    ensures r.fsm == Fsm.RequestAll(p.fsm, ExitReqs(p))
  {
    p.(controls := ExitControls(p), isAttacking := p.isAttacking && !InAttackState(p.fsm),
       fsm := Fsm.RequestAll(p.fsm, ExitReqs(p)))
  }

  /** The clip selection of an enter hook, under the lockout as it is. */
  function EnterClipP(p: PlayerView): (r: PlayerView)
    ensures HooksKeep(p, r) && r.controls == p.controls && r.isAttacking == p.isAttacking && r.fsm == p.fsm
    ensures p.fsm.current.Some? && EnterClip(p.fsm.current.value.name).Some? ==>
      r.anim == Animation.PlaySpec(p.anim, EnterClip(p.fsm.current.value.name).value, p.isAttacking)
    ensures p.fsm.current.None? || EnterClip(p.fsm.current.value.name).None? ==> r.anim == p.anim
  {
    if p.fsm.current.Some? && EnterClip(p.fsm.current.value.name).Some? then
      p.(anim := Animation.PlaySpec(p.anim, EnterClip(p.fsm.current.value.name).value, p.isAttacking))
    else p
  }

  /** The rest of an attack state's enter hook: set the lockout and stamp the startTime. */
  function AttackEntryP(p: PlayerView, now: int): (r: PlayerView)
    ensures HooksKeep(p, r) && r.controls == p.controls && r.anim == p.anim
    ensures r.isAttacking == (InAttackState(p.fsm) || p.isAttacking)
    ensures r.fsm == (if InAttackState(p.fsm) then Stamped(p.fsm, now) else p.fsm)
  {
    if InAttackState(p.fsm) then p.(isAttacking := true, fsm := Stamped(p.fsm, now))
    else p
  }

  /**
   * Enter hooks: `jump` and `alert` select their clip; `stab` and `swing`
   * select their clip (under the lockout as it was), then set the lockout
   * and stamp the state's startTime with `now`.
   */
  function EnterHookP(p: PlayerView, now: int): (r: PlayerView)
    ensures HooksKeep(p, r) && r.controls == p.controls
    ensures r.isAttacking == (InAttackState(p.fsm) || p.isAttacking)
    ensures InAttackState(p.fsm) ==> r.fsm == Stamped(p.fsm, now)
    ensures !InAttackState(p.fsm) ==> r.fsm == p.fsm
  {
    AttackEntryP(EnterClipP(p), now)
  }

  /** The exit step of a transition: log and run the old state's exit hook, if it has one. */
  function ExitPhaseP(p: PlayerView): (r: PlayerView)
    requires p.fsm.changing
    ensures HooksKeep(p, r) && r.anim == p.anim
    ensures r.fsm == (if Fsm.HasExit(p.fsm) then Fsm.RequestAll(Fsm.ExitLogged(p.fsm), ExitReqs(p)) else p.fsm)
    ensures r.isAttacking == (if Fsm.HasExit(p.fsm) then p.isAttacking && !InAttackState(p.fsm) else p.isAttacking)
    ensures r.controls == (if Fsm.HasExit(p.fsm) then ExitControls(p) else p.controls)
  {
    if Fsm.HasExit(p.fsm) then ExitHookP(p.(fsm := Fsm.ExitLogged(p.fsm))) else p
  }

  /** The enter step of a transition: log and run the new state's enter hook, if it has one. */
  function EnterPhaseP(p: PlayerView, now: int): (r: PlayerView)
    ensures HooksKeep(p, r) && r.controls == p.controls
    ensures var attack := Fsm.HasEnter(p.fsm) && InAttackState(p.fsm);
      && r.fsm == (if attack then Stamped(Fsm.EnterLogged(p.fsm), now)
                   else if Fsm.HasEnter(p.fsm) then Fsm.EnterLogged(p.fsm) else p.fsm)
      && r.isAttacking == (attack || p.isAttacking)
    ensures Fsm.HasEnter(p.fsm) && EnterClip(p.fsm.current.value.name).Some? ==>
      r.anim == Animation.PlaySpec(p.anim, EnterClip(p.fsm.current.value.name).value, p.isAttacking)
    ensures !(Fsm.HasEnter(p.fsm) && EnterClip(p.fsm.current.value.name).Some?) ==> r.anim == p.anim
  {
    if Fsm.HasEnter(p.fsm) then EnterHookP(p.(fsm := Fsm.EnterLogged(p.fsm)), now) else p
  }

  /** The machine-only steps of a transition, lifted to the controller. */
  function BeginP(p: PlayerView): (r: PlayerView)
    ensures r.fsm.changing && r.fsm == p.fsm.(changing := true) && r == p.(fsm := r.fsm)
  {
    p.(fsm := Fsm.Began(p.fsm))
  }

  function SwitchP(p: PlayerView, name: string): (r: PlayerView)
    requires name in p.fsm.states
    ensures r.fsm.previous == p.fsm.current && r.fsm.current == Some(p.fsm.states[name])
    ensures r.fsm == p.fsm.(previous := r.fsm.previous, current := r.fsm.current) && r == p.(fsm := r.fsm)
  {
    p.(fsm := Fsm.Switched(p.fsm, name))
  }

  function EndP(p: PlayerView): (r: PlayerView)
    ensures !r.fsm.changing && r.fsm == p.fsm.(changing := false) && r == p.(fsm := r.fsm)
  {
    p.(fsm := Fsm.Ended(p.fsm))
  }

  /**
   * `setState(name)` of the controller: the machine's guards and transition
   * steps, with the controller's exit and enter hooks run in between.
   */
  function SetStateP(p: PlayerView, name: string, now: int): (r: PlayerView)
    ensures HooksKeep(p, r)
  {
    if Fsm.Classify(p.fsm, name) != Fsm.Immediate then p.(fsm := Fsm.SetStateSpec(p.fsm, name))
    else EndP(EnterPhaseP(SwitchP(ExitPhaseP(BeginP(p)), name), now))
  }

  /** `handleOnFloorAnimation`: nothing when airborne, else request `walk` or `idle`. */
  function FloorAnimationP(p: PlayerView, now: int): (r: PlayerView)
    ensures !p.phys.onFloor ==> r == p
    ensures p.phys.onFloor ==> r == SetStateP(p, FloorState(p.controls), now)
  {
    if !p.phys.onFloor then p else SetStateP(p, FloorState(p.controls), now)
  }

  /** `setPlayerFacingRight`. */
  function FacingP(p: PlayerView, right: bool): (r: PlayerView)
    ensures r.phys.body.flipX == right
  {
    p.(phys := p.phys.(body := p.phys.body.(flipX := right)))
  }

  // ---------------------------------------------------------------------
  // Update hooks and the machine's update
  // ---------------------------------------------------------------------

  /** The startTime of the current state (0 when never stamped). */
  function StartTime(m: Fsm.Machine): int
  {
    if m.current.Some? then m.current.value.startTime else 0
  }

  /** The stab update: the hitbox follows the frame windows of StabAction. */
  function StabUpdateP(p: PlayerView, now: int): (r: PlayerView)
    ensures r == p.(combat := p.combat.(attackZone := r.combat.attackZone))
  {
    match StabAction(AttackFrame(now, StartTime(p.fsm)))
    case PlaceHitbox => p.(combat := p.combat.(attackZone := StabHitbox(p.phys.body)))
    case RemoveHitbox => p.(combat := p.combat.(attackZone := p.combat.attackZone.(inWorld := false)))
    case EndAttack => p.(isAttacking := false)
    case NoAction => p
  }

  /** The swing update: the hitbox follows the frame windows of SwingAction. */
  function SwingUpdateP(p: PlayerView, now: int): (r: PlayerView)
    ensures r == p.(combat := p.combat.(attackZone := r.combat.attackZone))
  {
    match SwingAction(AttackFrame(now, StartTime(p.fsm)))
    case PlaceHitbox => p.(combat := p.combat.(attackZone := SwingHitbox(p.phys.body)))
    case RemoveHitbox => p.(combat := p.combat.(attackZone := p.combat.attackZone.(inWorld := false)))
    case EndAttack => p.(isAttacking := false)
    case NoAction => p
  }

  /** The jump update: reselect the clip; on landing, clear the jump key and hand over to the floor state. */
  function JumpUpdateP(p: PlayerView, now: int): (r: PlayerView)
    ensures r.phys == p.phys && r.combat == p.combat
    ensures p.phys.onFloor ==> !r.controls.jump
    ensures !p.phys.onFloor ==> r.fsm == p.fsm && r.controls == p.controls
  {
    var q := p.(anim := Animation.PlaySpec(p.anim, JUMP_CLIP, p.isAttacking));
    if q.phys.onFloor then FloorAnimationP(q.(controls := q.controls.(jump := false)), now) else q
  }

  /**
   * The update hook of the current state. `idle` and `walk` reselect their
   * clip when grounded; `alert` only schedules a timer (an external event
   * here).
   */
  function UpdateHookP(p: PlayerView, now: int): (r: PlayerView)
    ensures r.phys == p.phys
    ensures r.combat.hp == p.combat.hp && r.combat.damageTakenRecently == p.combat.damageTakenRecently
    ensures !Fsm.IsCurrent(p.fsm, JUMP) ==> r.isAttacking == p.isAttacking && r.fsm == p.fsm
  {
    if Fsm.IsCurrent(p.fsm, IDLE) then
      (if p.phys.onFloor then p.(anim := Animation.PlaySpec(p.anim, STAND_CLIP, p.isAttacking)) else p)
    else if Fsm.IsCurrent(p.fsm, WALK) then
      (if p.phys.onFloor then p.(anim := Animation.PlaySpec(p.anim, WALK_CLIP, p.isAttacking)) else p)
    else if Fsm.IsCurrent(p.fsm, JUMP) then JumpUpdateP(p, now)
    else if Fsm.IsCurrent(p.fsm, STAB) then StabUpdateP(p, now)
    else if Fsm.IsCurrent(p.fsm, SWING) then SwingUpdateP(p, now)
    else p
  }

  /** Take the head of the queue off. */
  function PoppedP(p: PlayerView): (r: PlayerView)
    requires |p.fsm.queue| > 0
  {
    p.(fsm := p.fsm.(queue := p.fsm.queue[1..]))
  }

  /** Log the current state's update hook. */
  function UpdateLoggedP(p: PlayerView): (r: PlayerView)
    requires p.fsm.current.Some?
  {
    p.(fsm := p.fsm.(calls := p.fsm.calls + [Fsm.Updated(p.fsm.current.value.name)]))
  }

  /** `this.onUpdate(dt)`: one queued transition, or else the current state's update hook. */
  function FsmUpdateP(p: PlayerView, now: int): (r: PlayerView)
    ensures r.fsm.states == p.fsm.states && r.combat.hp == p.combat.hp
    ensures r.phys == p.phys
  {
    if |p.fsm.queue| > 0 then SetStateP(PoppedP(p), p.fsm.queue[0], now)
    else if p.fsm.current.Some? && p.fsm.current.value.onUpdate.Some? then UpdateHookP(UpdateLoggedP(p), now)
    else p
  }

  // ---------------------------------------------------------------------
  // handlePlayerAction and the other per-tick steps
  // ---------------------------------------------------------------------

  function WithVx(p: PlayerView, vx: real): (r: PlayerView)
  {
    p.(phys := p.phys.(body := p.phys.body.(vx := vx)))
  }

  function WithVy(p: PlayerView, vy: real): (r: PlayerView)
  {
    p.(phys := p.phys.(body := p.phys.body.(vy := vy)))
  }

  /** Facing and the `walk` request of a horizontal key; neither while attacking. */
  function HeadingP(p: PlayerView, right: bool, now: int): (r: PlayerView)
    ensures p.isAttacking ==> r == p
    ensures !p.isAttacking && !p.phys.onFloor ==> r == FacingP(p, right)
  {
    if p.isAttacking then p
    else
      var q := FacingP(p, right);
      if q.phys.onFloor then SetStateP(q, WALK, now) else q
  }

  /** Horizontal movement: left wins over right; each sets a fixed speed. */
  function MoveStepP(p: PlayerView, now: int): (r: PlayerView)
    ensures !p.controls.left && !p.controls.right ==> r == p
  {
    if p.controls.left then HeadingP(WithVx(p, -RUN_SPEED), false, now)
    else if p.controls.right then HeadingP(WithVx(p, RUN_SPEED), true, now)
    else p
  }

  /** Jump when grounded (no `jump` request while attacking); else `idle` when there is nothing to do. */
  function JumpStepP(p: PlayerView, now: int): (r: PlayerView)
    ensures p.controls.jump && p.phys.onFloor && p.isAttacking ==> r == WithVy(p, JUMP_VELOCITY)
    ensures !(p.controls.jump && p.phys.onFloor) && (p.controls.left || p.controls.right || !p.phys.onFloor || p.isAttacking) ==> r == p
  {
    if p.controls.jump && p.phys.onFloor then
      var q := WithVy(p, JUMP_VELOCITY);
      if !q.isAttacking then SetStateP(q, JUMP, now) else q
    else if !p.controls.left && !p.controls.right && p.phys.onFloor && !p.isAttacking && !p.combat.damageTakenRecently then
      SetStateP(p, IDLE, now)
    else p
  }

  /** Attack keys, read after movement and jump: `stab` before `swing`, neither while attacking. */
  function AttackStepP(p: PlayerView, now: int): (r: PlayerView)
    ensures p.isAttacking || (!p.controls.attack && !p.controls.swing) ==> r == p
  {
    if p.controls.attack && !p.isAttacking then SetStateP(p, STAB, now)
    else if p.controls.swing && !p.isAttacking then SetStateP(p, SWING, now)
    else p
  }

  /** Grounded, fast-falling ends before any input is read. */
  function LandedP(p: PlayerView): (r: PlayerView)
    ensures r.phys.isFastFalling == (p.phys.isFastFalling && !p.phys.onFloor)
    ensures r == p.(phys := p.phys.(isFastFalling := r.phys.isFastFalling))
  {
    if p.phys.onFloor then p.(phys := p.phys.(isFastFalling := false)) else p
  }

  /** `handlePlayerAction`: nothing at all during hit-stun. */
  function HandlePlayerActionP(p: PlayerView, now: int): (r: PlayerView)
    ensures p.combat.damageTakenRecently ==> r == p
    ensures r.fsm.states == p.fsm.states && r.combat.hp == p.combat.hp
  {
    if p.combat.damageTakenRecently then p
    else AttackStepP(JumpStepP(MoveStepP(LandedP(p), now), now), now)
  }

  function FrictionP(p: PlayerView): (r: PlayerView)
    ensures r.phys.body.vx == Friction(p.phys.body.vx, p.phys.onFloor, p.controls.left, p.controls.right)
    ensures r == p.(phys := p.phys.(body := p.phys.body.(vx := r.phys.body.vx)))
  {
    WithVx(p, Friction(p.phys.body.vx, p.phys.onFloor, p.controls.left, p.controls.right))
  }

  function BetterJumpingP(p: PlayerView): (r: PlayerView)
    ensures var f := BetterJump(p.phys.body.vy, p.phys.startedFallingFromJump, p.phys.isFastFalling, p.controls.jump);
      r.phys.body.vy == f.vy && r.phys.startedFallingFromJump == f.latch
    ensures r == p.(phys := p.phys.(body := p.phys.body.(vy := r.phys.body.vy),
                                    startedFallingFromJump := r.phys.startedFallingFromJump))
  {
    var f := BetterJump(p.phys.body.vy, p.phys.startedFallingFromJump, p.phys.isFastFalling, p.controls.jump);
    p.(phys := p.phys.(body := p.phys.body.(vy := f.vy), startedFallingFromJump := f.latch))
  }

  /**
   * `handleGamepadControls`, threshold part: with a stick, `right` and
   * `left` follow the X dead zone and a push down past the Y dead zone sets
   * fast-falling (which only handlePlayerAction clears, when grounded).
   */
  function GamepadP(p: PlayerView, stick: Option<Stick>): (r: PlayerView)
    ensures stick.None? ==> r == p
    ensures stick.Some? ==> r.controls == StickControls(p.controls, stick.value)
    ensures stick.Some? ==> r.phys.isFastFalling == (p.phys.isFastFalling || stick.value.y > DEAD_ZONE_Y)
  {
    if stick.None? then p
    else
      var q := p.(controls := StickControls(p.controls, stick.value));
      if stick.value.y > DEAD_ZONE_Y then q.(phys := q.phys.(isFastFalling := true)) else q
  }

  /** Mirror the body into position and velocity; grounded means floor contact and no vertical speed. */
  function SyncP(p: PlayerView): (r: PlayerView)
    ensures r.phys.onFloor <==> p.phys.body.onFloorRaw && p.phys.body.vy == 0.0
    ensures r.phys.position == Point(p.phys.body.x, p.phys.body.y)
    ensures r.phys.velocity == Point(p.phys.body.vx, p.phys.body.vy)
  {
    var b := p.phys.body;
    p.(phys := p.phys.(position := Point(b.x, b.y), velocity := Point(b.vx, b.vy), onFloor := b.onFloorRaw && b.vy == 0.0))
  }

  /** `update(dt)`: gamepad, action, friction, jump shaping, resync, then the machine's update. */
  function TickP(p: PlayerView, stick: Option<Stick>, now: int): (r: PlayerView)
    ensures r.fsm.states == p.fsm.states && r.combat.hp == p.combat.hp
  {
    FsmUpdateP(SyncP(BetterJumpingP(FrictionP(HandlePlayerActionP(GamepadP(p, stick), now)))), now)
  }

  // ---------------------------------------------------------------------
  // Damage, timers and animation completion
  // ---------------------------------------------------------------------

  /** Health, hit-stun and attack zone right after a hit, before the `alert` request. */
  function HurtP(p: PlayerView, damage: int): (r: PlayerView)
    ensures r.combat == Combat(p.combat.hp - damage, true, p.combat.attackZone.(inWorld := false))
  {
    p.(combat := Combat(p.combat.hp - damage, true, p.combat.attackZone.(inWorld := false)))
  }

  /**
   * The knockback: 500 to the left and facing left when the attacker is
   * strictly to the right, else 500 to the right and facing right.
   */
  function KnockbackP(p: PlayerView, attackerX: real): (r: PlayerView)
    ensures attackerX > p.phys.body.x ==> r.phys.body.vx == p.phys.body.vx - KNOCKBACK && !r.phys.body.flipX
    ensures attackerX <= p.phys.body.x ==> r.phys.body.vx == p.phys.body.vx + KNOCKBACK && r.phys.body.flipX
    ensures r == p.(phys := p.phys.(body := p.phys.body.(vx := r.phys.body.vx, flipX := r.phys.body.flipX)))
  {
    var b := p.phys.body;
    if attackerX > b.x then p.(phys := p.phys.(body := b.(vx := b.vx - KNOCKBACK, flipX := false)))
    else p.(phys := p.phys.(body := b.(vx := b.vx + KNOCKBACK, flipX := true)))
  }

  /**
   * `onDamageTaken(attack, attacker)`: ignored during hit-stun; otherwise
   * take the hitbox's damage, shrink that hitbox to 0 x 0, take the own
   * attack zone out of the world, start hit-stun, request `alert`, and get
   * knocked away from the attacker.
   */
  function DamageP(p: PlayerView, attack: Hitbox, attackerX: real, now: int): (h: Hit)
    ensures p.combat.damageTakenRecently ==> h == Hit(p, attack)
  {
    if p.combat.damageTakenRecently then Hit(p, attack)
    else Hit(KnockbackP(SetStateP(HurtP(p, attack.damage), ALERT, now), attackerX), attack.(width := 0, height := 0))
  }

  /** The hit-stun timer firing: hit-stun ends. */
  function DamageTimerP(p: PlayerView): (r: PlayerView)
    ensures !r.combat.damageTakenRecently
  {
    p.(combat := p.combat.(damageTakenRecently := false))
  }

  /** The 500 ms timer that an `alert` update schedules, firing: request `idle`. */
  function AlertTimerP(p: PlayerView, now: int): (r: PlayerView)
    ensures HooksKeep(p, r)
  {
    SetStateP(p, IDLE, now)
  }

  /** ANIMATION_COMPLETE: after an attack clip, end the lockout and maybe request the next state. */
  function AnimationCompleteP(p: PlayerView, key: string, now: int): (r: PlayerView)
    ensures !Animation.IsAttackClip(p.anim, key) ==> r == p
  {
    if !Animation.IsAttackClip(p.anim, key) then p
    else
      var q := p.(isAttacking := false);
      var req := Animation.CompletionRequest(true, q.controls.left, q.controls.right, q.phys.onFloor,
                                             q.combat.damageTakenRecently);
      if req.Some? then SetStateP(q, req.value, now) else q
  }
}
