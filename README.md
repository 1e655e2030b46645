# Phaser platformer character core, modelled in Dafny

This project models the per-entity simulation core of a side-scrolling
combat platformer written in TypeScript on Phaser. It has four parts:

- **The generic state machine** (`src/objects/StateMachine.ts`): a registry of
  named states, each with optional enter/update/exit hooks. It keeps a current
  and a previous state, a re-entrancy flag and a FIFO queue of deferred
  requests. `setState` rejects unknown names, ignores the current name, and
  queues a request made during a transition.
- **The character controller** (`src/classes/Player.ts`). Each tick it maps
  the control keys and gamepad stick to movement, jump and idle/walk requests.
  It also applies constant-step friction and the fall/low-jump latch, runs the
  stab and swing attacks with their millisecond frame windows, and handles
  damage, hit-stun and knockback.
- **The animation gate** (`src/classes/PlayerAnimation.ts`): the per-clip
  table of body sizes, offsets and an attack flag, and the `playAnimation`
  guard. That guard does not restart the clip already playing and does not
  interrupt an attack before its last frame. The part also covers the
  per-frame table lookup and the decision taken when an attack clip completes.
- **The older controller** (`src/objects/Player.ts`): four states driven by the
  arrow keys and space.

## How the model is built

**Modules.**
- `Wrappers` holds `Option`.
- `Fsm` is the machine.
- `Animation` is the animation gate.
- `PlayerModel` describes the controller as pure functions on a snapshot
  record `PlayerView`.
- `PlayerProperties` and `PlayerBehaviour` hold the lemmas about those
  functions.
- `Players` is the mutable controller class.
- `Legacy` is the older controller: its functions, lemmas and class.

**Classes.** Each class the source mutates is a Dafny `class` with the
source's fields: `Fsm.StateMachine`, `Animation.PlayerAnimation`,
`Players.Player` and `Legacy.LegacyPlayer`. Each method is proved to move the
object's `Snapshot()` exactly as its specification function says. The lemmas
then prove what the source promises about those functions.

**Hooks.**
- In `Fsm`, a hook is data: the list of `setState` requests it makes. A ghost
  trace `calls` records which hooks ran, so "no hook is called" can be stated.
- The controllers' hooks are their own code. A controller's `SetState` drives
  the machine's transition steps:
  1. set the flag;
  2. run the exit hook;
  3. switch states;
  4. run the enter hook;
  5. clear the flag.
- The controller's hook bodies run between those steps. So a `setState` made
  by an enter or exit hook reaches the machine while its flag is set, and is
  queued or dropped as in the source.

**The machine the new controller uses.** `src/classes/Player.ts` extends a
state machine whose file (`src/classes/StateMachine.ts`) is not part of this
model. The model assumes it behaves as `src/objects/StateMachine.ts`, with two
additions:
- `onUpdate(dt)` means that machine's `update(dt)`;
- every state has a `startTime` that starts at 0.
`startTime` is stamped on the current-state record, which is the only place it
is read from.

**Modelling choices.**
- Time (`new Date().getTime()`) is the parameter `now`, in milliseconds.
- The physics body is the record `Body`. Its engine floor contact
  `onFloorRaw` is an input bit.
- Velocities and positions are `real`. Times, damage and health are `int`.
- `Math.floor(ms / 16)` is Dafny's integer division by 16, which is
  floor division for a positive divisor.
- The two timers (hit-stun end, alert-to-idle) are explicit "timer fired"
  operations.

**Where the code departs from the behaviour its names and comments suggest, the model follows the
code.**
- `handleFriction` has no clamp at zero. `PlayerBehaviour.CoastOscillates`
  shows a speed between 0 and 50 swinging back and forth for ever.
- The attack enter hooks do not place the hitbox off-world. The hitbox is
  placed only at frame 15 (stab) or frame 30 (swing). It is removed from
  frame 20 (stab) or after frame 40 (swing), not on exit.
- The exit hooks do not detach the hitbox.
- A jump pressed mid-attack on the floor still sets the upward speed. Only
  the `jump` request is skipped (`PlayerBehaviour.JumpOutcome`).
- The branches that would end the lockout from an attack's update hook
  (frame `>= 40` for stab, `>= 66` for swing) come after wider conditions
  and are never taken. The lockout ends on completion of the attack clip,
  or when an exit hook runs.

## Model

| member | source | states |
|---|---|---|
| Fsm.StateMachine.constructor | src/objects/StateMachine.ts:10-31 | a new machine has no states, no current or previous state, the flag clear and an empty queue |
| Fsm.StateMachine.IsCurrentState | src/objects/StateMachine.ts:33-39 | false when there is no current state, otherwise true exactly when the current state has that name |
| Fsm.StateMachine.PreviousStateName | src/objects/StateMachine.ts:20-26 | `''` when there is no previous state, otherwise its name |
| Fsm.PreviousName | src/objects/StateMachine.ts:20-26 | `''` when there is no previous state, otherwise its name; the class getter is defined as this function of its snapshot |
| Fsm.StateMachine.Disposition | src/objects/StateMachine.ts:53-66 | the guard decision read from the fields equals the machine-level classification |
| Fsm.Classify | src/objects/StateMachine.ts:53-66 | each of the four setState outcomes holds if and only if its guard condition holds, in the source's order (unknown, current, in transition, immediate) |
| Fsm.AddStateSpec | src/objects/StateMachine.ts:41-51 | registers the name (overwriting any entry), keeps every other entry and all other fields, and keeps well-formedness |
| Fsm.StateMachine.AddState | src/objects/StateMachine.ts:41-51 | returns the same machine and updates the registry as AddStateSpec |
| Fsm.StateMachine.SetState | src/objects/StateMachine.ts:53-84 | the new state of the machine is SetStateSpec of the old one, with every hook's requests issued re-entrantly |
| Fsm.StateMachine.RunHook | src/objects/StateMachine.ts:72-81 | a hook run during a transition issues its requests one by one, each queued or dropped |
| Fsm.SetStateSpec | src/objects/StateMachine.ts:53-84 | unknown or current names leave the machine unchanged; during a transition the result is the queue-or-drop request |
| Fsm.UnknownStateIgnored | src/objects/StateMachine.ts:54-57 | setState with an unregistered name changes nothing: state, previous, queue and hook trace |
| Fsm.CurrentStateIgnored | src/objects/StateMachine.ts:59-61 | setState with the current name changes nothing, even mid-transition |
| Fsm.ReentrantRequestQueued | src/objects/StateMachine.ts:63-66 | during a transition a registered, non-current request is appended to the queue and nothing else changes |
| Fsm.ImmediateTransition | src/objects/StateMachine.ts:68-83 | a transition runs the old exit hook, sets previous to the old current and current to the entry, runs the new enter hook, and ends with the flag clear |
| Fsm.TransitionWith | src/objects/StateMachine.ts:68-83 | keeps the registry and makes the new state current; with its partner TransitionOutcome: the new state is current, the old one previous, exits then enter are logged, and the queue grows by exactly the accepted requests of the two hooks |
| Fsm.TransitionOutcome | src/objects/StateMachine.ts:68-83 | as above with arbitrary hook requests: the queue grows by exactly the accepted exit requests, then the accepted enter requests |
| Fsm.Accepted | src/objects/StateMachine.ts:54-66 | every request a transition accepts is registered and not current |
| Fsm.RequestOutcome | src/objects/StateMachine.ts:63-66 | Request: mid-transition, a registered name other than the current one is appended to the queue, and any other name is dropped with nothing else changed |
| Fsm.RequestAll | src/objects/StateMachine.ts:63-66 | issuing several requests mid-transition appends exactly the accepted ones, in order |
| Fsm.AcceptedDependsOnRegistry | src/objects/StateMachine.ts:54-66 | which requests are accepted depends only on the registry and the current state |
| Fsm.SetStateKeepsWf | src/objects/StateMachine.ts:54-66 | every queued name is registered, because the registry check comes before the push; setState keeps this and the registry |
| Fsm.SetStateAll | src/objects/StateMachine.ts:92-94 | the setState calls an update hook makes outside a transition keep the registry; SetStateAllKeepsWf and SetStateAllLogsNoUpdate state the rest |
| Fsm.SetStateAllKeepsWf | src/objects/StateMachine.ts:53-84 | the same for a sequence of setState calls |
| Fsm.UpdateKeepsWf | src/objects/StateMachine.ts:86-95 | update keeps the queue registered and leaves no transition in progress |
| Fsm.StateMachine.Update | src/objects/StateMachine.ts:86-95 | the new state of the machine is UpdateSpec of the old one |
| Fsm.UpdateTakesHead | src/objects/StateMachine.ts:86-90 | with a non-empty queue, update removes exactly the head and makes it current, the rest of the queue stays in front in order, and no update hook runs |
| Fsm.UpdateRunsHook | src/objects/StateMachine.ts:92-94 | with an empty queue, update changes nothing when the current state has no update hook; otherwise the hook of the current state is recorded as run exactly once, right after the old log, and whatever its requests do afterwards runs no further update hook; a request-free hook is only recorded |
| Fsm.SetStateLogsNoUpdate | src/objects/StateMachine.ts:53-84 | `setState` only appends to the call log and never logs an update hook |
| Fsm.SetStateAllLogsNoUpdate | src/objects/StateMachine.ts:53-84 | the same for any sequence of `setState` requests |
| Fsm.QuietUpdateStep | src/objects/StateMachine.ts:86-90 | one update with request-free hooks consumes the head of the queue and makes it current |
| Fsm.UpdatesTakeQueueInOrder | src/objects/StateMachine.ts:86-90 | for any hooks: after k updates (k at most the queue length) the first k queued names have been taken in order, the k-th is current, the rest of the old queue is still in front in order, the registry is kept and no transition is in progress |
| Fsm.QueueDrainsInOrder | src/objects/StateMachine.ts:86-90 | for any hooks: as many updates as queued names leave the last queued name current (FIFO), with the machine still well-formed and idle |
| Fsm.QuietQueueEmpties | src/objects/StateMachine.ts:86-90 | when no hook issues requests, those updates also leave the queue empty |
| Fsm.UpdateSpec | src/objects/StateMachine.ts:86-95 | keeps the registry; its partners: UpdateTakesHead (a queued head is taken first, no hook runs) and UpdateRunsHook (otherwise the current update hook runs once), UpdateKeepsWf (well-formedness is kept) |
| Fsm.StateMachine.BeginTransition | src/objects/StateMachine.ts:68 | sets the flag and nothing else |
| Fsm.StateMachine.LogExit | src/objects/StateMachine.ts:72-74 | records the exit hook of the current state |
| Fsm.StateMachine.SwitchTo | src/objects/StateMachine.ts:76-77 | previous becomes the current state and current the registered entry |
| Fsm.StateMachine.LogEnter | src/objects/StateMachine.ts:79-81 | records the enter hook of the new state |
| Fsm.StateMachine.EndTransition | src/objects/StateMachine.ts:83 | clears the flag and nothing else |
| Fsm.StateMachine.LogUpdate | src/objects/StateMachine.ts:92-94 | records the update hook of the current state |
| Fsm.StateMachine.PopQueue | src/objects/StateMachine.ts:88 | returns the head and leaves the rest of the queue |
| Fsm.StateMachine.StampStartTime | src/classes/Player.ts:471-473 | sets the current state's startTime to `now` and nothing else |
| Animation.PlayerAnimation.constructor | src/classes/PlayerAnimation.ts:46-52 | an empty table, no clips, nothing showing |
| Animation.ClipFor | src/classes/PlayerAnimation.ts:93-107 | the clip has the key, all the atlas frames, frame rate 5, repeat 0 when `dontRepeat` and -1 otherwise |
| Animation.FrameNames | src/classes/PlayerAnimation.ts:96-104 | frames `key_0.png` … `key_(n-1).png`, exactly n of them, in order |
| Animation.NatToString | src/classes/PlayerAnimation.ts:99-101 | the decimal rendering of a frame number: at least one digit, only digits, no leading zero, and its decimal value is the number |
| Animation.NatToStringInjective | src/classes/PlayerAnimation.ts:99-101 | distinct frame numbers print differently |
| Animation.FrameNamesDistinct | src/classes/PlayerAnimation.ts:96-104 | a clip never names the same atlas frame twice |
| Animation.DataFor | src/classes/PlayerAnimation.ts:93-112 | the table entry holds the given sizes and offsets, or empty lists when absent, and the attack flag, or false when absent |
| Animation.CreateFrameSpec | src/classes/PlayerAnimation.ts:92-115 | the clip and the table entry of the new key are those built from the options, no other key is added, and the current frame and body are untouched; CreateFrameKeepsOthers: every other key keeps its clip and entry |
| Animation.CreateFrameKeepsOthers | src/classes/PlayerAnimation.ts:92-115 | `createFrame` keeps every other key's clip and table entry |
| Animation.PlayerAnimation.CreateFrame | src/classes/PlayerAnimation.ts:92-115 | registers the clip and overwrites the table entry under its key, as CreateFrameSpec |
| Animation.PlayDecision | src/classes/PlayerAnimation.ts:117-124 | in the source's order: throws when attacking with no current frame; does nothing for the clip already playing; does nothing while locked (attacking and not at the last frame); throws without table data; plays otherwise |
| Animation.PlayerAnimation.PlayAnimation | src/classes/PlayerAnimation.ts:117-136 | returns that decision and changes the helper as PlaySpec |
| Animation.PlaySpec | src/classes/PlayerAnimation.ts:117-136 | anything but a play leaves the helper unchanged; tables are never touched; a showing clip stays showing |
| Animation.SameClipNotReplayed | src/classes/PlayerAnimation.ts:118-122 | asking for the clip already current changes nothing |
| Animation.AttackNotInterrupted | src/classes/PlayerAnimation.ts:119-123 | while attacking before the last frame, no clip can start |
| Animation.PlayedClipStarts | src/classes/PlayerAnimation.ts:125-135 | a clip that plays is current at frame 1; its first size and offset are applied only if present |
| Animation.PlayIdempotent | src/classes/PlayerAnimation.ts:117-136 | playing a clip twice in a row is the same as playing it once |
| Animation.AnimValidPreserved | src/classes/PlayerAnimation.ts:54-136 | createFrame, playAnimation and the frame handler keep the showing clip inside the table |
| Animation.FrameEntry | src/classes/PlayerAnimation.ts:60-63 | the 1-based frame index `i` selects entry `i-1`, and nothing when out of range |
| Animation.FrameUpdated | src/classes/PlayerAnimation.ts:54-73 | the tables stay and the new frame becomes current; the frame's size entry is applied exactly when there is one and it differs from the body's x or y, and the size is kept otherwise; the offset is the frame's offset entry when there is one and is kept otherwise |
| Animation.PlayerAnimation.OnAnimationUpdate | src/classes/PlayerAnimation.ts:54-73 | fails exactly when the clip has no table entry (where the source throws), and then changes nothing; otherwise records the new frame, applies the frame's size entry when it differs from the body's position (the comparison the source makes) and its offset entry when present |
| Animation.PlayerAnimation.IsAttackAnimation | src/classes/PlayerAnimation.ts:76-77 | true exactly when the clip's table entry has the attack flag |
| Animation.CompletionRequest | src/classes/PlayerAnimation.ts:75-88 | after an attack clip: `idle` if and only if no horizontal input, grounded and not stunned; `jump` if and only if airborne; nothing after a non-attack clip |
| PlayerModel.Friction | src/classes/Player.ts:358-364 | only on the floor: -50 for rightward motion without right held, +50 for leftward motion without left held, otherwise unchanged, with no clamp |
| PlayerModel.BetterJump | src/classes/Player.ts:343-356 | the first descending tick sets the latch and boosts the fall (x121 fast-falling, else `vy*31 - 1`); an ascending tick with jump released cuts the speed to a tenth and clears the latch; otherwise nothing |
| PlayerModel.AttackFrame | src/classes/Player.ts:482-484 | the frame is the 16 ms tick that the elapsed time falls in |
| PlayerModel.StabAction | src/classes/Player.ts:488-502 | place the hitbox if and only if frame 15, remove it if and only if frame 20 or later, and the `>= 40` branch is never taken |
| PlayerModel.SwingAction | src/classes/Player.ts:524-536 | place if and only if frame 30, remove if and only if after frame 40, and the `>= 66` branch is never taken |
| PlayerModel.StabHitbox | src/classes/Player.ts:491-497 | damage 5, 130 x 25, 110 ahead of the sprite in its facing and 30 below it, in the world |
| PlayerModel.SwingHitbox | src/classes/Player.ts:526-531 | damage 10, 140 x 150, 70 ahead and 30 above, in the world |
| PlayerModel.FloorState | src/classes/Player.ts:413-417 | `walk` if and only if left or right is held, `idle` if and only if neither |
| PlayerModel.AfterAttackRequests | src/classes/Player.ts:203-207 | grounded: the floor state; airborne: `jump` |
| PlayerModel.StickControls | src/classes/Player.ts:309-319 | right if and only if stick x > 0.7, left if and only if stick x < -0.7, other keys unchanged |
| PlayerModel.GamepadP | src/classes/Player.ts:307-340 | without a stick nothing changes; with one, the keys follow the dead zones and fast-falling is set when stick y > 0.7, never cleared here |
| PlayerModel.Registry | src/classes/Player.ts:167-215 | six states; only stab and swing have exit hooks; idle and walk have no enter hook; all have update hooks |
| PlayerModel.AnimationTable | src/classes/Player.ts:96-165 | the six clips' table entries: exactly the six keys, an attack flag on swingO2 and stabO1 only, and one offset each |
| PlayerModel.ClipTable | src/classes/Player.ts:96-165 | the six clips, each under its own key at 5 fps, played once exactly when it is an attack clip and looped otherwise |
| PlayerModel.CreateAnimations | src/classes/Player.ts:96-165 | every createFrame'd key ends with a clip and a table entry, no key is lost, and the frame and body are untouched |
| PlayerModel.DefineStates | src/classes/Player.ts:167-215 | the six addState calls add exactly the six names and change nothing but the registry |
| PlayerModel.Created | src/classes/Player.ts:66-94 | the field initialisers: at the given position at rest, not grounded, full health, no hit-stun or lockout, the given keys, the six-state registry, no current state and an empty queue |
| PlayerModel.InitialP | src/classes/Player.ts:66-94 | after `setState('idle')` the registry, health and position are those of construction; InitialOutcome states the rest |
| PlayerProperties.StatesDefined | src/classes/Player.ts:167-215 | the six `addState` calls build exactly that registry |
| PlayerProperties.AnimationsCreated | src/classes/Player.ts:96-165 | the six `createFrame` calls build exactly the listed clip and data tables |
| PlayerProperties.StandStarted | src/classes/Player.ts:233 | `playAnimation('stand1')` on the new tables starts `stand1` at frame 1 with size 40 x 70 and offset 10, 0 |
| Players.Player.constructor | src/classes/Player.ts:66-94 | the new controller is InitialP: createAnimations, create, defineStates in that order |
| Players.Player.CreateAnimations | src/classes/Player.ts:96-165 | the helper's tables become exactly the built ones |
| Players.Player.Create | src/classes/Player.ts:221-245 | faces right and asks for `stand1`; from the fresh tables `stand1` is showing |
| Players.Player.DefineStates | src/classes/Player.ts:167-219 | registers the six states, then `setState('idle')` |
| Players.Player.AddStates | src/classes/Player.ts:167-215 | the machine's registry becomes exactly Registry |
| PlayerBehaviour.InitialOutcome | src/classes/Player.ts:66-245 | after construction: the invariant holds, `idle` is current with no previous state and an empty queue, hp 100, no lockout or hit-stun, facing right at rest, `stand1` showing |
| PlayerModel.ExitControls | src/classes/Player.ts:184-208 | leaving stab clears the attack key, leaving swing clears the swing key, other keys unchanged |
| PlayerModel.ExitHookP | src/classes/Player.ts:184-208 | the stab/swing exit clears its key and the lockout and queues the floor state or `jump`; nothing else changes |
| PlayerModel.EnterClipP | src/classes/Player.ts:366-515 | jump, stab, swing and alert ask for their clip under the lockout as it was |
| PlayerModel.AttackEntryP | src/classes/Player.ts:468-510 | entering stab or swing sets the lockout and stamps startTime with `now` |
| PlayerModel.ExitPhaseP | src/classes/Player.ts:184-208 | the exit step runs the exit hook if and only if the old state has one |
| PlayerModel.EnterPhaseP | src/classes/Player.ts:176-213 | the enter step: lockout and stamp exactly for attack states, the clip for states that select one |
| PlayerModel.BeginP | src/objects/StateMachine.ts:68 | sets the machine's transition flag and changes nothing else |
| PlayerModel.SwitchP | src/objects/StateMachine.ts:76-77 | the old current state becomes previous and the named entry current; nothing else changes |
| PlayerModel.EndP | src/objects/StateMachine.ts:83 | clears the transition flag and changes nothing else |
| PlayerModel.SetStateP | src/classes/Player.ts:167-215 | no hook touches motion, health, hit-stun, the hitbox, the movement keys, the animation tables or the registry |
| Players.Player.SetState | src/objects/StateMachine.ts:53-84 | the controller after `setState(name)` is SetStateP of the controller before |
| Players.Player.ExitPhase | src/objects/StateMachine.ts:72-74 | as ExitPhaseP |
| Players.Player.ExitHook | src/classes/Player.ts:184-208 | as ExitHookP |
| Players.Player.AfterAttack | src/classes/Player.ts:188-192 | during the transition it requests the floor state when grounded and `jump` when airborne; both requests go to the queue |
| Players.Player.EnterPhase | src/objects/StateMachine.ts:79-81 | as EnterPhaseP |
| PlayerModel.EnterHookP | src/classes/Player.ts:366-515 | the enter hooks keep motion, combat, keys, tables and registry; entering an attack state starts the lockout and stamps its start time, entering any other state leaves the lockout and machine as they were |
| Players.Player.EnterHook | src/classes/Player.ts:366-515 | as EnterHookP |
| PlayerProperties.SetStateResult | src/classes/Player.ts:167-215 | a transition to another registered state makes it current (stamped when an attack state), queues exactly the exit requests, clears an old attack's key and lockout, sets the lockout for a new attack, selects the clip, and keeps the invariant |
| PlayerProperties.SetStateIgnored | src/objects/StateMachine.ts:54-61 | a request for an unknown or the current state leaves the controller unchanged |
| PlayerProperties.SetStateKeepsConsistent | src/objects/StateMachine.ts:53-84 | every setState keeps the controller invariant (registry, no transition in progress, registered queue, animation tables) and a registered name ends current |
| PlayerProperties.SetStateNoLockout | src/classes/Player.ts:184-208 | a request for a non-attack state never sets the lockout or an attack key |
| PlayerProperties.SetStateMachine | src/objects/StateMachine.ts:68-83 | the machine side of a controller transition: current, previous, queue and hook trace |
| PlayerModel.FloorAnimationP | src/classes/Player.ts:410-418 | a no-op when airborne, the floor state request when grounded |
| Players.Player.HandleOnFloorAnimation | src/classes/Player.ts:410-418 | as FloorAnimationP |
| PlayerModel.FacingP | src/classes/Player.ts:579-585 | afterwards flipX equals the argument |
| Players.Player.SetPlayerFacingRight | src/classes/Player.ts:579-585 | as FacingP |
| PlayerModel.HeadingP | src/classes/Player.ts:430-446 | nothing while attacking; in the air only the facing changes |
| PlayerModel.MoveStepP | src/classes/Player.ts:427-447 | with no horizontal key nothing changes |
| PlayerModel.JumpStepP | src/classes/Player.ts:450-459 | jump on the floor while attacking only sets -450; no jump on the floor with a horizontal key, in the air, or while attacking changes nothing |
| PlayerModel.AttackStepP | src/classes/Player.ts:461-465 | nothing while attacking or with no attack key |
| PlayerModel.HandlePlayerActionP | src/classes/Player.ts:420-466 | nothing at all during hit-stun; never changes the health or the state registry |
| PlayerModel.LandedP | src/classes/Player.ts:423-425 | fast-falling survives only while airborne; nothing else changes |
| Players.Player.HandlePlayerAction | src/classes/Player.ts:420-466 | as HandlePlayerActionP |
| Players.Player.MoveStep | src/classes/Player.ts:427-447 | as MoveStepP |
| Players.Player.JumpStep | src/classes/Player.ts:450-459 | as JumpStepP |
| Players.Player.AttackStep | src/classes/Player.ts:461-465 | as AttackStepP |
| PlayerBehaviour.MoveOutcome | src/classes/Player.ts:427-447 | left gives -600, else right gives 600; facing follows the key and, grounded, `walk` becomes current, only when not attacking; while attacking neither facing nor state nor clip change |
| PlayerBehaviour.JumpOutcome | src/classes/Player.ts:450-459 | jump on the floor sets -450 and makes `jump` current unless attacking; otherwise no horizontal key, grounded, not attacking, not stunned makes `idle` current |
| PlayerBehaviour.AttackOutcome | src/classes/Player.ts:461-465 | attack (first) makes `stab` current, else swing makes `swing` current, neither while attacking; a fresh attack sets the lockout and stamps startTime with `now` |
| PlayerBehaviour.AttackLockout | src/classes/Player.ts:427-465 | while attacking, the action step changes only the motion: no facing, state, clip or key changes |
| PlayerBehaviour.FastFallCleared | src/classes/Player.ts:423-425 | fast-falling ends in the action step if and only if grounded and not stunned |
| PlayerBehaviour.AttackExit | src/classes/Player.ts:184-208 | leaving stab or swing clears that key and the lockout and queues the floor state (or `jump`), which the next update takes |
| PlayerBehaviour.StabWindows | src/classes/Player.ts:483-500 | the stab hitbox is placed if and only if 240 <= elapsed ms < 256, removed if and only if elapsed ms >= 320 |
| PlayerBehaviour.SwingWindows | src/classes/Player.ts:519-534 | the swing hitbox is placed if and only if 480 <= elapsed ms < 496, removed if and only if elapsed ms >= 656 |
| PlayerModel.StabUpdateP | src/classes/Player.ts:481-503 | the stab update changes the attack zone and nothing else (the source's end-of-attack branch is never reached) |
| PlayerModel.SwingUpdateP | src/classes/Player.ts:517-537 | the swing update changes the attack zone and nothing else (the end-of-attack branch is never reached) |
| PlayerBehaviour.StabUpdateOutcome | src/classes/Player.ts:481-503 | the stab update touches only the attack zone: the stab hitbox in its window, out of the world from 320 ms, otherwise unchanged |
| PlayerBehaviour.SwingUpdateOutcome | src/classes/Player.ts:517-537 | the swing update touches only the attack zone: the swing hitbox in its window, out of the world from 656 ms |
| Players.Player.CurrentFrame | src/classes/Player.ts:482-484 | the frame computed from the fields is AttackFrame of `now` and the current startTime |
| Players.Player.OnStabUpdate | src/classes/Player.ts:481-503 | as StabUpdateP |
| Players.Player.OnSwingUpdate | src/classes/Player.ts:517-537 | as SwingUpdateP |
| Players.Player.OnIdleUpdate | src/classes/Player.ts:376-380 | grounded, asks for `stand1` |
| Players.Player.OnWalkUpdate | src/classes/Player.ts:382-386 | grounded, asks for `walk1` |
| PlayerModel.JumpUpdateP | src/classes/Player.ts:393-408 | keeps motion and combat; grounded, the jump key ends released; airborne, the keys and the machine are kept |
| Players.Player.OnJumpUpdate | src/classes/Player.ts:393-408 | asks for `jump`; grounded, clears the jump key and hands over to handleOnFloorAnimation |
| PlayerModel.UpdateHookP | src/classes/Player.ts:370-537 | no update hook moves the body or changes health or hit-stun; apart from `jump`, whose landing hands over to another state, none changes the lockout or the machine |
| Players.Player.UpdateHook | src/classes/Player.ts:370-537 | runs the current state's update hook, as UpdateHookP |
| PlayerModel.FsmUpdateP | src/objects/StateMachine.ts:86-95 | the machine's update keeps motion, health and the state registry; FsmUpdateKeepsConsistent: it keeps the controller invariant |
| Players.Player.OnUpdate | src/objects/StateMachine.ts:86-95 | as FsmUpdateP: one queued transition, or else the current update hook |
| PlayerProperties.UpdateHookKeepsConsistent | src/classes/Player.ts:370-537 | every update hook keeps the controller invariant |
| PlayerProperties.FsmUpdateKeepsConsistent | src/objects/StateMachine.ts:86-95 | the machine's update keeps the controller invariant |
| PlayerBehaviour.FsmUpdateKeepsPhys | src/classes/Player.ts:263 | the machine's update never moves the body or changes the grounded flag |
| PlayerModel.FrictionP | src/classes/Player.ts:358-364 | the horizontal speed becomes Friction of the speed, the grounded flag and the horizontal keys; nothing else changes |
| Players.Player.HandleFriction | src/classes/Player.ts:358-364 | as Friction on the body's speed |
| PlayerBehaviour.CoastFromMultiple | src/classes/Player.ts:358-364 | a speed of k steps of 50 in either direction coasts to exactly 0 in k ticks |
| PlayerBehaviour.CoastOscillates | src/classes/Player.ts:358-364 | with no clamp, a speed strictly between 0 and 50 overshoots past 0 and is back after two ticks |
| PlayerModel.BetterJumpingP | src/classes/Player.ts:343-356 | the vertical speed and the latch become BetterJump's; nothing else changes |
| Players.Player.BetterJumping | src/classes/Player.ts:343-356 | as BetterJump on the body's vertical speed and the latch |
| PlayerBehaviour.LatchBoostsOnce | src/classes/Player.ts:345-351 | a descent is boosted once: the latch then holds the boosted speed on every later descending tick |
| PlayerBehaviour.FallBoostReverses | src/classes/Player.ts:350 | `vy * 30 - 1` reverses a descent slower than 1/31 |
| Players.Player.HandleGamepadControls | src/classes/Player.ts:307-340 | as GamepadP |
| PlayerModel.SyncP | src/classes/Player.ts:253-260 | position and velocity mirror the body; grounded if and only if floor contact and no vertical speed |
| Players.Player.Sync | src/classes/Player.ts:253-260 | as SyncP |
| PlayerModel.TickP | src/classes/Player.ts:247-264 | a tick keeps health and the state registry; TickKeepsConsistent and TickGroundedFlag: it keeps the invariant and the grounded flag is the resynchronised one |
| Players.Player.Update | src/classes/Player.ts:247-264 | gamepad, action, friction, jump shaping, resync, then the machine's update, as TickP |
| PlayerBehaviour.TickGroundedFlag | src/classes/Player.ts:247-263 | the grounded flag after a tick is floor contact with no vertical speed after the action, friction and jump steps; friction reads the previous tick's flag |
| PlayerProperties.HandlePlayerActionKeepsConsistent | src/classes/Player.ts:420-466 | the action step keeps the controller invariant |
| PlayerProperties.TickKeepsConsistent | src/classes/Player.ts:247-264 | a whole tick keeps the controller invariant |
| PlayerModel.HurtP | src/classes/Player.ts:542-547 | health drops by the damage, hit-stun starts, the own zone leaves the world |
| PlayerModel.DamageP | src/classes/Player.ts:539-540 | a hit during hit-stun changes nothing, the attacker's hitbox included |
| Players.Player.OnDamageTaken | src/classes/Player.ts:539-577 | the controller and the attacker's hitbox after a hit are DamageP of those before |
| Players.Player.Hurt | src/classes/Player.ts:542-547 | as HurtP |
| PlayerModel.KnockbackP | src/classes/Player.ts:550-557 | an attacker to the right pushes 500 to the left and turns to face left, otherwise 500 to the right facing right; nothing but the horizontal speed and facing changes |
| Players.Player.Knockback | src/classes/Player.ts:550-557 | as KnockbackP |
| PlayerBehaviour.DamageOutcome | src/classes/Player.ts:539-557 | outside hit-stun: hp drops by exactly the damage, the own attack zone leaves the world, the attacker's hitbox becomes 0 x 0, hit-stun starts, `alert` becomes current; an attacker strictly to the right pushes 500 left and faces left, otherwise (equal x included) 500 right facing right |
| PlayerProperties.DamageKeepsConsistent | src/classes/Player.ts:539-557 | a hit keeps the controller invariant |
| PlayerModel.DamageTimerP | src/classes/Player.ts:570-571 | the hit-stun timer ends hit-stun |
| Players.Player.OnDamageTimerFired | src/classes/Player.ts:570-575 | as DamageTimerP |
| PlayerBehaviour.HitStun | src/classes/Player.ts:539-571 | a second hit during hit-stun has no effect; after the timer fires, the next hit lands in full |
| Players.Player.OnAlertTimerFired | src/classes/Player.ts:370-374 | the alert timer requests `idle` |
| PlayerModel.AlertTimerP | src/classes/Player.ts:370-374 | the alert timer's `setState('idle')` keeps motion, combat, movement keys, tables and registry |
| PlayerBehaviour.JumpLandingOutcome | src/classes/Player.ts:393-418 | a jump update on the floor releases the jump key and makes the grounded state current (`walk` with a horizontal key held, else `idle`), keeping the invariant; in the air it only requests the `jump` clip |
| PlayerBehaviour.AlertTimerOutcome | src/classes/Player.ts:370-374 | the alert timer makes `idle` current and keeps motion and combat |
| PlayerProperties.TimersKeepConsistent | src/classes/Player.ts:370-575 | both timers keep the controller invariant |
| PlayerModel.AnimationCompleteP | src/classes/PlayerAnimation.ts:75-88 | completion of a non-attack clip changes nothing |
| Players.Player.OnAnimationComplete | src/classes/PlayerAnimation.ts:75-88 | as AnimationCompleteP |
| PlayerBehaviour.CompletionOutcome | src/classes/PlayerAnimation.ts:75-88 | after an attack clip the lockout ends; `idle` is current with no horizontal input, grounded and not stunned; `jump` is current when airborne; otherwise nothing else changes |
| PlayerProperties.CompletionKeepsConsistent | src/classes/PlayerAnimation.ts:75-88 | completion keeps the controller invariant |
| Legacy.Registry | src/objects/Player.ts:16-33 | four states; all have an enter hook, none has an exit hook, and swing alone has no update hook |
| Legacy.RegisterStates | src/objects/Player.ts:16-33 | the four addState calls add exactly idle, walk, jump and swing and change nothing but the registry |
| Legacy.StatesAdded | src/objects/Player.ts:16-33 | the four `addState` calls build exactly that registry |
| Legacy.LegacyPlayer.constructor | src/objects/Player.ts:9-36 | the four states, then `setState('idle')` |
| Legacy.LegacyPlayer.AddStates | src/objects/Player.ts:16-33 | the machine's registry becomes exactly Registry |
| Legacy.InitialOutcome | src/objects/Player.ts:9-111 | after construction `idle` is current with no previous state, its clip is playing and the horizontal speed is 0 |
| Legacy.EnterEffect | src/objects/Player.ts:108-171 | entering idle or swing sets vx to 0; entering jump sets vy to -500; each plays its own clip; facing and floor contact are untouched |
| Legacy.InitialL | src/objects/Player.ts:9-36 | the constructed player has the four-state registry and no transition in progress; InitialOutcome: `idle` is current and at rest |
| Legacy.EnterPhaseL | src/objects/StateMachine.ts:79-81 | without an enter hook nothing changes; with one the sprite gets exactly the new state's EnterEffect; registry, current state and queue are kept |
| Legacy.LegacyPlayer.EnterHook | src/objects/Player.ts:108-171 | as EnterEffect |
| Legacy.LegacyPlayer.SetState | src/objects/StateMachine.ts:53-84 | as SetStateL |
| Legacy.SetStateL | src/objects/StateMachine.ts:53-84 | keeps the registry and the in-progress flag, and a request that is not carried out now leaves the sprite alone; SetStateOutcome states the rest |
| Legacy.SetStateOutcome | src/objects/StateMachine.ts:53-84 | a registered name ends current; an unknown or current name changes nothing; a real transition applies exactly the new state's enter effect; the invariant is kept |
| Legacy.LateralL | src/objects/Player.ts:155-167 | left gives -300 facing left, else right gives 300 facing right, both without touching the machine; the grounded flag and registry are kept |
| Legacy.LateralOutcome | src/objects/Player.ts:155-167 | left gives -300 facing left; else right gives 300 facing right; with neither held on the floor `idle` becomes current, and in the air nothing changes |
| Legacy.LegacyPlayer.HandleLateralMovement | src/objects/Player.ts:155-167 | as LateralL |
| Legacy.IdleUpdateL | src/objects/Player.ts:113-121 | keeps the registry; IdleUpdateNeverSwings states where it ends |
| Legacy.IdleUpdateNeverSwings | src/objects/Player.ts:113-121 | an idle update ends in idle or jump, never swing; space sets only the sprite's own state; jump is current if and only if up is held on the floor |
| Legacy.LegacyPlayer.OnIdleUpdate | src/objects/Player.ts:113-121 | as IdleUpdateL |
| Legacy.WalkUpdateL | src/objects/Player.ts:127-137 | keeps the registry; WalkUpdateLeavesWalk: it never stays in walk |
| Legacy.WalkUpdateLeavesWalk | src/objects/Player.ts:127-137 | one walk update never stays in walk: it ends in swing with space held and in idle otherwise |
| Legacy.LegacyPlayer.OnWalkUpdate | src/objects/Player.ts:127-137 | as WalkUpdateL |
| Legacy.JumpUpdateL | src/objects/Player.ts:144-153 | keeps the registry, and in the air leaves the machine alone; JumpLanding states the landing |
| Legacy.JumpLanding | src/objects/Player.ts:144-153 | on the floor a jump update ends in idle if and only if both speeds after the lateral step are 0, else in walk; in the air only the lateral step happens and `jump` stays current |
| Legacy.LegacyPlayer.OnJumpUpdate | src/objects/Player.ts:144-153 | as JumpUpdateL |
| Legacy.LegacyPlayer.Update | src/objects/StateMachine.ts:86-95 | as UpdateL |
| Legacy.SwingUpdateIsIdentity | src/objects/Player.ts:31-33 | with swing current an update changes nothing |
| Legacy.SwingIsNeverLeft | src/objects/Player.ts:31-33 | once swing is current, no sequence of updates ever leaves it |
| Legacy.UpdateHookL | src/objects/StateMachine.ts:92-94 | dispatching to the current state's update hook keeps the registry, and in swing, which has none, changes nothing |
| Legacy.UpdatesL | src/objects/StateMachine.ts:86-95 | any number of updates keep the registry; SwingIsNeverLeft: once in swing, they never leave it |
| Legacy.UpdateL | src/objects/StateMachine.ts:86-95 | keeps the registry; UpdateKeepsInv: it keeps the whole invariant |
| Legacy.UpdateKeepsInv | src/objects/StateMachine.ts:86-95 | every update keeps the registry, an empty queue, no transition in progress and a registered current state |

## Left out

- Rendering, sprite scaling, tints, alpha tweens, the HP text and sound
  (`src/classes/Player.ts` lines 86, 222-231, 262, 475-477, 546, 559-568):
  engine side effects with nothing to decide.
- Physics integration and gravity: the body is given state, and its engine
  floor contact is an input bit.
- Timers: `delayedCall` is not modelled. Its expiry is an explicit "timer
  fired" operation, with no passage of time. The `60 * damage` delay of the
  hit-stun timer, and its `?? 5` default, are therefore not represented.
- Gamepad connection and button event wiring
  (`src/classes/Player.ts:268-305`): only the stick thresholds are kept.
  `enableTapJump` and `enableDropBelowTerrain` are always false in the source,
  so their branches are left out.
- Floating point: speeds are `real`. BetterJump makes no claim about float
  rounding.
- `new Date().getTime()` is the parameter `now`.
- `src/scenes/Game.ts`, `src/scenes/DebugUI.ts`, `src/config.ts` and
  `src/index.ts` are not part of this model.
- `src/classes/StateMachine.ts` is not part of this model. It is taken to
  behave as `src/objects/StateMachine.ts`, plus a `startTime` per state.
- Composition: a controller owns its machine rather than extending it. The
  console logging of the machine is left out.
- The legacy `createAnimations` and `onCreate` (`src/objects/Player.ts:38-106`)
  only register engine animations and set the body size. The legacy sprite's
  `play` is recorded as the key last played.
- The ANIMATION_UPDATE event's clip key, frame index and "last frame" flag
  are parameters. They stand for the engine's animation player, which is not
  modelled.
- Atlas frame names: a registered clip keeps its frame count; its names are
  given by `Animation.Frames`.
- Exceptions: where the source reads a field of `undefined` and throws, the
  model returns an outcome and changes nothing. This applies to
  `playAnimation` while attacking before any clip, a clip without table data,
  and a frame update for a clip without an entry. The controller ignores that
  outcome.
- The unarmed starting attack zone: the source creates it at
  `src/classes/Player.ts:87` without a `damage`, which it only gets at the first
  stab or swing frame (`:492`, `:527`). The model gives it damage 0. In the
  source a hit by it would make the health `NaN`, and `?? 5` would give a
  300 ms hit-stun. The zone starts at (-1000, -1000), out of reach.
