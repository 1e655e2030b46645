/**
 * The generic named-state machine of src/objects/StateMachine.ts.
 *
 * A state's hooks are modelled as data: a hook is the list of setState
 * requests it issues when it runs. Every hook invocation is appended to a
 * trace (`calls`), so that "no hook ran" can be stated.
 *
 * The pure functions below are the specification; the class StateMachine
 * holds the same data in mutable fields and each method is proved to move
 * its Snapshot() exactly as the matching function says.
 */
module Fsm {
  import opened Wrappers

  /** A hook as data: the setState requests it makes, in order. */
  datatype Hook = Hook(requests: seq<string>)

  /**
   * A registered state. `startTime` is the entry timestamp that attack
   * states stamp on themselves; a state that was never stamped reads 0,
   * which is what `startTime ?? 0` gives for an unset field.
   */
  datatype StateDef = StateDef(
    name: string,
    onEnter: Option<Hook>,
    onUpdate: Option<Hook>,
    onExit: Option<Hook>,
    startTime: int)

  /** One invocation of a hook. */
  datatype HookCall = Entered(state: string) | Updated(state: string) | Exited(state: string)

  /** The whole state of a machine: registry, current and previous state, flag, queue, trace. */
  datatype Machine = Machine(
    states: map<string, StateDef>,
    current: Option<StateDef>,
    previous: Option<StateDef>,
    changing: bool,
    queue: seq<string>,
    calls: seq<HookCall>)

  /** What setState does with a request: its three guards, taken in order. */
  datatype Disposition = Unknown | AlreadyCurrent | Deferred | Immediate

  const Initial := Machine(map[], None, None, false, [], [])

  predicate IsCurrent(m: Machine, name: string)
  {
    m.current.Some? && m.current.value.name == name
  }

  function CurrentName(m: Machine): Option<string>
  {
    if m.current.Some? then Some(m.current.value.name) else None
  }

  /** The `previousStateName` getter. */
  function PreviousName(m: Machine): (s: string)
    ensures m.previous.None? ==> s == ""
    ensures m.previous.Some? ==> s == m.previous.value.name
  {
    if m.previous.None? then "" else m.previous.value.name
  }

  /** Registry names are keys of their own entries and every queued name is registered. */
  ghost predicate Wf(m: Machine)
  {
    && (forall k :: k in m.states ==> m.states[k].name == k)
    && (forall i :: 0 <= i < |m.queue| ==> m.queue[i] in m.states)
  }

  /** `addState`: registers a state, overwriting any entry under the same name. */
  function AddStateSpec(m: Machine, name: string, onEnter: Option<Hook>, onUpdate: Option<Hook>,
                        onExit: Option<Hook>): (r: Machine)
    ensures r.states.Keys == m.states.Keys + {name}
    ensures r.states[name] == StateDef(name, onEnter, onUpdate, onExit, 0)
    ensures forall k :: k in m.states && k != name ==> r.states[k] == m.states[k]
    ensures r.current == m.current && r.previous == m.previous && r.changing == m.changing
    ensures r.queue == m.queue && r.calls == m.calls
    ensures Wf(m) ==> Wf(r)
  {
    m.(states := m.states[name := StateDef(name, onEnter, onUpdate, onExit, 0)])
  }

  /** The guard order of `setState`: unknown name, then current name, then transition in progress. */
  function Classify(m: Machine, name: string): (d: Disposition)
    ensures d == Unknown <==> name !in m.states
    ensures d == AlreadyCurrent <==> name in m.states && IsCurrent(m, name)
    ensures d == Deferred <==> name in m.states && !IsCurrent(m, name) && m.changing
    ensures d == Immediate <==> name in m.states && !IsCurrent(m, name) && !m.changing
  {
    if name !in m.states then Unknown
    else if IsCurrent(m, name) then AlreadyCurrent
    else if m.changing then Deferred
    else Immediate
  }

  /** A setState request made while a transition is in progress: queued or dropped. */
  function Request(m: Machine, name: string): Machine
    requires m.changing
  {
    if Classify(m, name) == Deferred then m.(queue := m.queue + [name]) else m
  }

  /** Mid-transition, a registered name other than the current one is queued; any other is dropped. */
  lemma RequestOutcome(m: Machine, name: string)
    requires m.changing
    ensures name in m.states && !IsCurrent(m, name) ==> Request(m, name) == m.(queue := m.queue + [name])
    ensures name !in m.states || IsCurrent(m, name) ==> Request(m, name) == m
  {
  }

  /** The requests of `rs` that a transition in progress puts on the queue. */
  function Accepted(m: Machine, rs: seq<string>): (acc: seq<string>)
    ensures |acc| <= |rs|
    ensures forall i :: 0 <= i < |acc| ==> acc[i] in m.states && !IsCurrent(m, acc[i])
    decreases |rs|
  {
    if rs == [] then []
    else
      var last := rs[|rs| - 1];
      Accepted(m, rs[..|rs| - 1]) + (if last in m.states && !IsCurrent(m, last) then [last] else [])
  }

  /** A hook that runs during a transition issues `rs`, one request after another. */
  function RequestAll(m: Machine, rs: seq<string>): (r: Machine)
    requires m.changing
    ensures r == m.(queue := m.queue + Accepted(m, rs))
    decreases |rs|
  {
    if rs == [] then m else Request(RequestAll(m, rs[..|rs| - 1]), rs[|rs| - 1])
  }

  function Requests(h: Option<Hook>): seq<string>
  {
    if h.Some? then h.value.requests else []
  }

  predicate HasExit(m: Machine)
  {
    m.current.Some? && m.current.value.onExit.Some?
  }

  predicate HasEnter(m: Machine)
  {
    m.current.Some? && m.current.value.onEnter.Some?
  }

  // The five steps of a transition, one function each.

  function Began(m: Machine): Machine
  {
    m.(changing := true)
  }

  function ExitLogged(m: Machine): Machine
    requires m.current.Some?
  {
    m.(calls := m.calls + [Exited(m.current.value.name)])
  }

  function Switched(m: Machine, name: string): Machine
    requires name in m.states
  {
    m.(previous := m.current, current := Some(m.states[name]))
  }

  function EnterLogged(m: Machine): Machine
    requires m.current.Some?
  {
    m.(calls := m.calls + [Entered(m.current.value.name)])
  }

  function Ended(m: Machine): Machine
  {
    m.(changing := false)
  }

  function ExitCalls(m: Machine): seq<HookCall>
  {
    if HasExit(m) then [Exited(m.current.value.name)] else []
  }

  function EnterCalls(d: StateDef): seq<HookCall>
  {
    if d.onEnter.Some? then [Entered(d.name)] else []
  }

  /**
   * A transition to `name` in which the old state's exit hook (if any)
   * issues `exitReqs` and the new state's enter hook (if any) issues
   * `enterReqs`.
   */
  function TransitionWith(m: Machine, name: string, exitReqs: seq<string>, enterReqs: seq<string>): (r: Machine)
    requires name in m.states
    ensures r.states == m.states && r.current == Some(m.states[name])
  {
    var m1 := Began(m);
    var m2 := if HasExit(m1) then RequestAll(ExitLogged(m1), exitReqs) else m1;
    var m3 := Switched(m2, name);
    var m4 := if HasEnter(m3) then RequestAll(EnterLogged(m3), enterReqs) else m3;
    Ended(m4)
  }

  /** The requests the hooks of the current state issue when it exits. */
  function ExitRequests(m: Machine): seq<string>
  {
    if m.current.Some? then Requests(m.current.value.onExit) else []
  }

  /** `setState(name)`. */
  function SetStateSpec(m: Machine, name: string): (r: Machine)
    ensures name !in m.states ==> r == m
    ensures IsCurrent(m, name) ==> r == m
    ensures m.changing ==> r == Request(m, name)
    ensures r.states == m.states
  {
    match Classify(m, name)
    case Unknown => m
    case AlreadyCurrent => m
    case Deferred => m.(queue := m.queue + [name])
    case Immediate => TransitionWith(m, name, ExitRequests(m), Requests(m.states[name].onEnter))
  }

  /** An update hook runs with no transition in progress: each of its requests is a full setState. */
  function SetStateAll(m: Machine, rs: seq<string>): (r: Machine)
    ensures r.states == m.states
    decreases |rs|
  {
    if rs == [] then m else SetStateSpec(SetStateAll(m, rs[..|rs| - 1]), rs[|rs| - 1])
  }

  /** `update(dt)`: one queued transition, or else the current state's update hook. */
  function UpdateSpec(m: Machine): (r: Machine)
    ensures r.states == m.states
  {
    if |m.queue| > 0 then SetStateSpec(m.(queue := m.queue[1..]), m.queue[0])
    else if m.current.Some? && m.current.value.onUpdate.Some? then
      SetStateAll(m.(calls := m.calls + [Updated(m.current.value.name)]), m.current.value.onUpdate.value.requests)
    else m
  }

  /** `update` applied `n` times. */
  function UpdateTimes(m: Machine, n: nat): Machine
    decreases n
  {
    if n == 0 then m else UpdateTimes(UpdateSpec(m), n - 1)
  }

  // ---------------------------------------------------------------------
  // Properties
  // ---------------------------------------------------------------------

  /**
   * The outcome of one transition: the exit hook runs with the old state
   * current, then previous := old current and current := the registered
   * entry, then the enter hook runs, and the flag ends cleared. Requests
   * made by either hook are queued when registered and not then current.
   */
  lemma {:induction false} TransitionOutcome(m: Machine, name: string, exitReqs: seq<string>, enterReqs: seq<string>)
    requires name in m.states
    ensures var r := TransitionWith(m, name, exitReqs, enterReqs);
      && r.current == Some(m.states[name])
      && r.previous == m.current
      && !r.changing
      && r.states == m.states
      && r.calls == m.calls + ExitCalls(m) + EnterCalls(m.states[name])
      && r.queue == m.queue
                    + (if HasExit(m) then Accepted(m, exitReqs) else [])
                    + (if m.states[name].onEnter.Some? then Accepted(Switched(m, name), enterReqs) else [])
  {
    var m1 := Began(m);
    var m2 := if HasExit(m1) then RequestAll(ExitLogged(m1), exitReqs) else m1;
    if HasExit(m1) {
      AcceptedDependsOnRegistry(ExitLogged(m1), m, exitReqs);
    }
    var m3 := Switched(m2, name);
    if HasEnter(m3) {
      AcceptedDependsOnRegistry(EnterLogged(m3), Switched(m, name), enterReqs);
    }
  }

  /** Which requests are accepted depends only on the registry and the current state. */
  lemma {:induction false} AcceptedDependsOnRegistry(m: Machine, n: Machine, rs: seq<string>)
    requires m.states == n.states && m.current == n.current
    ensures Accepted(m, rs) == Accepted(n, rs)
    decreases |rs|
  {
    if rs != [] {
      AcceptedDependsOnRegistry(m, n, rs[..|rs| - 1]);
    }
  }

  /** A request for an unregistered name changes nothing: no state, queue or hook change. */
  lemma UnknownStateIgnored(m: Machine, name: string)
    requires name !in m.states
    ensures SetStateSpec(m, name) == m
  {
  }

  /** A request for the current state is a no-op, even while a transition is in progress. */
  lemma CurrentStateIgnored(m: Machine, name: string)
    requires IsCurrent(m, name)
    ensures SetStateSpec(m, name) == m
  {
  }

  /** A request made during a transition goes to the end of the queue; nothing else changes. */
  lemma ReentrantRequestQueued(m: Machine, name: string)
    requires m.changing && name in m.states && !IsCurrent(m, name)
    ensures SetStateSpec(m, name) == m.(queue := m.queue + [name])
  {
  }

  /**
   * A request with no transition in progress is a full transition:
   * old exit hook, previous := current, current := the entry, new enter
   * hook, and the flag cleared again.
   */
  lemma {:induction false} ImmediateTransition(m: Machine, name: string)
    requires !m.changing && name in m.states && !IsCurrent(m, name)
    ensures var r := SetStateSpec(m, name);
      && r.current == Some(m.states[name])
      && r.previous == m.current
      && !r.changing
      && r.states == m.states
      && r.calls == m.calls + ExitCalls(m) + EnterCalls(m.states[name])
      && r.queue[..|m.queue|] == m.queue
  {
    TransitionOutcome(m, name, ExitRequests(m), Requests(m.states[name].onEnter));
  }

  /** setState keeps the machine well formed: only registered names are ever queued. */
  lemma {:induction false} SetStateKeepsWf(m: Machine, name: string)
    requires Wf(m)
    ensures Wf(SetStateSpec(m, name))
    ensures SetStateSpec(m, name).states == m.states
    ensures !m.changing ==> !SetStateSpec(m, name).changing
  {
    match Classify(m, name)
    case Unknown =>
    case AlreadyCurrent =>
    case Deferred =>
    case Immediate =>
      TransitionOutcome(m, name, ExitRequests(m), Requests(m.states[name].onEnter));
  }

  lemma {:induction false} SetStateAllKeepsWf(m: Machine, rs: seq<string>)
    requires Wf(m)
    ensures Wf(SetStateAll(m, rs))
    ensures SetStateAll(m, rs).states == m.states
    ensures !m.changing ==> !SetStateAll(m, rs).changing
    decreases |rs|
  {
    if rs != [] {
      SetStateAllKeepsWf(m, rs[..|rs| - 1]);
      SetStateKeepsWf(SetStateAll(m, rs[..|rs| - 1]), rs[|rs| - 1]);
    }
  }

  /** update keeps the machine well formed and leaves no transition in progress. */
  lemma {:induction false} UpdateKeepsWf(m: Machine)
    requires Wf(m)
    ensures Wf(UpdateSpec(m))
    ensures UpdateSpec(m).states == m.states
    ensures !m.changing ==> !UpdateSpec(m).changing
  {
    if |m.queue| > 0 {
      SetStateKeepsWf(m.(queue := m.queue[1..]), m.queue[0]);
    } else if m.current.Some? && m.current.value.onUpdate.Some? {
      SetStateAllKeepsWf(m.(calls := m.calls + [Updated(m.current.value.name)]), m.current.value.onUpdate.value.requests);
    }
  }

  /**
   * With a non-empty queue, update removes exactly the head and performs
   * that one transition: the rest of the queue keeps its order at the front,
   * the head becomes current, no update hook runs and at most one exit and
   * one enter hook run.
   */
  lemma {:induction false} UpdateTakesHead(m: Machine)
    requires Wf(m) && !m.changing && |m.queue| > 0
    ensures var r := UpdateSpec(m);
      && IsCurrent(r, m.queue[0])
      && r.queue[..|m.queue| - 1] == m.queue[1..]
      && |r.calls| <= |m.calls| + 2
      && r.calls[..|m.calls|] == m.calls
      && forall i :: |m.calls| <= i < |r.calls| ==> !r.calls[i].Updated?
  {
    var head := m.queue[0];
    var m' := m.(queue := m.queue[1..]);
    if !IsCurrent(m', head) {
      ImmediateTransition(m', head);
    }
  }

  /** setState never runs an update hook: it keeps the trace and appends only exit and enter entries. */
  lemma {:induction false} SetStateLogsNoUpdate(m: Machine, name: string)
    ensures var r := SetStateSpec(m, name);
      && |m.calls| <= |r.calls| && r.calls[..|m.calls|] == m.calls
      && forall i :: |m.calls| <= i < |r.calls| ==> !r.calls[i].Updated?
  {
    if Classify(m, name) == Immediate {
      TransitionOutcome(m, name, ExitRequests(m), Requests(m.states[name].onEnter));
    }
  }

  /** The same for the setState calls an update hook makes, one after another. */
  lemma {:induction false} SetStateAllLogsNoUpdate(m: Machine, rs: seq<string>)
    ensures var r := SetStateAll(m, rs);
      && |m.calls| <= |r.calls| && r.calls[..|m.calls|] == m.calls
      && forall i :: |m.calls| <= i < |r.calls| ==> !r.calls[i].Updated?
    decreases |rs|
  {
    if rs != [] {
      var m1 := SetStateAll(m, rs[..|rs| - 1]);
      SetStateAllLogsNoUpdate(m, rs[..|rs| - 1]);
      SetStateLogsNoUpdate(m1, rs[|rs| - 1]);
      var r := SetStateSpec(m1, rs[|rs| - 1]);
      assert r.calls[..|m.calls|] == r.calls[..|m1.calls|][..|m.calls|];
    }
  }

  /**
   * With an empty queue, update runs the current state's update hook and
   * no other: the trace grows by that one update entry, and whatever the
   * hook's own setState calls add after it holds no further update entry.
   * Without an update hook nothing changes.
   */
  lemma {:induction false} UpdateRunsHook(m: Machine)
    requires m.queue == []
    ensures m.current.None? || m.current.value.onUpdate.None? ==> UpdateSpec(m) == m
    ensures m.current.Some? && m.current.value.onUpdate.Some? ==>
      var r := UpdateSpec(m);
      && |m.calls| < |r.calls|
      && r.calls[..|m.calls| + 1] == m.calls + [Updated(m.current.value.name)]
      && forall i :: |m.calls| < i < |r.calls| ==> !r.calls[i].Updated?
    ensures m.current.Some? && m.current.value.onUpdate.Some? && m.current.value.onUpdate.value.requests == [] ==>
      UpdateSpec(m) == m.(calls := m.calls + [Updated(m.current.value.name)])
  {
    if m.current.Some? && m.current.value.onUpdate.Some? {
      var m1 := m.(calls := m.calls + [Updated(m.current.value.name)]);
      SetStateAllLogsNoUpdate(m1, m.current.value.onUpdate.value.requests);
    }
  }

  /** A state whose hooks issue no requests. */
  predicate QuietDef(d: StateDef)
  {
    Requests(d.onEnter) == [] && Requests(d.onUpdate) == [] && Requests(d.onExit) == []
  }

  /** A machine whose every hook, registered or current, issues no requests. */
  ghost predicate Quiet(m: Machine)
  {
    (forall k :: k in m.states ==> QuietDef(m.states[k])) && (m.current.Some? ==> QuietDef(m.current.value))
  }

  /** With quiet hooks, one update consumes the head of the queue and makes it current. */
  lemma {:induction false} QuietUpdateStep(m: Machine)
    requires Wf(m) && Quiet(m) && !m.changing && |m.queue| > 0
    ensures var r := UpdateSpec(m);
      Wf(r) && Quiet(r) && !r.changing && r.queue == m.queue[1..] && IsCurrent(r, m.queue[0])
  {
    var head := m.queue[0];
    var m' := m.(queue := m.queue[1..]);
    if !IsCurrent(m', head) {
      TransitionOutcome(m', head, ExitRequests(m'), Requests(m'.states[head].onEnter));
    }
    SetStateKeepsWf(m', head);
  }

  /**
   * FIFO draining, for any hooks: after `k` updates the first `k` queued
   * names have been taken in turn, the k-th of them is current, and the
   * rest of the original queue is still at the front in its order; what
   * the hooks queued meanwhile waits behind it.
   */
  lemma {:induction false} UpdatesTakeQueueInOrder(m: Machine, k: nat)
    requires Wf(m) && !m.changing && k <= |m.queue|
    ensures var r := UpdateTimes(m, k);
      && Wf(r) && !r.changing && r.states == m.states
      && |m.queue| - k <= |r.queue|
      && r.queue[..|m.queue| - k] == m.queue[k..]
      && (k > 0 ==> IsCurrent(r, m.queue[k - 1]))
    decreases k
  {
    if k > 0 {
      var r1 := UpdateSpec(m);
      UpdateTakesHead(m);
      UpdateKeepsWf(m);
      UpdatesTakeQueueInOrder(r1, k - 1);
      assert UpdateTimes(m, k) == UpdateTimes(r1, k - 1);
      DrainStep(m, r1, UpdateTimes(r1, k - 1), k);
    }
  }

  /**
   * One step of the induction above: the first update took the head of
   * `m`'s queue into `r1`, and the remaining `k - 1` updates took
   * `r1`'s first `k - 1` names into `r`.
   */
  lemma DrainStep(m: Machine, r1: Machine, r: Machine, k: nat)
    requires 1 <= k <= |m.queue|
    requires Wf(r1) && !r1.changing && r1.states == m.states && IsCurrent(r1, m.queue[0])
    requires |m.queue| - 1 <= |r1.queue| && r1.queue[..|m.queue| - 1] == m.queue[1..]
    requires Wf(r) && !r.changing && r.states == r1.states
    requires |r1.queue| - (k - 1) <= |r.queue| && r.queue[..|r1.queue| - (k - 1)] == r1.queue[k - 1..]
    requires k == 1 ==> r == r1
    requires k > 1 ==> IsCurrent(r, r1.queue[k - 2])
    ensures Wf(r) && !r.changing && r.states == m.states
    ensures |m.queue| - k <= |r.queue| && r.queue[..|m.queue| - k] == m.queue[k..]
    ensures IsCurrent(r, m.queue[k - 1])
  {
    QueueShift(m.queue, r1.queue, r.queue, k);
  }

  /** The queue arithmetic of one more update: a queue that keeps q[1..] in front keeps q[k..] in front later. */
  lemma QueueShift(q: seq<string>, q1: seq<string>, rq: seq<string>, k: nat)
    requires 1 <= k <= |q| && |q| - 1 <= |q1| && q1[..|q| - 1] == q[1..]
    requires |q1| - (k - 1) <= |rq| && rq[..|q1| - (k - 1)] == q1[k - 1..]
    ensures |q| - k <= |rq| && rq[..|q| - k] == q[k..]
    ensures k > 1 ==> q1[k - 2] == q[k - 1]
  {
    assert rq[..|q| - k] == rq[..|q1| - (k - 1)][..|q| - k];
    assert q1[k - 1..][..|q| - k] == q1[..|q| - 1][k - 1..];
    if k > 1 {
      assert q1[k - 2] == q1[..|q| - 1][k - 2];
    }
  }

  /**
   * As many updates as there are queued names take them all, in order,
   * and leave the last one current, whatever the hooks request meanwhile.
   */
  lemma {:induction false} QueueDrainsInOrder(m: Machine)
    requires Wf(m) && !m.changing && |m.queue| > 0
    ensures var r := UpdateTimes(m, |m.queue|);
      Wf(r) && !r.changing && IsCurrent(r, m.queue[|m.queue| - 1])
  {
    UpdatesTakeQueueInOrder(m, |m.queue|);
  }

  /** Corollary for hooks that issue no requests: the queue is then empty afterwards. */
  lemma {:induction false} QuietQueueEmpties(m: Machine)
    requires Wf(m) && Quiet(m) && !m.changing && |m.queue| > 0
    ensures var r := UpdateTimes(m, |m.queue|);
      r.queue == [] && IsCurrent(r, m.queue[|m.queue| - 1]) && !r.changing
    decreases |m.queue|
  {
    QuietUpdateStep(m);
    var r := UpdateSpec(m);
    if |m.queue| > 1 {
      QuietQueueEmpties(r);
      assert r.queue[|r.queue| - 1] == m.queue[|m.queue| - 1];
    }
  }

  // ---------------------------------------------------------------------
  // The mutable machine
  // ---------------------------------------------------------------------

  class StateMachine {
    var states: map<string, StateDef>
    var currentState: Option<StateDef>
    var previousState: Option<StateDef>
    var isChangingState: bool
    var changeStateQueue: seq<string>
    /** Trace of hook invocations, for specification only. */
    ghost var calls: seq<HookCall>

    ghost function Snapshot(): Machine
      reads this
    {
      Machine(states, currentState, previousState, isChangingState, changeStateQueue, calls)
    }

    constructor ()
      ensures Snapshot() == Initial
    {
      states := map[];
      currentState := None;
      previousState := None;
      isChangingState := false;
      changeStateQueue := [];
      calls := [];
    }

    /** False when there is no current state; otherwise compares its name. */
    function IsCurrentState(name: string): (b: bool)
      reads this
      ensures currentState.None? ==> !b
      ensures b <==> IsCurrent(Snapshot(), name)
    {
      currentState.Some? && currentState.value.name == name
    }

    function PreviousStateName(): (s: string)
      reads this
      ensures s == PreviousName(Snapshot())
    {
      if previousState.None? then "" else previousState.value.name
    }

    /** The guard decision of setState, read from the fields. */
    function Disposition(name: string): (d: Disposition)
      reads this
      ensures d == Classify(Snapshot(), name)
    {
      if name !in states then Unknown
      else if IsCurrentState(name) then AlreadyCurrent
      else if isChangingState then Deferred
      else Immediate
    }

    method AddState(name: string, onEnter: Option<Hook>, onUpdate: Option<Hook>, onExit: Option<Hook>)
      returns (self: StateMachine)
      modifies this
      ensures self == this
      ensures Snapshot() == AddStateSpec(old(Snapshot()), name, onEnter, onUpdate, onExit)
    {
      states := states[name := StateDef(name, onEnter, onUpdate, onExit, 0)];
      self := this;
    }

    method SetState(name: string)
      modifies this
      ensures Snapshot() == SetStateSpec(old(Snapshot()), name)
      decreases if isChangingState then 0 else 2
    {
      if name !in states {
        return;
      }
      if IsCurrentState(name) {
        return;
      }
      if isChangingState {
        changeStateQueue := changeStateQueue + [name];
        return;
      }
      ghost var m := Snapshot();
      isChangingState := true;
      if currentState.Some? && currentState.value.onExit.Some? {
        calls := calls + [Exited(currentState.value.name)];
        RunHook(currentState.value.onExit.value);
      }
      previousState := currentState;
      currentState := Some(states[name]);
      if currentState.value.onEnter.Some? {
        calls := calls + [Entered(currentState.value.name)];
        RunHook(currentState.value.onEnter.value);
      }
      isChangingState := false;
      assert Snapshot() == TransitionWith(m, name, ExitRequests(m), Requests(m.states[name].onEnter));
    }

    /** Runs a hook during a transition: each of its requests is a (re-entrant) setState. */
    method RunHook(h: Hook)
      requires isChangingState
      modifies this
      ensures Snapshot() == RequestAll(old(Snapshot()), h.requests)
      decreases 1
    {
      var i := 0;
      while i < |h.requests|
        invariant 0 <= i <= |h.requests|
        invariant Snapshot() == RequestAll(old(Snapshot()), h.requests[..i])
        invariant isChangingState
      {
        assert h.requests[..i + 1][..i] == h.requests[..i];
        SetState(h.requests[i]);
        i := i + 1;
      }
      assert h.requests[..|h.requests|] == h.requests;
    }

    method Update(dt: real)
      modifies this
      ensures Snapshot() == UpdateSpec(old(Snapshot()))
    {
      if |changeStateQueue| > 0 {
        var head := changeStateQueue[0];
        changeStateQueue := changeStateQueue[1..];
        SetState(head);
        return;
      }
      if currentState.Some? && currentState.value.onUpdate.Some? {
        calls := calls + [Updated(currentState.value.name)];
        var rs := currentState.value.onUpdate.value.requests;
        ghost var m1 := Snapshot();
        var i := 0;
        while i < |rs|
          invariant 0 <= i <= |rs|
          invariant Snapshot() == SetStateAll(m1, rs[..i])
        {
          assert rs[..i + 1][..i] == rs[..i];
          SetState(rs[i]);
          i := i + 1;
        }
        assert rs[..|rs|] == rs;
      }
    }

    // Steps of a transition, for an owner whose hooks are code rather than data.

    method BeginTransition()
      modifies this
      ensures Snapshot() == Began(old(Snapshot()))
    {
      isChangingState := true;
    }

    method LogExit()
      requires currentState.Some?
      modifies this
      ensures Snapshot() == ExitLogged(old(Snapshot()))
    {
      calls := calls + [Exited(currentState.value.name)];
    }

    method SwitchTo(name: string)
      requires name in states
      modifies this
      ensures Snapshot() == Switched(old(Snapshot()), name)
    {
      previousState := currentState;
      currentState := Some(states[name]);
    }

    method LogEnter()
      requires currentState.Some?
      modifies this
      ensures Snapshot() == EnterLogged(old(Snapshot()))
    {
      calls := calls + [Entered(currentState.value.name)];
    }

    method EndTransition()
      modifies this
      ensures Snapshot() == Ended(old(Snapshot()))
    {
      isChangingState := false;
    }

    method LogUpdate()
      requires currentState.Some?
      modifies this
      ensures Snapshot() == old(Snapshot()).(calls := old(calls) + [Updated(old(currentState).value.name)])
    {
      calls := calls + [Updated(currentState.value.name)];
    }

    /** `changeStateQueue.shift()`. */
    method PopQueue() returns (head: string)
      requires |changeStateQueue| > 0
      modifies this
      ensures head == old(changeStateQueue)[0]
      ensures Snapshot() == old(Snapshot()).(queue := old(changeStateQueue)[1..])
    {
      head := changeStateQueue[0];
      changeStateQueue := changeStateQueue[1..];
    }

    /** `currentState.startTime = now`. */
    method StampStartTime(now: int)
      requires currentState.Some?
      modifies this
      ensures Snapshot() == old(Snapshot()).(current := Some(old(currentState).value.(startTime := now)))
    {
      currentState := Some(currentState.value.(startTime := now));
    }
  }
}
