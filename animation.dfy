/**
 * The animation gate of src/classes/PlayerAnimation.ts: a per-clip table of
 * body sizes, offsets and an attack flag, the guard that decides whether a
 * clip may start, the per-frame table lookup and the decision taken when a
 * clip completes.
 *
 * The sprite's animation player is an engine object; the model keeps only
 * what the guard and the handlers read or write of it: the registered
 * clips, the current clip with its 1-based frame index and whether that
 * frame is the clip's last, and the body size and offset last applied.
 */
module Animation {
  import opened Wrappers

  const FRAME_RATE := 5

  datatype Vec = Vec(x: int, y: int)

  /** One entry of `animationDataMap`. */
  datatype AnimationData = AnimationData(isAttack: bool, bodySize: seq<Vec>, offset: seq<Vec>)

  /**
   * A registered clip: its key, how many atlas frames it has (the frames
   * themselves are named by Frames below), its frame rate and its repeat
   * count (-1 loops forever).
   */
  datatype Clip = Clip(key: string, frameCount: nat, frameRate: int, repeat: int)

  /** The clip the sprite is playing and its current frame (1-based). */
  datatype Playing = Playing(key: string, frameIndex: int, isLast: bool)

  /** The options record of `createFrame`; absent fields are None. */
  datatype FrameOptions = FrameOptions(
    key: string,
    numberOfFrames: nat,
    isAttack: Option<bool>,
    dontRepeat: Option<bool>,
    bodySize: Option<seq<Vec>>,
    offset: Option<seq<Vec>>)

  datatype AnimView = AnimView(
    dataMap: map<string, AnimationData>,
    clips: map<string, Clip>,
    current: Option<Playing>,
    bodySize: Option<Vec>,
    offset: Option<Vec>)

  /**
   * What `playAnimation` does. NoCurrentFrame and NoAnimationData are the
   * two places where the source reads a field of `undefined` and throws; the
   * model changes nothing in those cases.
   */
  datatype PlayOutcome = NoCurrentFrame | AlreadyPlaying | Locked | NoAnimationData | Played

  const Empty := AnimView(map[], map[], None, None, None)

  function GetOr<T>(o: Option<T>, default: T): T
  {
    if o.Some? then o.value else default
  }

  function Digit(d: nat): char
    requires d < 10
  {
    ('0' as int + d) as char
  }

  predicate IsDigit(c: char)
  {
    '0' <= c <= '9'
  }

  /** The number a string of decimal digits denotes, most significant digit first. */
  function DecimalValue(s: string): int
    requires forall i :: 0 <= i < |s| ==> IsDigit(s[i])
    decreases |s|
  {
    if s == [] then 0 else DecimalValue(s[..|s| - 1]) * 10 + (s[|s| - 1] as int - '0' as int)
  }

  /**
   * Decimal rendering of a natural number, as a template literal prints it:
   * digits only, no leading zero, denoting `n`.
   */
  function NatToString(n: nat): (s: string)
    ensures |s| >= 1
    ensures forall i :: 0 <= i < |s| ==> IsDigit(s[i])
    ensures DecimalValue(s) == n
    ensures |s| > 1 ==> s[0] != '0'
    decreases n
  {
    if n < 10 then [Digit(n)]
    else
      var prefix := NatToString(n / 10);
      var s := prefix + [Digit(n % 10)];
      assert s[..|s| - 1] == prefix;
      s
  }

  /** Distinct numbers print differently. */
  lemma NatToStringInjective(a: nat, b: nat)
    requires NatToString(a) == NatToString(b)
    ensures a == b
  {
  }

  /** The atlas frame name `${key}_${i}.png`. */
  function FrameName(key: string, i: nat): string
  {
    key + "_" + NatToString(i) + ".png"
  }

  /** Frames `key_0.png` … `key_(n-1).png`, in order. */
  function FrameNames(key: string, n: nat): (names: seq<string>)
    ensures |names| == n
    ensures forall i :: 0 <= i < n ==> names[i] == FrameName(key, i)
  {
    seq(n, i requires 0 <= i < n => FrameName(key, i))
  }

  /** A clip never names the same atlas frame twice. */
  lemma {:induction false} FrameNamesDistinct(key: string, n: nat, i: nat, j: nat)
    requires i < n && j < n && i != j
    ensures FrameNames(key, n)[i] != FrameNames(key, n)[j]
  {
    var si, sj := NatToString(i), NatToString(j);
    var a, b := FrameName(key, i), FrameName(key, j);
    assert si == a[|key| + 1..|key| + 1 + |si|];
    assert sj == b[|key| + 1..|key| + 1 + |sj|];
  }

  /** The atlas frames of a clip, in play order. */
  function Frames(c: Clip): seq<string>
  {
    FrameNames(c.key, c.frameCount)
  }

  /** The clip `createFrame` registers: every frame of the atlas prefix, 5 fps, played once or looped. */
  function ClipFor(o: FrameOptions): (c: Clip)
    ensures c.key == o.key && c.frameRate == FRAME_RATE
    ensures c.frameCount == o.numberOfFrames
    ensures c.repeat == (if GetOr(o.dontRepeat, false) then 0 else -1)
  {
    Clip(o.key, o.numberOfFrames, FRAME_RATE, if GetOr(o.dontRepeat, false) then 0 else -1)
  }

  /** The table entry `createFrame` stores: absent lists become empty and an absent flag false. */
  function DataFor(o: FrameOptions): (d: AnimationData)
    ensures d.isAttack <==> o.isAttack == Some(true)
    ensures o.bodySize.None? ==> d.bodySize == []
    ensures o.bodySize.Some? ==> d.bodySize == o.bodySize.value
    ensures o.offset.None? ==> d.offset == []
    ensures o.offset.Some? ==> d.offset == o.offset.value
  {
    AnimationData(GetOr(o.isAttack, false), GetOr(o.bodySize, []), GetOr(o.offset, []))
  }

  /** `createFrame`: registers the clip and overwrites the table entry under its key. */
  function CreateFrameSpec(a: AnimView, o: FrameOptions): (r: AnimView)
    ensures r.clips.Keys == a.clips.Keys + {o.key} && r.clips[o.key] == ClipFor(o)
    ensures r.dataMap.Keys == a.dataMap.Keys + {o.key} && r.dataMap[o.key] == DataFor(o)
    ensures r.current == a.current && r.bodySize == a.bodySize && r.offset == a.offset
  {
    a.(clips := a.clips[o.key := ClipFor(o)], dataMap := a.dataMap[o.key := DataFor(o)])
  }

  /** `createFrame` leaves every other key's clip and table data as they were. */
  lemma CreateFrameKeepsOthers(a: AnimView, o: FrameOptions, k: string)
    requires k != o.key
    ensures k in CreateFrameSpec(a, o).clips <==> k in a.clips
    ensures k in a.clips ==> CreateFrameSpec(a, o).clips[k] == a.clips[k]
    ensures k in CreateFrameSpec(a, o).dataMap <==> k in a.dataMap
    ensures k in a.dataMap ==> CreateFrameSpec(a, o).dataMap[k] == a.dataMap[k]
  {
  }

  /**
   * The guard of `playAnimation`, in the source's evaluation order: reading
   * `currentFrame.isLast` throws when attacking before any clip has started;
   * then the same clip is not restarted; then an attack clip that has not
   * reached its last frame is not interrupted; then a key without table
   * data throws; otherwise the clip is played.
   */
  function PlayDecision(a: AnimView, key: string, isAttacking: bool): (o: PlayOutcome)
    ensures o == NoCurrentFrame <==> isAttacking && a.current.None?
    ensures o == AlreadyPlaying <==> !(isAttacking && a.current.None?) && a.current.Some? && a.current.value.key == key
    ensures o == Locked <==> a.current.Some? && a.current.value.key != key && isAttacking && !a.current.value.isLast
    ensures o == Played ==> key in a.dataMap && (a.current.None? || a.current.value.key != key)
    ensures o == Played ==> !isAttacking || a.current.value.isLast
    ensures o == NoAnimationData <==> !(o in {NoCurrentFrame, AlreadyPlaying, Locked}) && key !in a.dataMap
  {
    if isAttacking && a.current.None? then NoCurrentFrame
    else if a.current.Some? && a.current.value.key == key then AlreadyPlaying
    else if isAttacking && !a.current.value.isLast then Locked
    else if key !in a.dataMap then NoAnimationData
    else Played
  }

  /** Starting a clip: apply its first body size and offset if present, then play it from frame 1. */
  function Started(a: AnimView, key: string): AnimView
    requires key in a.dataMap
  {
    var d := a.dataMap[key];
    a.(bodySize := if |d.bodySize| > 0 then Some(d.bodySize[0]) else a.bodySize,
       offset := if |d.offset| > 0 then Some(d.offset[0]) else a.offset,
       current := if key in a.clips then Some(Playing(key, 1, a.clips[key].frameCount <= 1)) else a.current)
  }

  /** `playAnimation(key)` with the player's `isAttacking` flag. */
  function PlaySpec(a: AnimView, key: string, isAttacking: bool): (r: AnimView)
    ensures PlayDecision(a, key, isAttacking) != Played ==> r == a
    ensures r.dataMap == a.dataMap && r.clips == a.clips
    ensures a.current.Some? ==> r.current.Some?
    ensures AnimValid(a) ==> AnimValid(r)
  {
    if PlayDecision(a, key, isAttacking) == Played then Started(a, key) else a
  }

  /** Entry `index - 1` of a per-frame table; out of range reads `undefined`. */
  function FrameEntry(table: seq<Vec>, index: int): (e: Option<Vec>)
    ensures e.Some? <==> 1 <= index <= |table|
    ensures e.Some? ==> e.value == table[index - 1]
  {
    if 1 <= index <= |table| then Some(table[index - 1]) else None
  }

  /**
   * The ANIMATION_UPDATE handler for clip `key` now at 1-based frame
   * `index`. The size entry is applied when it differs from the body's
   * position (bodyX, bodyY), which is what the source compares it with; the
   * offset entry is applied whenever present. The engine's new frame is
   * recorded first, since the guard of playAnimation reads it.
   */
  function FrameUpdated(a: AnimView, key: string, index: int, isLast: bool, bodyX: real, bodyY: real): (r: AnimView)
    requires key in a.dataMap
    ensures r.dataMap == a.dataMap && r.clips == a.clips
    ensures r.current == Some(Playing(key, index, isLast))
    ensures FrameEntry(a.dataMap[key].bodySize, index).None? ==> r.bodySize == a.bodySize
    ensures var e := FrameEntry(a.dataMap[key].bodySize, index);
      e.Some? && (bodyX != e.value.x as real || bodyY != e.value.y as real) ==> r.bodySize == e
    ensures var e := FrameEntry(a.dataMap[key].bodySize, index);
      e.Some? && bodyX == e.value.x as real && bodyY == e.value.y as real ==> r.bodySize == a.bodySize
    ensures FrameEntry(a.dataMap[key].offset, index).Some? ==> r.offset == FrameEntry(a.dataMap[key].offset, index)
    ensures FrameEntry(a.dataMap[key].offset, index).None? ==> r.offset == a.offset
  {
    var d := a.dataMap[key];
    var size := FrameEntry(d.bodySize, index);
    var off := FrameEntry(d.offset, index);
    a.(current := Some(Playing(key, index, isLast)),
       bodySize := if size.Some? && (bodyX != size.value.x as real || bodyY != size.value.y as real) then size else a.bodySize,
       offset := if off.Some? then off else a.offset)
  }

  /** The attack flag of a clip's table entry; a clip without an entry is not an attack. */
  predicate IsAttackClip(a: AnimView, key: string)
  {
    key in a.dataMap && a.dataMap[key].isAttack
  }

  /**
   * The ANIMATION_COMPLETE decision for a completed clip: after an attack
   * clip, `idle` when there is no horizontal input, the player is grounded
   * and not in hit-stun; else `jump` when airborne; else no request. A
   * non-attack clip leads to nothing.
   */
  function CompletionRequest(isAttackClip: bool, left: bool, right: bool, onFloor: bool, damaged: bool): (r: Option<string>)
    ensures !isAttackClip ==> r == None
    ensures r == Some("idle") <==> isAttackClip && !left && !right && onFloor && !damaged
    ensures r == Some("jump") <==> isAttackClip && !onFloor
    ensures r.Some? ==> r.value in {"idle", "jump"}
  {
    if !isAttackClip then None
    else if !left && !right && onFloor && !damaged then Some("idle")
    else if !onFloor then Some("jump")
    else None
  }

  /** The clip being shown always has a table entry. */
  ghost predicate AnimValid(a: AnimView)
  {
    a.current.Some? ==> a.current.value.key in a.dataMap
  }

  // ---------------------------------------------------------------------
  // Properties
  // ---------------------------------------------------------------------

  /** Asking for the clip already playing changes nothing. */
  lemma SameClipNotReplayed(a: AnimView, key: string, isAttacking: bool)
    requires a.current.Some? && a.current.value.key == key
    ensures PlaySpec(a, key, isAttacking) == a
  {
  }

  /** An attack clip before its last frame cannot be interrupted. */
  lemma AttackNotInterrupted(a: AnimView, key: string)
    requires a.current.Some? && !a.current.value.isLast
    ensures PlaySpec(a, key, true) == a
  {
  }

  /** When a clip does start, it is current at frame 1 and its first size and offset are applied if present. */
  lemma {:induction false} PlayedClipStarts(a: AnimView, key: string, isAttacking: bool)
    requires PlayDecision(a, key, isAttacking) == Played && key in a.clips
    ensures var r := PlaySpec(a, key, isAttacking);
      && r.current == Some(Playing(key, 1, a.clips[key].frameCount <= 1))
      && r.bodySize == (if |a.dataMap[key].bodySize| > 0 then Some(a.dataMap[key].bodySize[0]) else a.bodySize)
      && r.offset == (if |a.dataMap[key].offset| > 0 then Some(a.dataMap[key].offset[0]) else a.offset)
  {
  }

  /** Playing a clip twice in a row has the effect of playing it once. */
  lemma {:induction false} PlayIdempotent(a: AnimView, key: string, isAttacking: bool)
    ensures PlaySpec(PlaySpec(a, key, isAttacking), key, isAttacking) == PlaySpec(a, key, isAttacking)
  {
    var r := PlaySpec(a, key, isAttacking);
    if PlayDecision(a, key, isAttacking) == Played {
      if key in a.clips {
        assert PlayDecision(r, key, isAttacking) == AlreadyPlaying;
      } else {
        assert r.current == a.current;
        assert PlayDecision(r, key, isAttacking) == Played;
      }
    }
  }

  /** createFrame, playAnimation and the frame handler keep the shown clip inside the table. */
  lemma AnimValidPreserved(a: AnimView, o: FrameOptions, key: string, isAttacking: bool,
                           index: int, isLast: bool, bodyX: real, bodyY: real)
    requires AnimValid(a)
    ensures AnimValid(CreateFrameSpec(a, o))
    ensures AnimValid(PlaySpec(a, key, isAttacking))
    ensures key in a.dataMap ==> AnimValid(FrameUpdated(a, key, index, isLast, bodyX, bodyY))
  {
  }

  // ---------------------------------------------------------------------
  // The mutable animation helper
  // ---------------------------------------------------------------------

  class PlayerAnimation {
    var animationDataMap: map<string, AnimationData>
    /** The sprite's registered clips (`sprite.anims.create`). */
    var clips: map<string, Clip>
    /** The sprite's current clip and frame. */
    var current: Option<Playing>
    /** Last values given to `setBodySize` and `setOffset`. */
    var bodySize: Option<Vec>
    var offset: Option<Vec>

    ghost function Snapshot(): AnimView
      reads this
    {
      AnimView(animationDataMap, clips, current, bodySize, offset)
    }

    constructor ()
      ensures Snapshot() == Empty
    {
      animationDataMap := map[];
      clips := map[];
      current := None;
      bodySize := None;
      offset := None;
    }

    method CreateFrame(o: FrameOptions)
      modifies this
      ensures Snapshot() == CreateFrameSpec(old(Snapshot()), o)
    {
      var dontRepeat := GetOr(o.dontRepeat, false);
      var isAttack := GetOr(o.isAttack, false);
      clips := clips[o.key := Clip(o.key, o.numberOfFrames, FRAME_RATE, if dontRepeat then 0 else -1)];
      animationDataMap := animationDataMap[o.key := AnimationData(isAttack, GetOr(o.bodySize, []), GetOr(o.offset, []))];
    }

    method PlayAnimation(key: string, isAttacking: bool) returns (outcome: PlayOutcome)
      modifies this
      ensures outcome == PlayDecision(old(Snapshot()), key, isAttacking)
      ensures Snapshot() == PlaySpec(old(Snapshot()), key, isAttacking)
    {
      if isAttacking && current.None? {
        return NoCurrentFrame;
      }
      var locked := isAttacking && !current.value.isLast;
      if current.Some? && current.value.key == key {
        return AlreadyPlaying;
      }
      if locked {
        return Locked;
      }
      if key !in animationDataMap {
        return NoAnimationData;
      }
      var d := animationDataMap[key];
      if |d.bodySize| > 0 {
        bodySize := Some(d.bodySize[0]);
      }
      if |d.offset| > 0 {
        offset := Some(d.offset[0]);
      }
      if key in clips {
        current := Some(Playing(key, 1, clips[key].frameCount <= 1));
      }
      outcome := Played;
    }

    /** The ANIMATION_UPDATE handler; `ok` is false where the source would throw (no table entry). */
    method OnAnimationUpdate(key: string, index: int, isLast: bool, bodyX: real, bodyY: real) returns (ok: bool)
      modifies this
      ensures ok <==> key in old(animationDataMap)
      ensures ok ==> Snapshot() == FrameUpdated(old(Snapshot()), key, index, isLast, bodyX, bodyY)
      ensures !ok ==> Snapshot() == old(Snapshot())
    {
      if key !in animationDataMap {
        return false;
      }
      current := Some(Playing(key, index, isLast));
      var d := animationDataMap[key];
      var size := FrameEntry(d.bodySize, index);
      var off := FrameEntry(d.offset, index);
      if size.Some? && (bodyX != size.value.x as real || bodyY != size.value.y as real) {
        bodySize := size;
      }
      if off.Some? {
        offset := off;
      }
      ok := true;
    }

    predicate IsAttackAnimation(key: string)
      reads this
      ensures IsAttackAnimation(key) <==> IsAttackClip(Snapshot(), key)
    {
      key in animationDataMap && animationDataMap[key].isAttack
    }
  }
}
