/**
 * The banded 1942 controller: the hand's centre is placed in one of three
 * horizontal and three vertical bands of the frame (40 % / 20 % / 40 %), the
 * outer bands hold the arrow keys, and the finger gestures add the action
 * keys. The per-frame state of its loop (keys held, last pulse time, events
 * sent) lives in one `BandedController` object.
 */
module BandedController {
  import opened Landmarks
  import opened Keys
  import opened FingerGestures
  import MouseController

  const BARREL_ROLL_COOLDOWN: real := 1.0
  const START_COOLDOWN: real := 0.5
  const SELECT_COOLDOWN: real := 0.5

  /** A band of one axis: left/up, centre, right/down. */
  datatype Band = Low | Middle | High

  /**
   * The band of pixel coordinate `c` on an axis `size` pixels long: below
   * 40 % of the axis is low, above 60 % high, anything else the middle.
   */
  function BandOf(c: int, size: int): (b: Band)
    ensures b == Low <==> (c as real) < size as real * 0.4
    ensures 0 <= size ==> (b == High <==> (c as real) > size as real * 0.6)
    ensures 0 <= size ==> (b == Middle <==> size as real * 0.4 <= c as real <= size as real * 0.6)
  {
    if (c as real) < size as real * 0.4 then Low
    else if (c as real) > size as real * 0.6 then High
    else Middle
  }

  /** What `get_hand_gesture` reports for one hand. */
  datatype HandGesture = HandGesture(center: Pixel, xPos: Band, yPos: Band, gestures: Gestures, extendedFingers: nat)

  /**
   * `get_hand_gesture`: the centre of the hand, its two bands, and the
   * shared gesture table on the middle-base finger test.
   */
  function GetHandGesture(hand: Hand, height: int, width: int): (info: HandGesture)
    ensures info.center == HandCenter(hand, height, width)
    ensures info.xPos == BandOf(info.center.0, width) && info.yPos == BandOf(info.center.1, height)
    ensures info.extendedFingers <= 5
    ensures info.gestures.barrelRoll <==> info.extendedFingers >= 4
    ensures PulsesExclusive(info.gestures)
    ensures 0 < height ==> info.extendedFingers == ExtendedCount(HandFingers(hand))
    ensures 0 < height ==> info.gestures == Recognize(HandFingers(hand))
  {
    var center := HandCenter(hand, height, width);
    var fingers := MiddleMcpFingers(hand, height);
    AtMostOnePulse(fingers);
    HandGesture(center, BandOf(center.0, width), BandOf(center.1, height),
                Recognize(fingers), ExtendedCount(fingers))
  }

  /** The arrow keys the two bands ask for. */
  function BandKeys(xPos: Band, yPos: Band): (keys: set<Key>)
    ensures keys <= {Left, Right, Up, Down}
    ensures (Left in keys <==> xPos == Low) && (Right in keys <==> xPos == High)
    ensures (Up in keys <==> yPos == Low) && (Down in keys <==> yPos == High)
  {
    (match xPos case Low => {Left} case High => {Right} case Middle => {})
    + (match yPos case Low => {Up} case High => {Down} case Middle => {})
  }

  /** Dividing both sides by a positive size keeps a strict comparison. */
  lemma BelowFraction(c: real, size: real, f: real)
    requires 0.0 < size
    ensures c < size * f <==> c / size < f
    ensures c > size * f <==> c / size > f
  {
    var q := c / size;
    assert c == q * size;
    ScaledBelow(q, f, size);
    ScaledBelow(f, q, size);
  }

  /**
   * The banded controller's arrows are the mouse controller's arrows read at
   * the centre of the hand as a fraction of the frame: the two controllers
   * share one 0.4 / 0.6 split, one on absolute and one on relative position.
   */
  lemma {:induction false} BandsAgreeWithDirectionKeys(center: Pixel, height: int, width: int)
    requires 0 < height && 0 < width
    ensures BandKeys(BandOf(center.0, width), BandOf(center.1, height)) ==
            MouseController.DirectionKeys(center.0 as real / width as real, center.1 as real / height as real)
  {
    BelowFraction(center.0 as real, width as real, 0.4);
    BelowFraction(center.0 as real, width as real, 0.6);
    BelowFraction(center.1 as real, height as real, 0.4);
    BelowFraction(center.1 as real, height as real, 0.6);
  }

  /**
   * The pulse keys of a frame, tested in the order barrel roll, start,
   * select. A pulse key is added when its gesture is shown and either the
   * key was not held last frame or its cooldown has passed since the shared
   * timestamp; each addition renews the timestamp, which the later tests
   * then see. `stamp` is the timestamp afterwards.
   */
  method PulseKeys(g: Gestures, held: set<Key>, last: real, now: real) returns (pulses: set<Key>, stamp: real)
    ensures pulses <= {Z, Enter, Ctrl}
    ensures Z in pulses <==> g.barrelRoll && (Z !in held || now - last > BARREL_ROLL_COOLDOWN)
    ensures var afterZ := if Z in pulses then now else last;
            var afterEnter := if Enter in pulses then now else afterZ;
            && (Enter in pulses <==> g.start && (Enter !in held || now - afterZ > START_COOLDOWN))
            && (Ctrl in pulses <==> g.select && (Ctrl !in held || now - afterEnter > SELECT_COOLDOWN))
            && stamp == (if Ctrl in pulses then now else afterEnter)
    ensures PulsesExclusive(g) ==>
            && (Enter in pulses <==> g.start && (Enter !in held || now - last > START_COOLDOWN))
            && (Ctrl in pulses <==> g.select && (Ctrl !in held || now - last > SELECT_COOLDOWN))
            && stamp == (if pulses == {} then last else now)
  {
    pulses, stamp := {}, last;
    if g.barrelRoll && (Z !in held || now - stamp > BARREL_ROLL_COOLDOWN) {
      pulses := pulses + {Z};
      stamp := now;
    }
    if g.start && (Enter !in held || now - stamp > START_COOLDOWN) {
      pulses := pulses + {Enter};
      stamp := now;
    }
    if g.select && (Ctrl !in held || now - stamp > SELECT_COOLDOWN) {
      pulses := pulses + {Ctrl};
      stamp := now;
    }
  }

  /**
   * The desired set of a frame with a hand: the band arrows, X while
   * shooting (held for as long as the gesture is, with no cooldown), and the
   * pulse keys; `stamp` is the shared timestamp afterwards. For the
   * gestures of a real hand at most one pulse is shown, and every pulse test
   * sees the timestamp of the previous frame.
   */
  method DesiredKeys(info: HandGesture, held: set<Key>, last: real, now: real) returns (desired: set<Key>, stamp: real)
    ensures desired * {Left, Right, Up, Down} == BandKeys(info.xPos, info.yPos)
    ensures desired <= {Left, Right, Up, Down, X, Z, Enter, Ctrl}
    ensures X in desired <==> info.gestures.shooting
    ensures Z in desired <==> info.gestures.barrelRoll && (Z !in held || now - last > BARREL_ROLL_COOLDOWN)
    ensures PulsesExclusive(info.gestures) ==>
            && (Enter in desired <==> info.gestures.start && (Enter !in held || now - last > START_COOLDOWN))
            && (Ctrl in desired <==> info.gestures.select && (Ctrl !in held || now - last > SELECT_COOLDOWN))
            && stamp == (if Z in desired || Enter in desired || Ctrl in desired then now else last)
  {
    desired := BandKeys(info.xPos, info.yPos);
    if info.gestures.shooting {
      desired := desired + {X};
    }
    var pulses;
    pulses, stamp := PulseKeys(info.gestures, held, last, now);
    desired := desired + pulses;
  }

  class BandedController {
    var currentKeys: set<Key>
    var lastCommandTime: real
    /** Every keyboard event the loop has sent, oldest first. */
    var log: seq<Event>

    /** The keys believed held are exactly those the events leave held, with no redundant event. */
    ghost predicate Valid()
      reads this
    {
      Replay({}, log) == currentKeys && Clean({}, log)
    }

    /** The state `play_game` sets up before its loop. */
    constructor (now: real)
      ensures Valid()
      ensures currentKeys == {} && lastCommandTime == now && log == []
    {
      currentKeys := {};
      lastCommandTime := now;
      log := [];
    }

    /**
     * One frame of the loop. With a hand, the desired set holds the band
     * arrows, X while shooting, and each pulse key whose gesture is shown and
     * that either was not held last frame or whose cooldown has passed since
     * the shared timestamp (the timestamp is then renewed); without a hand
     * the desired set is empty. The held keys then move to the desired set.
     */
    method Frame(hand: Option<Hand>, height: int, width: int, now: real)
      requires Valid()
      modifies this
      ensures Valid()
      ensures |old(log)| <= |log| && log[..|old(log)|] == old(log)
      ensures forall i | |old(log)| <= i < |log| ::
        (log[i].KeyUp? && log[i].key in old(currentKeys) - currentKeys) ||
        (log[i].KeyDown? && log[i].key in currentKeys - old(currentKeys))
      ensures currentKeys <= {Left, Right, Up, Down, X, Z, Enter, Ctrl}
      ensures hand.None? ==> currentKeys == {} && lastCommandTime == old(lastCommandTime)
      ensures hand.Some? ==> var info := GetHandGesture(hand.value, height, width);
        && currentKeys * {Left, Right, Up, Down} == BandKeys(info.xPos, info.yPos)
        && (X in currentKeys <==> info.gestures.shooting)
        && (Z in currentKeys <==>
              info.gestures.barrelRoll && (Z !in old(currentKeys) || now - old(lastCommandTime) > BARREL_ROLL_COOLDOWN))
        && (Enter in currentKeys <==>
              info.gestures.start && (Enter !in old(currentKeys) || now - old(lastCommandTime) > START_COOLDOWN))
        && (Ctrl in currentKeys <==>
              info.gestures.select && (Ctrl !in old(currentKeys) || now - old(lastCommandTime) > SELECT_COOLDOWN))
        && lastCommandTime == (if Z in currentKeys || Enter in currentKeys || Ctrl in currentKeys
                               then now else old(lastCommandTime))
    {
      var desired: set<Key> := {};
      if hand.Some? {
        var info := GetHandGesture(hand.value, height, width);
        desired, lastCommandTime := DesiredKeys(info, currentKeys, lastCommandTime, now);
      }
      MoveKeys(desired);
    }

    /** The end of every frame: keyUp `held - desired`, keyDown `desired - held`, then hold `desired`. */
    method MoveKeys(desired: set<Key>)
      requires Valid()
      modifies this`currentKeys, this`log
      ensures Valid()
      ensures currentKeys == desired
      ensures |old(log)| <= |log| && log[..|old(log)|] == old(log)
      ensures forall i | |old(log)| <= i < |log| ::
        (log[i].KeyUp? && log[i].key in old(currentKeys) - desired) ||
        (log[i].KeyDown? && log[i].key in desired - old(currentKeys))
    {
      var out := Transition(currentKeys, desired, log);
      ReplayConcat({}, log, out[|log|..]);
      assert log + out[|log|..] == out;
      log := out;
      currentKeys := desired;
    }

    /** The normal exit of the loop: keyUp every key still held, after which none is. */
    method Exit()
      requires Valid()
      modifies this`log
      ensures |old(log)| <= |log| && log[..|old(log)|] == old(log)
      ensures forall i | |old(log)| <= i < |log| :: log[i].KeyUp? && log[i].key in currentKeys
      ensures Replay({}, log) == {} && Clean({}, log)
    {
      var out := ReleaseKeys(currentKeys, currentKeys, log);
      ReplayConcat({}, log, out[|log|..]);
      assert log + out[|log|..] == out;
      log := out;
    }
  }
}
