/**
 * The "mouse-like" 1942 controller: the hand moves a virtual player around a
 * unit square by relative motion (as a mouse moves a cursor), the player's
 * position inside the square selects the arrow keys, and finger gestures
 * fire, barrel-roll, start and select. One `HandController` object holds all
 * the state that survives from one camera frame to the next.
 */
module MouseController {
  import opened Landmarks
  import opened Keys
  import opened FingerGestures

  const FRAME_WIDTH: int := 640
  const FRAME_HEIGHT: int := 480
  /** Length of the pointer-position history used for smoothing. */
  const HISTORY_LENGTH: nat := 5
  /** Initial value of the (module-wide) smoothing factor. */
  const SMOOTHING_FACTOR: real := 0.5
  /** Per-axis pixel jumps smaller than this are treated as tremor. */
  const MOVEMENT_THRESHOLD: int := 5
  const INITIAL_SENSITIVITY: real := 2.5
  const SHOOT_COOLDOWN: real := 0.1
  const BARREL_ROLL_COOLDOWN: real := 1.0
  const START_COOLDOWN: real := 0.5
  const SELECT_COOLDOWN: real := 0.5

  /** What the controller reads off one detected hand. */
  datatype HandInfo = HandInfo(center: Pixel, pointer: Pixel, gestures: Gestures, extendedFingers: nat)

  /** The pointer pixel: the index-finger base joint, scaled to the frame and truncated. */
  function HandPointer(hand: Hand, height: int, width: int): (pointer: Pixel)
    ensures 0 <= height && 0 <= width && 0.0 <= hand[INDEX_MCP].x <= 1.0 && 0.0 <= hand[INDEX_MCP].y <= 1.0 ==>
      0 <= pointer.0 <= width && 0 <= pointer.1 <= height
  {
    (ToPixel(hand[INDEX_MCP].x, width), ToPixel(hand[INDEX_MCP].y, height))
  }

  /**
   * `get_hand_info`: the centre is the mean of all 21 keypoints, the pointer
   * is the index-finger base joint, both truncated to pixels; the gestures
   * are the shared table applied to the middle-base finger test, which for a
   * real frame is the scale-free reading of the hand.
   */
  function GetHandInfo(hand: Hand, height: int, width: int): (info: HandInfo)
    ensures info.center == HandCenter(hand, height, width) && info.pointer == HandPointer(hand, height, width)
    ensures info.extendedFingers <= 5
    ensures info.gestures.barrelRoll <==> info.extendedFingers >= 4
    ensures PulsesExclusive(info.gestures)
    ensures 0 < height ==> info.extendedFingers == ExtendedCount(HandFingers(hand))
    ensures 0 < height ==> info.gestures == Recognize(HandFingers(hand))
  {
    var fingers := MiddleMcpFingers(hand, height);
    AtMostOnePulse(fingers);
    HandInfo(
      center := HandCenter(hand, height, width),
      pointer := HandPointer(hand, height, width),
      gestures := Recognize(fingers),
      extendedFingers := ExtendedCount(fingers))
  }

  /** `deque.append` on a deque of maximum length `HISTORY_LENGTH`. */
  function Pushed(history: seq<Pixel>, p: Pixel): (r: seq<Pixel>)
    ensures |r| == if |history| < HISTORY_LENGTH then |history| + 1 else HISTORY_LENGTH
    ensures r[|r| - 1] == p
    ensures r[..|r| - 1] == history[|history| + 1 - |r|..]
  {
    var all := history + [p];
    if |all| <= HISTORY_LENGTH then all else all[|all| - HISTORY_LENGTH..]
  }

  function Xs(history: seq<Pixel>): (xs: seq<int>)
    ensures |xs| == |history|
    ensures forall i | 0 <= i < |history| :: xs[i] == history[i].0
  {
    seq(|history|, i requires 0 <= i < |history| => history[i].0)
  }

  function Ys(history: seq<Pixel>): (ys: seq<int>)
    ensures |ys| == |history|
    ensures forall i | 0 <= i < |history| :: ys[i] == history[i].1
  {
    seq(|history|, i requires 0 <= i < |history| => history[i].1)
  }

  function Sum(xs: seq<int>): int
    decreases |xs|
  {
    if xs == [] then 0 else Sum(xs[..|xs| - 1]) + xs[|xs| - 1]
  }

  /**
   * The smoothing term of one axis: the mean of the history without its
   * oldest entry, minus the oldest entry.
   */
  function AxisOffset(values: seq<int>): real
    requires |values| >= 2
  {
    Sum(values[1..]) as real / (|values| - 1) as real - values[0] as real
  }

  /** The tremor filter: a per-axis jump below the threshold counts as none. */
  function Filtered(raw: int): (d: int)
    ensures d == 0 || d == raw
    ensures d == 0 <==> -MOVEMENT_THRESHOLD < raw < MOVEMENT_THRESHOLD
  {
    if -MOVEMENT_THRESHOLD < raw < MOVEMENT_THRESHOLD then 0 else raw
  }

  /**
   * The movement of one axis for a frame: the filtered raw jump times the
   * sensitivity, blended with the smoothing term once the history (which
   * already holds this frame's position) has three or more entries.
   */
  function AxisMovement(raw: int, values: seq<int>, sensitivity: real, smoothing: real): (r: real)
    ensures |values| < 3 || smoothing == 0.0 ==> r == Filtered(raw) as real * sensitivity
    ensures |values| >= 3 && smoothing == 1.0 ==> r == AxisOffset(values)
    ensures |values| >= 3 && 0.0 <= smoothing <= 1.0 ==>
      r - AxisOffset(values) == (1.0 - smoothing) * (Filtered(raw) as real * sensitivity - AxisOffset(values))
    // the blended movement never leaves the range between the scaled jump and the history's offset
    ensures |values| >= 3 && 0.0 <= smoothing <= 1.0 ==>
      var scaled, offset := Filtered(raw) as real * sensitivity, AxisOffset(values);
      (scaled <= r <= offset) || (offset <= r <= scaled)
  {
    var scaled := Filtered(raw) as real * sensitivity;
    if |values| >= 3 then
      var offset := AxisOffset(values);
      var blended := scaled * (1.0 - smoothing) + offset * smoothing;
      BlendBetween(scaled, offset, smoothing, blended);
      blended
    else scaled
  }

  /** A blend `a * (1 - t) + b * t` with `t` in the unit interval lies between `a` and `b`. */
  lemma BlendBetween(a: real, b: real, t: real, m: real)
    requires m == a * (1.0 - t) + b * t
    ensures m - b == (1.0 - t) * (a - b)
    ensures 0.0 <= t <= 1.0 ==> (a <= m <= b) || (b <= m <= a)
  {
    if 0.0 <= t <= 1.0 {
      assert m - a == t * (b - a);
      assert m - b == (1.0 - t) * (a - b);
      if a <= b {
        ProductNonnegative(t, b - a);
        ProductNonnegative(1.0 - t, b - a);
      } else {
        ProductNonnegative(t, a - b);
        ProductNonnegative(1.0 - t, a - b);
      }
    }
  }

  /**
   * The movement `calculate_relative_movement` returns for a pointer, given
   * the previous pointer and the history that already holds the new one:
   * nothing on the first frame of a hand, otherwise each axis's movement.
   */
  function FrameMovement(prev: Option<Pixel>, pointer: Pixel, history: seq<Pixel>,
                         sensitivity: real, smoothing: real): (m: (real, real))
    ensures prev.None? ==> m == (0.0, 0.0)
    ensures prev == Some(pointer) && |history| < 3 ==> m.0 == 0.0 && m.1 == 0.0
    ensures prev.Some? && |history| < 3 ==>
      m.0 == Filtered(pointer.0 - prev.value.0) as real * sensitivity &&
      m.1 == Filtered(pointer.1 - prev.value.1) as real * sensitivity
  {
    if prev.None? then (0.0, 0.0)
    else
      (AxisMovement(pointer.0 - prev.value.0, Xs(history), sensitivity, smoothing),
       AxisMovement(pointer.1 - prev.value.1, Ys(history), sensitivity, smoothing))
  }

  lemma {:induction false} SumConstant(xs: seq<int>, v: int)
    requires forall i | 0 <= i < |xs| :: xs[i] == v
    ensures Sum(xs) == |xs| * v
    decreases |xs|
  {
    if xs != [] {
      SumConstant(xs[..|xs| - 1], v);
    }
  }

  /**
   * A hand that holds still (no jump at or above the tremor threshold, and a
   * history of one repeated position) moves the player by exactly nothing,
   * whatever the sensitivity and smoothing.
   */
  lemma {:induction false} StillHandDoesNotMove(raw: int, values: seq<int>, sensitivity: real, smoothing: real)
    requires -MOVEMENT_THRESHOLD < raw < MOVEMENT_THRESHOLD
    requires forall i | 0 <= i < |values| :: values[i] == values[0]
    ensures AxisMovement(raw, values, sensitivity, smoothing) == 0.0
  {
    if |values| >= 3 {
      var n := |values| - 1;
      SumConstant(values[1..], values[0]);
      assert Sum(values[1..]) as real == n as real * values[0] as real;
      assert AxisOffset(values) == 0.0;
    }
  }

  /** `2 * Sum` of an arithmetic progression `b, b + s, b + 2s, ...`. */
  lemma {:induction false} SumProgression(xs: seq<int>, b: int, s: int)
    requires forall i | 0 <= i < |xs| :: xs[i] == b + i * s
    ensures 2 * Sum(xs) == 2 * |xs| * b + s * |xs| * (|xs| - 1)
    decreases |xs|
  {
    if xs != [] {
      var m := |xs| - 1;
      SumProgression(xs[..m], b, s);
      assert 2 * Sum(xs) == 2 * m * b + s * m * (m - 1) + 2 * (b + m * s);
      ProgressionStep(m, b, s);
    }
  }

  /** The closed form of `SumProgression`, one entry further on. */
  lemma ProgressionStep(m: int, b: int, s: int)
    ensures 2 * m * b + s * m * (m - 1) + 2 * (b + m * s) == 2 * (m + 1) * b + s * (m + 1) * m
  {
    assert s * m * (m - 1) + 2 * m * s == s * m * (m + 1);
  }

  /**
   * Under steady motion of `s` pixels per frame, the smoothing term is
   * `s * n / 2` for a history of `n` entries: it grows with the history
   * rather than being the per-frame step (2.5 steps once the history is full).
   */
  lemma {:induction false} SteadyMotionOffset(values: seq<int>, s: int)
    requires |values| >= 2
    requires forall i | 0 <= i < |values| :: values[i] == values[0] + i * s
    ensures AxisOffset(values) == (s * |values|) as real / 2.0
  {
    var n := |values|;
    var tail := values[1..];
    assert forall i | 0 <= i < |tail| :: tail[i] == (values[0] + s) + i * s;
    SumProgression(tail, values[0] + s, s);
    assert 2 * Sum(tail) == (n - 1) * (2 * values[0] + s * n);
    var q := Sum(tail) as real / (n - 1) as real;
    assert q * (n - 1) as real == Sum(tail) as real;
    assert 2.0 * q * (n - 1) as real == ((n - 1) * (2 * values[0] + s * n)) as real;
    assert 2.0 * q == (2 * values[0] + s * n) as real;
  }

  /**
   * One axis of `update_player_position`: the position moved by the
   * movement scaled down by the frame size, clamped to the unit interval.
   */
  function Moved(pos: real, d: real, size: int): (p: real)
    requires size > 0
    ensures 0.0 <= p <= 1.0
    ensures d == 0.0 && 0.0 <= pos <= 1.0 ==> p == pos
    ensures pos + d / size as real <= 0.0 ==> p == 0.0
    ensures pos + d / size as real >= 1.0 ==> p == 1.0
    ensures 0.0 <= pos + d / size as real <= 1.0 ==> p == pos + d / size as real
  {
    Clamp(pos + d * (1.0 / size as real), 0.0, 1.0)
  }

  /**
   * The arrow keys for a player position: left in the left 40 % of the
   * square, right in the right 40 %, up and down likewise, and nothing in
   * the central 20 % band of each axis.
   */
  function DirectionKeys(px: real, py: real): (keys: set<Key>)
    ensures keys <= {Left, Right, Up, Down}
    ensures Left in keys <==> px < 0.4
    ensures Right in keys <==> 0.6 < px
    ensures Up in keys <==> py < 0.4
    ensures Down in keys <==> 0.6 < py
    ensures Left !in keys || Right !in keys
    ensures Up !in keys || Down !in keys
  {
    (if px < 0.4 then {Left} else if px > 0.6 then {Right} else {})
    + (if py < 0.4 then {Up} else if py > 0.6 then {Down} else {})
  }

  /**
   * The gesture keys of a frame and the shared timestamp afterwards, from
   * the keys held before it and the timestamp before it. Shooting asks for X
   * while the timestamp is older than the shoot cooldown, without renewing
   * it. A barrel roll, start or select asks for its key only when that key
   * is not held and its cooldown has passed since the timestamp, and renews
   * the timestamp; the three tests run in that order, each seeing the
   * timestamp the previous one left. For the gestures of a real hand at most
   * one pulse is shown, so every test sees the old timestamp.
   */
  function GestureOutcome(g: Gestures, held: set<Key>, last: real, now: real): (out: (set<Key>, real))
    ensures out.0 <= {X, Z, Enter, Ctrl}
    ensures X in out.0 <==> g.shooting && now - last > SHOOT_COOLDOWN
    ensures Z in out.0 <==> g.barrelRoll && Z !in held && now - last > BARREL_ROLL_COOLDOWN
    ensures var afterZ := if Z in out.0 then now else last;
            var afterEnter := if Enter in out.0 then now else afterZ;
            && (Enter in out.0 <==> g.start && Enter !in held && now - afterZ > START_COOLDOWN)
            && (Ctrl in out.0 <==> g.select && Ctrl !in held && now - afterEnter > SELECT_COOLDOWN)
            && out.1 == (if Ctrl in out.0 then now else afterEnter)
    ensures PulsesExclusive(g) ==>
            && (Enter in out.0 <==> g.start && Enter !in held && now - last > START_COOLDOWN)
            && (Ctrl in out.0 <==> g.select && Ctrl !in held && now - last > SELECT_COOLDOWN)
            && out.1 == (if Z in out.0 || Enter in out.0 || Ctrl in out.0 then now else last)
    ensures forall k | k in {Z, Enter, Ctrl} && k in held :: k !in out.0
  {
    var shoot := g.shooting && now - last > SHOOT_COOLDOWN;
    var roll := g.barrelRoll && Z !in held && now - last > BARREL_ROLL_COOLDOWN;
    var afterZ := if roll then now else last;
    var start := g.start && Enter !in held && now - afterZ > START_COOLDOWN;
    var afterEnter := if start then now else afterZ;
    var select := g.select && Ctrl !in held && now - afterEnter > SELECT_COOLDOWN;
    ((if shoot then {X} else {}) + (if roll then {Z} else {}) + (if start then {Enter} else {}) + (if select then {Ctrl} else {}),
     if select then now else afterEnter)
  }

  class HandController {
    var prevHandCenter: Option<Pixel>
    var positionHistory: seq<Pixel>
    var sensitivity: real
    /** The smoothing factor, module-wide in the original, one per controller here. */
    var smoothing: real
    var currentKeys: set<Key>
    var lastCommandTime: real
    var playerX: real
    var playerY: real
    /** Every keyboard event this controller has sent, oldest first. */
    var log: seq<Event>

    /**
     * The invariant kept between frames: the history is bounded and ends
     * with the remembered pointer, the player stays in the unit square, the
     * tuning stays within its clamps, and the keys the controller believes
     * held are exactly those its events leave held, with no redundant event.
     */
    ghost predicate Valid()
      reads this
    {
      && |positionHistory| <= HISTORY_LENGTH
      && (prevHandCenter.Some? ==>
            |positionHistory| > 0 && positionHistory[|positionHistory| - 1] == prevHandCenter.value)
      && 0.0 <= playerX <= 1.0 && 0.0 <= playerY <= 1.0
      && 0.5 <= sensitivity <= 5.0 && 0.0 <= smoothing <= 1.0
      && Replay({}, log) == currentKeys && Clean({}, log)
    }

    constructor (now: real)
      ensures Valid()
      ensures prevHandCenter == None && positionHistory == []
      ensures sensitivity == INITIAL_SENSITIVITY && smoothing == SMOOTHING_FACTOR
      ensures currentKeys == {} && lastCommandTime == now && log == []
      ensures playerX == 0.5 && playerY == 0.5
    {
      prevHandCenter := None;
      positionHistory := [];
      sensitivity := INITIAL_SENSITIVITY;
      smoothing := SMOOTHING_FACTOR;
      currentKeys := {};
      lastCommandTime := now;
      playerX := 0.5;
      playerY := 0.5;
      log := [];
    }

    /**
     * `calculate_relative_movement`: record the pointer, and return no
     * movement on the first frame of a hand, otherwise the per-axis movement
     * against the previous pointer.
     */
    method CalculateRelativeMovement(pointer: Pixel) returns (dx: real, dy: real)
      requires Valid()
      modifies this`prevHandCenter, this`positionHistory
      ensures Valid()
      ensures positionHistory == Pushed(old(positionHistory), pointer)
      ensures prevHandCenter == Some(pointer)
      ensures (dx, dy) == FrameMovement(old(prevHandCenter), pointer, positionHistory, sensitivity, smoothing)
    {
      var prev := prevHandCenter;
      RecordPointer(pointer);
      if prev.None? {
        return 0.0, 0.0;
      }
      dx := AxisMovement(pointer.0 - prev.value.0, Xs(positionHistory), sensitivity, smoothing);
      dy := AxisMovement(pointer.1 - prev.value.1, Ys(positionHistory), sensitivity, smoothing);
    }

    /** The pointer joins the bounded history and becomes the previous pointer. */
    method RecordPointer(pointer: Pixel)
      requires Valid()
      modifies this`prevHandCenter, this`positionHistory
      ensures Valid()
      ensures positionHistory == Pushed(old(positionHistory), pointer)
      ensures prevHandCenter == Some(pointer)
    {
      positionHistory := Pushed(positionHistory, pointer);
      prevHandCenter := Some(pointer);
    }

    /**
     * `update_player_position`: move the player by the movement scaled to
     * the frame, clamped to the unit square, and return its arrow keys.
     */
    method UpdatePlayerPosition(dx: real, dy: real) returns (keys: set<Key>)
      requires Valid()
      modifies this`playerX, this`playerY
      ensures Valid()
      ensures playerX == Moved(old(playerX), dx, FRAME_WIDTH)
      ensures playerY == Moved(old(playerY), dy, FRAME_HEIGHT)
      ensures keys == DirectionKeys(playerX, playerY)
    {
      playerX := Moved(playerX, dx, FRAME_WIDTH);
      playerY := Moved(playerY, dy, FRAME_HEIGHT);
      keys := {};
      if playerX < 0.4 {
        keys := keys + {Left};
      } else if playerX > 0.6 {
        keys := keys + {Right};
      }
      if playerY < 0.4 {
        keys := keys + {Up};
      } else if playerY > 0.6 {
        keys := keys + {Down};
      }
    }

    /** `process_gestures`: the gesture keys of the frame, and the renewed timestamp. */
    method ProcessGestures(info: HandInfo, now: real) returns (keys: set<Key>)
      modifies this`lastCommandTime
      ensures keys == GestureOutcome(info.gestures, currentKeys, old(lastCommandTime), now).0
      ensures lastCommandTime == GestureOutcome(info.gestures, currentKeys, old(lastCommandTime), now).1
    {
      keys := {};
      if info.gestures.shooting && now - lastCommandTime > SHOOT_COOLDOWN {
        keys := keys + {X};
      }
      if info.gestures.barrelRoll && Z !in currentKeys && now - lastCommandTime > BARREL_ROLL_COOLDOWN {
        keys := keys + {Z};
        lastCommandTime := now;
      }
      if info.gestures.start && Enter !in currentKeys && now - lastCommandTime > START_COOLDOWN {
        keys := keys + {Enter};
        lastCommandTime := now;
      }
      if info.gestures.select && Ctrl !in currentKeys && now - lastCommandTime > SELECT_COOLDOWN {
        keys := keys + {Ctrl};
        lastCommandTime := now;
      }
    }

    /**
     * `update_key_presses`: release what is held but no longer wanted, press
     * what is wanted but not held, and remember the wanted set. A frame that
     * wants exactly what is held sends nothing.
     */
    method UpdateKeyPresses(newKeys: set<Key>)
      requires Valid()
      modifies this`currentKeys, this`log
      ensures Valid()
      ensures currentKeys == newKeys
      ensures |old(log)| <= |log| && log[..|old(log)|] == old(log)
      ensures forall i | |old(log)| <= i < |log| ::
        (log[i].KeyUp? && log[i].key in old(currentKeys) - newKeys) ||
        (log[i].KeyDown? && log[i].key in newKeys - old(currentKeys))
      ensures old(currentKeys) == newKeys ==> log == old(log)
    {
      var out := Transition(currentKeys, newKeys, log);
      ReplayConcat({}, log, out[|log|..]);
      assert log + out[|log|..] == out;
      log := out;
      currentKeys := newKeys;
    }

    /**
     * One camera frame of `play_game`. With a hand: read it, move the
     * player, add the gesture keys to the arrow keys and update the held
     * keys. Without one: forget the previous pointer (the next hand starts
     * with no movement) and release every key, keeping the player where it is.
     */
    method Frame(hand: Option<Hand>, height: int, width: int, now: real)
      requires Valid()
      modifies this
      ensures Valid()
      ensures sensitivity == old(sensitivity) && smoothing == old(smoothing)
      ensures |old(log)| <= |log| && log[..|old(log)|] == old(log)
      ensures forall i | |old(log)| <= i < |log| ::
        (log[i].KeyUp? && log[i].key in old(currentKeys) - currentKeys) ||
        (log[i].KeyDown? && log[i].key in currentKeys - old(currentKeys))
      ensures hand.None? ==>
        prevHandCenter == None && currentKeys == {} && positionHistory == old(positionHistory) &&
        playerX == old(playerX) && playerY == old(playerY) && lastCommandTime == old(lastCommandTime)
      ensures hand.Some? ==> var info := GetHandInfo(hand.value, height, width);
        var move := FrameMovement(old(prevHandCenter), info.pointer, positionHistory, sensitivity, smoothing);
        var gesture := GestureOutcome(info.gestures, old(currentKeys), old(lastCommandTime), now);
        && prevHandCenter == Some(info.pointer)
        && positionHistory == Pushed(old(positionHistory), info.pointer)
        && playerX == Moved(old(playerX), move.0, FRAME_WIDTH)
        && playerY == Moved(old(playerY), move.1, FRAME_HEIGHT)
        && currentKeys == DirectionKeys(playerX, playerY) + gesture.0
        && lastCommandTime == gesture.1
        && lastCommandTime == (if Z in currentKeys || Enter in currentKeys || Ctrl in currentKeys
                               then now else old(lastCommandTime))
      ensures currentKeys <= {Left, Right, Up, Down, X, Z, Enter, Ctrl}
      // a pulse key is never held for two frames in a row
      ensures forall k | k in {Z, Enter, Ctrl} && k in old(currentKeys) :: k !in currentKeys
    {
      if hand.Some? {
        HandFrame(hand.value, height, width, now);
      } else {
        prevHandCenter := None;
        UpdateKeyPresses({});
      }
    }

    /**
     * A frame with a hand: record and smooth the pointer movement, move the
     * player, read the gestures, and move the held keys to the union of the
     * arrow keys and the gesture keys.
     */
    method HandFrame(hand: Hand, height: int, width: int, now: real)
      requires Valid()
      modifies this
      ensures Valid()
      ensures sensitivity == old(sensitivity) && smoothing == old(smoothing)
      ensures |old(log)| <= |log| && log[..|old(log)|] == old(log)
      ensures forall i | |old(log)| <= i < |log| ::
        (log[i].KeyUp? && log[i].key in old(currentKeys) - currentKeys) ||
        (log[i].KeyDown? && log[i].key in currentKeys - old(currentKeys))
      ensures var info := GetHandInfo(hand, height, width);
        var move := FrameMovement(old(prevHandCenter), info.pointer, positionHistory, sensitivity, smoothing);
        var gesture := GestureOutcome(info.gestures, old(currentKeys), old(lastCommandTime), now);
        && prevHandCenter == Some(info.pointer)
        && positionHistory == Pushed(old(positionHistory), info.pointer)
        && playerX == Moved(old(playerX), move.0, FRAME_WIDTH)
        && playerY == Moved(old(playerY), move.1, FRAME_HEIGHT)
        && currentKeys == DirectionKeys(playerX, playerY) + gesture.0
        && lastCommandTime == gesture.1
        && lastCommandTime == (if Z in currentKeys || Enter in currentKeys || Ctrl in currentKeys
                               then now else old(lastCommandTime))
    {
      var info := GetHandInfo(hand, height, width);
      var movementKeys := MovePlayer(info.pointer);
      var gestureKeys := ProcessGestures(info, now);
      UpdateKeyPresses(movementKeys + gestureKeys);
    }

    /**
     * The movement half of a frame with a hand: record the pointer, move the
     * player by its smoothed movement, and return the arrow keys of the new
     * player position.
     */
    method MovePlayer(pointer: Pixel) returns (keys: set<Key>)
      requires Valid()
      modifies this`prevHandCenter, this`positionHistory, this`playerX, this`playerY
      ensures Valid()
      ensures prevHandCenter == Some(pointer)
      ensures positionHistory == Pushed(old(positionHistory), pointer)
      ensures var move := FrameMovement(old(prevHandCenter), pointer, positionHistory, sensitivity, smoothing);
        && playerX == Moved(old(playerX), move.0, FRAME_WIDTH)
        && playerY == Moved(old(playerY), move.1, FRAME_HEIGHT)
      ensures keys == DirectionKeys(playerX, playerY)
    {
      var dx, dy := CalculateRelativeMovement(pointer);
      keys := UpdatePlayerPosition(dx, dy);
    }

    /**
     * The key drain of `release_resources`, run on both the normal and the
     * error exit: keyUp every key believed held, after which no key is held.
     * The held set itself is not cleared.
     */
    method ReleaseResources()
      requires Valid()
      modifies this`log
      ensures |old(log)| <= |log| && log[..|old(log)|] == old(log)
      ensures forall i | |old(log)| <= i < |log| :: log[i].KeyUp? && log[i].key in currentKeys
      ensures Replay({}, log) == {} && Clean({}, log)
    {
      var out := ReleaseKeys(currentKeys, currentKeys, log);
      ReplayConcat({}, log, out[|log|..]);
      assert log + out[|log|..] == out;
      log := out;
    }

    /** `adjust_sensitivity`: the new sensitivity, clamped to 0.5 .. 5.0. */
    method AdjustSensitivity(value: real)
      requires Valid()
      modifies this`sensitivity
      ensures Valid()
      ensures sensitivity == Clamp(value, 0.5, 5.0)
    {
      sensitivity := Clamp(value, 0.5, 5.0);
    }

    /** `adjust_smoothing`: the new smoothing factor, clamped to 0 .. 1. */
    method AdjustSmoothing(value: real)
      requires Valid()
      modifies this`smoothing
      ensures Valid()
      ensures smoothing == Clamp(value, 0.0, 1.0)
    {
      smoothing := Clamp(value, 0.0, 1.0);
    }
  }
}
