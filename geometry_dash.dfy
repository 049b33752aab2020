/**
 * The Geometry Dash controller: a thumb-index pinch is a jump. The space bar
 * is pressed when at least two of the last three frames saw one and the
 * debounce time has passed. It is released on the first frame at which fewer
 * than two of the last three did, so one frame without a pinch after two with
 * one still holds it.
 */
module GeometryDash {
  import opened Landmarks
  import opened Keys

  /** The frame handed to the detector is half size; pixels are scaled back up. */
  const SCALE_FACTOR: real := 2.0
  const GESTURE_HISTORY_LENGTH: nat := 3
  const DEBOUNCE_TIME: real := 0.05
  /** A pinch: thumb tip and index tip closer than this many pixels. */
  const PINCH_DISTANCE: int := 30
  /** A finger tip must be this many pixels above its base to count as extended. */
  const FINGER_MARGIN: int := 30
  /** The thumb tip must be this many pixels left of the index base to count as extended. */
  const THUMB_MARGIN: int := 20

  datatype Gesture = Jump | NoGesture

  /** What `detect_hand_gesture` returns: the gesture, whether the hand is closed, the pixels. */
  datatype Detection = Detection(gesture: Gesture, handClosed: bool, landmarksPx: Option<seq<Pixel>>)

  /** One keypoint in pixels of the full-size frame. */
  function PixelOf(p: Point, height: int, width: int): Pixel
  {
    (Trunc(p.x * width as real * SCALE_FACTOR), Trunc(p.y * height as real * SCALE_FACTOR))
  }

  /** The pixel conversion loop over all 21 keypoints, in order. */
  method ToPixels(hand: Hand, height: int, width: int) returns (px: seq<Pixel>)
    ensures |px| == |hand|
    ensures forall i | 0 <= i < |hand| :: px[i] == PixelOf(hand[i], height, width)
  {
    px := [];
    for i := 0 to |hand|
      invariant |px| == i
      invariant forall j | 0 <= j < i :: px[j] == PixelOf(hand[j], height, width)
    {
      px := px + [PixelOf(hand[i], height, width)];
    }
  }

  /** The finger tips and their own base joints, index to pinky. */
  const FINGER_TIPS: seq<nat> := [INDEX_TIP, MIDDLE_TIP, RING_TIP, PINKY_TIP]
  const FINGER_BASES: seq<nat> := [INDEX_MCP, MIDDLE_MCP, RING_MCP, PINKY_MCP]

  /** A non-thumb finger is extended when its tip is more than the margin above its own base. */
  predicate FingerExtended(px: seq<Pixel>, tip: nat, base: nat)
    requires tip < |px| && base < |px|
  {
    px[tip].1 < px[base].1 - FINGER_MARGIN
  }

  /** The thumb is extended when its tip is more than the margin left of the index base. */
  predicate ThumbExtended(px: seq<Pixel>)
    requires |px| == 21
  {
    px[THUMB_TIP].0 < px[INDEX_MCP].0 - THUMB_MARGIN
  }

  /**
   * The finger-flag loop: one flag per finger from index to pinky, then the
   * thumb's flag inserted in front, giving thumb, index, middle, ring, pinky.
   */
  method FingerFlags(px: seq<Pixel>) returns (flags: seq<bool>)
    requires |px| == 21
    ensures |flags| == 5
    ensures flags[0] <==> ThumbExtended(px)
    ensures forall i | 0 <= i < 4 :: flags[i + 1] <==> FingerExtended(px, FINGER_TIPS[i], FINGER_BASES[i])
  {
    var fingers: seq<bool> := [];
    for i := 0 to 4
      invariant |fingers| == i
      invariant forall j | 0 <= j < i :: fingers[j] <==> FingerExtended(px, FINGER_TIPS[j], FINGER_BASES[j])
    {
      var tip, base := px[FINGER_TIPS[i]], px[FINGER_BASES[i]];
      if tip.1 < base.1 - FINGER_MARGIN {
        fingers := fingers + [true];
      } else {
        fingers := fingers + [false];
      }
    }
    var thumb := false;
    if px[THUMB_TIP].0 < px[INDEX_MCP].0 - THUMB_MARGIN {
      thumb := true;
    }
    flags := [thumb] + fingers;
  }

  /** `sum(flags)`: how many flags are set. */
  function CountTrue(flags: seq<bool>): (n: nat)
    ensures n <= |flags|
    decreases |flags|
  {
    if flags == [] then 0 else CountTrue(flags[..|flags| - 1]) + (if flags[|flags| - 1] then 1 else 0)
  }

  /**
   * `calculate_distance`, squared: the script takes the square root and
   * compares it with an integer threshold, which `PinchThreshold` shows is
   * the same test as comparing the square with the squared threshold.
   */
  function CalculateDistanceSquared(p: Pixel, q: Pixel): (d: int)
    ensures d >= 0
    ensures d == 0 <==> p == q
    ensures d == SquaredDistance(q, p)
  {
    SquaredDistanceSymmetric(p, q);
    SquaredDistance(p, q)
  }

  /** For the Euclidean distance `d` of two pixels, `d < 30` is `d² < 900`. */
  lemma {:induction false} PinchThreshold(p: Pixel, q: Pixel, d: real)
    requires 0.0 <= d && d * d == CalculateDistanceSquared(p, q) as real
    ensures d < PINCH_DISTANCE as real <==> CalculateDistanceSquared(p, q) < PINCH_DISTANCE * PINCH_DISTANCE
  {
    RootBelowThreshold(d, CalculateDistanceSquared(p, q) as real, PINCH_DISTANCE as real);
  }

  /** Thumb tip and index tip, in pixels, closer than the pinch distance. */
  predicate Pinched(hand: Hand, height: int, width: int)
  {
    CalculateDistanceSquared(PixelOf(hand[THUMB_TIP], height, width), PixelOf(hand[INDEX_TIP], height, width))
      < PINCH_DISTANCE * PINCH_DISTANCE
  }

  /**
   * `detect_hand_gesture`: no hand gives no gesture, an open hand and no
   * pixels; otherwise the pixels of the first hand, "closed" when at most one
   * finger is extended, and a jump exactly when thumb tip and index tip are
   * closer than 30 pixels, whatever the fingers do.
   */
  method DetectHandGesture(hand: Option<Hand>, height: int, width: int) returns (r: Detection)
    ensures hand.None? ==> r == Detection(NoGesture, false, None)
    ensures hand.Some? ==> r.landmarksPx.Some? && |r.landmarksPx.value| == 21
    ensures hand.Some? ==> forall i | 0 <= i < 21 :: r.landmarksPx.value[i] == PixelOf(hand.value[i], height, width)
    ensures hand.Some? ==> (r.gesture == Jump <==> Pinched(hand.value, height, width))
    ensures hand.Some? ==> var px := r.landmarksPx.value;
      r.handClosed <==> CountTrue([ThumbExtended(px),
                                   FingerExtended(px, INDEX_TIP, INDEX_MCP),
                                   FingerExtended(px, MIDDLE_TIP, MIDDLE_MCP),
                                   FingerExtended(px, RING_TIP, RING_MCP),
                                   FingerExtended(px, PINKY_TIP, PINKY_MCP)]) <= 1
  {
    if hand.None? {
      return Detection(NoGesture, false, None);
    }
    var px := ToPixels(hand.value, height, width);
    var distance := CalculateDistanceSquared(px[THUMB_TIP], px[INDEX_TIP]);
    var flags := FingerFlags(px);
    assert flags == [ThumbExtended(px),
                     FingerExtended(px, INDEX_TIP, INDEX_MCP),
                     FingerExtended(px, MIDDLE_TIP, MIDDLE_MCP),
                     FingerExtended(px, RING_TIP, RING_MCP),
                     FingerExtended(px, PINKY_TIP, PINKY_MCP)] by {
      assert flags[1] == FingerExtended(px, FINGER_TIPS[0], FINGER_BASES[0]);
      assert flags[2] == FingerExtended(px, FINGER_TIPS[1], FINGER_BASES[1]);
      assert flags[3] == FingerExtended(px, FINGER_TIPS[2], FINGER_BASES[2]);
      assert flags[4] == FingerExtended(px, FINGER_TIPS[3], FINGER_BASES[3]);
    }
    var handClosed := CountTrue(flags) <= 1;
    if distance < PINCH_DISTANCE * PINCH_DISTANCE {
      return Detection(Jump, handClosed, Some(px));
    }
    return Detection(NoGesture, handClosed, Some(px));
  }

  /** `deque.count('jump')`. */
  function JumpCount(history: seq<Gesture>): (n: nat)
    ensures n <= |history|
    decreases |history|
  {
    if history == [] then 0
    else JumpCount(history[..|history| - 1]) + (if history[|history| - 1] == Jump then 1 else 0)
  }

  /** Jumps are acted on when at least two of the last three frames saw one. */
  predicate JumpConfirmed(history: seq<Gesture>)
  {
    JumpCount(history) >= GESTURE_HISTORY_LENGTH - 1
  }

  function JumpIndicator(g: Gesture): nat
  {
    if g == Jump then 1 else 0
  }

  /** The count over a full history, spelled out entry by entry. */
  lemma JumpCountOfThree(a: Gesture, b: Gesture, c: Gesture)
    ensures JumpCount([a, b, c]) == JumpIndicator(a) + JumpIndicator(b) + JumpIndicator(c)
  {
    assert [a, b, c][..2] == [a, b];
    assert [a, b][..1] == [a];
    assert [a][..0] == [];
    assert JumpCount([a]) == JumpIndicator(a);
    assert JumpCount([a, b]) == JumpIndicator(a) + JumpIndicator(b);
  }

  /**
   * One pinch frame on its own is never acted on: a confirmed jump after
   * shifting in a new gesture needs a jump among the two frames kept from
   * before.
   */
  lemma {:induction false} SingleJumpFrameIgnored(history: seq<Gesture>, g: Gesture)
    requires |history| == GESTURE_HISTORY_LENGTH
    requires JumpConfirmed(history[1..] + [g])
    ensures history[1] == Jump || history[2] == Jump
  {
    assert history[1..] + [g] == [history[1], history[2], g];
    JumpCountOfThree(history[1], history[2], g);
  }

  /** Two frames in a row without a pinch always end a confirmed jump. */
  lemma {:induction false} TwoQuietFramesRelease(a: Gesture)
    ensures !JumpConfirmed([a, NoGesture, NoGesture])
  {
    JumpCountOfThree(a, NoGesture, NoGesture);
  }

  class JumpController {
    /** The last three gestures, oldest first. */
    var gestureHistory: seq<Gesture>
    var lastJumpTime: real
    var jumpActive: bool
    /** Every keyboard event the loop has sent, oldest first. */
    var log: seq<Event>

    /**
     * The history always holds exactly three gestures; space is held
     * exactly while `jumpActive`; space presses and releases strictly
     * alternate (no event is redundant) and no other key is ever sent.
     */
    ghost predicate Valid()
      reads this
    {
      && |gestureHistory| == GESTURE_HISTORY_LENGTH
      && Replay({}, log) == (if jumpActive then {Space} else {})
      && Clean({}, log)
      && forall i | 0 <= i < |log| :: log[i] == KeyDown(Space) || log[i] == KeyUp(Space)
    }

    /** The state `play_geometry_dash` sets up before its loop. */
    constructor ()
      ensures Valid()
      ensures gestureHistory == [NoGesture, NoGesture, NoGesture]
      ensures lastJumpTime == 0.0 && !jumpActive && log == []
    {
      gestureHistory := [NoGesture, NoGesture, NoGesture];
      lastJumpTime := 0.0;
      jumpActive := false;
      log := [];
    }

    /**
     * One frame: shift the new gesture into the history; on a confirmed
     * jump press space if it is not held and the debounce time has passed
     * since the last press (stamping the time); otherwise release space if
     * it is held.
     */
    method Step(hand: Option<Hand>, height: int, width: int, now: real)
      requires Valid()
      modifies this
      ensures Valid()
      ensures gestureHistory ==
        old(gestureHistory)[1..] + [if hand.Some? && Pinched(hand.value, height, width) then Jump else NoGesture]
      ensures JumpConfirmed(gestureHistory) ==>
        && jumpActive == (old(jumpActive) || now - old(lastJumpTime) > DEBOUNCE_TIME)
        && log == old(log) + (if old(jumpActive) || !jumpActive then [] else [KeyDown(Space)])
        && lastJumpTime == (if old(jumpActive) || !jumpActive then old(lastJumpTime) else now)
      ensures !JumpConfirmed(gestureHistory) ==>
        && !jumpActive && lastJumpTime == old(lastJumpTime)
        && log == old(log) + (if old(jumpActive) then [KeyUp(Space)] else [])
    {
      var r := DetectHandGesture(hand, height, width);
      gestureHistory := gestureHistory[1..] + [r.gesture];
      Debounce(JumpCount(gestureHistory) >= GESTURE_HISTORY_LENGTH - 1, now);
    }

    /**
     * The key half of a frame: while a jump is confirmed, press space if it
     * is not held and the debounce time has passed since the last press
     * (stamping the time); otherwise release space if it is held.
     */
    method Debounce(confirmed: bool, now: real)
      requires Valid()
      modifies this`log, this`jumpActive, this`lastJumpTime
      ensures Valid()
      ensures confirmed ==>
        && jumpActive == (old(jumpActive) || now - old(lastJumpTime) > DEBOUNCE_TIME)
        && log == old(log) + (if old(jumpActive) || !jumpActive then [] else [KeyDown(Space)])
        && lastJumpTime == (if old(jumpActive) || !jumpActive then old(lastJumpTime) else now)
      ensures !confirmed ==>
        && !jumpActive && lastJumpTime == old(lastJumpTime)
        && log == old(log) + (if old(jumpActive) then [KeyUp(Space)] else [])
    {
      if confirmed {
        if now - lastJumpTime > DEBOUNCE_TIME && !jumpActive {
          AppendOne({}, log, KeyDown(Space));
          log := log + [KeyDown(Space)];
          jumpActive := true;
          lastJumpTime := now;
        }
      } else if jumpActive {
        AppendOne({}, log, KeyUp(Space));
        log := log + [KeyUp(Space)];
        jumpActive := false;
      }
    }

    /**
     * Both exits of the loop send a keyUp for space unconditionally: no key
     * is held afterwards, and the release is redundant exactly when space
     * was not held.
     */
    method Exit()
      requires Valid()
      modifies this`log
      ensures log == old(log) + [KeyUp(Space)]
      ensures Replay({}, log) == {}
      ensures Clean({}, log) <==> jumpActive
    {
      AppendOne({}, log, KeyUp(Space));
      log := log + [KeyUp(Space)];
    }
  }
}
