/**
 * The Subway Surfers body controller: the shoulders' position against the
 * centre line picks the lane, the shoulders' height against a height
 * calibrated at start picks jump / crouch / stand, and holding the wrists
 * together for ten frames starts the game (the first time) or presses space
 * (every later time). The loop's state lives in one `Session` object.
 */
module SubwaySurfers {
  import opened Landmarks
  import opened Keys

  /** Wrists closer than this many pixels are "joined". */
  const JOIN_DISTANCE: int := 180
  /** Joined frames in a row needed to start or to press space. */
  const NUM_OF_FRAMES: nat := 10
  /** The shoulder midpoint must rise this many pixels above the calibrated height to jump. */
  const JUMP_MARGIN: int := 15
  /** ... and sink this many pixels below it to crouch. */
  const CROUCH_MARGIN: int := 100
  /** Where the game window is clicked to give it focus at start. */
  const START_CLICK_X: int := 1300
  const START_CLICK_Y: int := 800

  /**
   * The four body keypoints the controller reads (pose keypoints 11, 12, 15
   * and 16), in normalized image coordinates.
   */
  datatype Pose = Pose(leftShoulder: Point, rightShoulder: Point, leftWrist: Point, rightWrist: Point)

  /** Squared distance between the wrists, in (real) pixels. */
  function WristDistanceSquared(pose: Pose, height: int, width: int): (d: real)
    ensures d >= 0.0
  {
    var dx := pose.leftWrist.x * width as real - pose.rightWrist.x * width as real;
    var dy := pose.leftWrist.y * height as real - pose.rightWrist.y * height as real;
    ProductNonnegative(if dx >= 0.0 then dx else -dx, if dx >= 0.0 then dx else -dx);
    ProductNonnegative(if dy >= 0.0 then dy else -dy, if dy >= 0.0 then dy else -dy);
    dx * dx + dy * dy
  }

  /**
   * `checkHandsJoined`: the wrists are closer than the join distance, so
   * wrists on the same spot are always joined.
   */
  function HandsJoined(pose: Pose, height: int, width: int): (joined: bool)
    ensures pose.leftWrist == pose.rightWrist ==> joined
    ensures joined <==> WristDistanceSquared(pose, height, width) < (JOIN_DISTANCE * JOIN_DISTANCE) as real
  {
    WristDistanceSquared(pose, height, width) < (JOIN_DISTANCE * JOIN_DISTANCE) as real
  }

  /**
   * The script truncates the Euclidean wrist distance `d` to an integer and
   * compares it with 180; that is exactly the squared-distance test.
   */
  lemma {:induction false} HandsJoinedThreshold(pose: Pose, height: int, width: int, d: real)
    requires 0.0 <= d && d * d == WristDistanceSquared(pose, height, width)
    ensures Trunc(d) < JOIN_DISTANCE <==> HandsJoined(pose, height, width)
  {
    TruncatedBelowThreshold(d, JOIN_DISTANCE);
    RootBelowThreshold(d, WristDistanceSquared(pose, height, width), JOIN_DISTANCE as real);
  }

  datatype Horizontal = LeftLane | CenterLane | RightLane

  /**
   * The lane of a body from the x pixels of the two shoulders as the script
   * names them (`leftX` from the right-shoulder keypoint, `rightX` from the
   * left one, the image being mirrored) and the centre line `m`. The tests
   * run in the order left, right, centre, so both shoulders exactly on the
   * line count as left; shoulders crossed over the line give no lane.
   */
  function LaneOf(leftX: int, rightX: int, m: int): (h: Option<Horizontal>)
    ensures h == Some(LeftLane) <==> leftX <= m && rightX <= m
    ensures h == Some(RightLane) <==> m <= leftX && m <= rightX && !(leftX == m && rightX == m)
    ensures h == Some(CenterLane) <==> leftX < m < rightX
    ensures h == None <==> rightX < m < leftX
  {
    if rightX <= m && leftX <= m then Some(LeftLane)
    else if rightX >= m && leftX >= m then Some(RightLane)
    else if rightX >= m && leftX <= m then Some(CenterLane)
    else None
  }

  /**
   * `checkLeftRight`: the lane of the truncated shoulder x pixels against
   * the line at `width // 2`.
   */
  function CheckLeftRight(pose: Pose, width: int): (h: Option<Horizontal>)
    ensures var leftX, rightX, m := ToPixel(pose.rightShoulder.x, width), ToPixel(pose.leftShoulder.x, width), width / 2;
      && (h == Some(LeftLane) <==> leftX <= m && rightX <= m)
      && (h == Some(RightLane) <==> m <= leftX && m <= rightX && !(leftX == m && rightX == m))
      && (h == Some(CenterLane) <==> leftX < m < rightX)
      && (h == None <==> rightX < m < leftX)
  {
    LaneOf(ToPixel(pose.rightShoulder.x, width), ToPixel(pose.leftShoulder.x, width), width / 2)
  }

  datatype Posture = Jumping | Crouching | Standing

  /** The y pixel of the shoulder midpoint, `abs(right_y + left_y) // 2`. */
  function ShoulderMidY(pose: Pose, height: int): (mid: int)
    ensures mid >= 0
  {
    var sum := ToPixel(pose.leftShoulder.y, height) + ToPixel(pose.rightShoulder.y, height);
    (if sum < 0 then -sum else sum) / 2
  }

  /**
   * The posture for a shoulder midpoint against the calibrated height:
   * jumping well above it, crouching far below it, standing in between.
   */
  function PostureOf(mid: int, midY: int): (p: Posture)
    ensures p == Jumping <==> mid < midY - JUMP_MARGIN
    ensures p == Crouching <==> mid > midY + CROUCH_MARGIN
    ensures p == Standing <==> midY - JUMP_MARGIN <= mid <= midY + CROUCH_MARGIN
  {
    if mid < midY - JUMP_MARGIN then Jumping
    else if mid > midY + CROUCH_MARGIN then Crouching
    else Standing
  }

  /**
   * `checkJumpCrouch`: the posture of the shoulder midpoint against the
   * calibrated height.
   */
  function CheckJumpCrouch(pose: Pose, height: int, midY: int): (p: Posture)
    ensures p == Jumping <==> ShoulderMidY(pose, height) < midY - JUMP_MARGIN
    ensures p == Crouching <==> ShoulderMidY(pose, height) > midY + CROUCH_MARGIN
    ensures p == Standing <==> midY - JUMP_MARGIN <= ShoulderMidY(pose, height) <= midY + CROUCH_MARGIN
  {
    PostureOf(ShoulderMidY(pose, height), midY)
  }

  /** The frame that calibrates the height always reads as standing. */
  lemma CalibrationFrameIsStanding(pose: Pose, height: int)
    ensures CheckJumpCrouch(pose, height, ShoulderMidY(pose, height)) == Standing
  {
  }

  /**
   * The lane index after a frame, as an independent reading of the two
   * press rules: left moves one lane left unless already leftmost, right one
   * lane right unless already rightmost, centre goes to the middle lane, and
   * no lane leaves the index alone.
   */
  function LaneAfter(h: Option<Horizontal>, x: int): (r: int)
    ensures 0 <= x <= 2 ==> 0 <= r <= 2
    ensures 0 <= x <= 2 ==> x - 1 <= r <= x + 1
  {
    match h
    case Some(LeftLane) => if x > 0 then x - 1 else x
    case Some(RightLane) => if x < 2 then x + 1 else x
    case Some(CenterLane) => 1
    case None => x
  }

  /**
   * The height index after a frame: jumping or crouching from the middle
   * moves up or down, standing returns to the middle, anything else stays.
   */
  function PostureAfter(p: Posture, y: int): (r: int)
    ensures 0 <= y <= 2 ==> 0 <= r <= 2
    ensures p == Standing ==> r == 1
    ensures y != 1 && p != Standing ==> r == y
  {
    match p
    case Jumping => if y == 1 then 2 else y
    case Crouching => if y == 1 then 0 else y
    case Standing => 1
  }

  /** The taps one lane move sends. */
  function LaneTaps(before: int, after: int): seq<Event>
  {
    if after < before then [Tap(Left)] else if after > before then [Tap(Right)] else []
  }

  /** The taps one posture change sends: only leaving the middle presses a key. */
  function PostureTaps(before: int, after: int): seq<Event>
  {
    if before == 1 && after == 2 then [Tap(Up)] else if before == 1 && after == 0 then [Tap(Down)] else []
  }

  /** The start counter after one frame: count joined frames, wrap at ten, reset otherwise. */
  function NextCounter(counter: nat, joined: bool): (c: nat)
    ensures c < NUM_OF_FRAMES
  {
    if joined then (counter + 1) % NUM_OF_FRAMES else 0
  }

  /** The counter after a sequence of frames, from zero. */
  function CounterAfter(joined: seq<bool>): (c: nat)
    ensures c < NUM_OF_FRAMES
    decreases |joined|
  {
    if joined == [] then 0 else NextCounter(CounterAfter(joined[..|joined| - 1]), joined[|joined| - 1])
  }

  /** How many of the latest frames in a row were joined. */
  function JoinedRun(joined: seq<bool>): nat
    decreases |joined|
  {
    if joined == [] || !joined[|joined| - 1] then 0 else JoinedRun(joined[..|joined| - 1]) + 1
  }

  /**
   * The counter is the length of the current run of joined frames, modulo
   * ten: the start (or space) fires on the 10th, 20th, ... joined frame in a
   * row, and any frame that is not joined starts the count again.
   */
  lemma {:induction false} CounterIsJoinedRun(joined: seq<bool>)
    ensures CounterAfter(joined) == JoinedRun(joined) % NUM_OF_FRAMES
    decreases |joined|
  {
    if joined != [] {
      var prefix := joined[..|joined| - 1];
      CounterIsJoinedRun(prefix);
      if joined[|joined| - 1] {
        var r := JoinedRun(prefix);
        assert (r % 10 + 1) % 10 == (r + 1) % 10;
      }
    }
  }

  /** The events of the start gesture firing: the focus click the first time, space afterwards. */
  function StartEvents(fires: bool, started: bool): seq<Event>
  {
    if !fires then [] else if started then [Tap(Space)] else [Click(START_CLICK_X, START_CLICK_Y)]
  }

  class Session {
    var gameStarted: bool
    var xPosIndex: int
    var yPosIndex: int
    /** The calibrated shoulder height; `None` until the game starts. */
    var midY: Option<int>
    var counter: nat
    /** Every input event the loop has sent, oldest first. */
    var log: seq<Event>

    /**
     * Both indices name one of three positions, the counter is below ten, a
     * height is calibrated exactly once the game has started, and the loop
     * only ever taps keys and clicks, so it never leaves a key held.
     */
    ghost predicate Valid()
      reads this
    {
      && 0 <= xPosIndex <= 2 && 0 <= yPosIndex <= 2
      && counter < NUM_OF_FRAMES
      && (gameStarted <==> midY.Some?)
      && forall i | 0 <= i < |log| :: log[i].Tap? || log[i].Click?
    }

    /** A valid session holds no key, and no event of its log is redundant. */
    lemma HoldsNoKey()
      requires Valid()
      ensures Replay({}, log) == {} && Clean({}, log)
    {
      ReplayIgnoresTapsAndClicks({}, log);
    }

    /** The state `play_game` sets up before its loop. */
    constructor ()
      ensures Valid()
      ensures !gameStarted && xPosIndex == 1 && yPosIndex == 1 && midY == None && counter == 0 && log == []
    {
      gameStarted := false;
      xPosIndex := 1;
      yPosIndex := 1;
      midY := None;
      counter := 0;
      log := [];
    }

    /**
     * One frame. With a body: once started, change lane; count joined
     * frames and, on the tenth, start the game (calibrating the height and
     * clicking the window) or press space; then, when a non-zero height is
     * calibrated, jump, crouch or stand. Without a body only the counter
     * resets.
     */
    method Step(pose: Option<Pose>, height: int, width: int)
      requires Valid()
      modifies this
      ensures Valid()
      ensures old(gameStarted) ==> gameStarted
      ensures counter == NextCounter(old(counter), pose.Some? && HandsJoined(pose.value, height, width))
      ensures var fires := pose.Some? && HandsJoined(pose.value, height, width) && old(counter) == NUM_OF_FRAMES - 1;
        && gameStarted == (old(gameStarted) || fires)
        && midY == (if fires && !old(gameStarted) then Some(ShoulderMidY(pose.value, height)) else old(midY))
        && log == old(log) + LaneTaps(old(xPosIndex), xPosIndex) + StartEvents(fires, old(gameStarted))
                           + PostureTaps(old(yPosIndex), yPosIndex)
      ensures xPosIndex == (if old(gameStarted) && pose.Some? then LaneAfter(CheckLeftRight(pose.value, width), old(xPosIndex))
                            else old(xPosIndex))
      ensures yPosIndex == (if pose.Some? && midY.Some? && midY.value != 0
                            then PostureAfter(CheckJumpCrouch(pose.value, height, midY.value), old(yPosIndex))
                            else old(yPosIndex))
    {
      if pose.None? {
        counter := 0;
        return;
      }
      if gameStarted {
        ChangeLane(pose.value, width);
      }
      CountJoined(pose.value, height, width);
      if midY.Some? && midY.value != 0 {
        ChangePosture(pose.value, height);
      }
    }

    /** The lane block: press left or right at most once, moving the lane index by one. */
    method ChangeLane(body: Pose, width: int)
      requires Valid()
      modifies this`xPosIndex, this`log
      ensures Valid()
      ensures xPosIndex == LaneAfter(CheckLeftRight(body, width), old(xPosIndex))
      ensures log == old(log) + LaneTaps(old(xPosIndex), xPosIndex)
    {
      var horizontal := CheckLeftRight(body, width);
      if (horizontal == Some(LeftLane) && xPosIndex != 0) || (horizontal == Some(CenterLane) && xPosIndex == 2) {
        log := log + [Tap(Left)];
        xPosIndex := xPosIndex - 1;
      } else if (horizontal == Some(RightLane) && xPosIndex != 2) || (horizontal == Some(CenterLane) && xPosIndex == 0) {
        log := log + [Tap(Right)];
        xPosIndex := xPosIndex + 1;
      }
    }

    /**
     * The joined-hands block: count the frame; on the tenth joined frame in
     * a row start the game (calibrating the height from this frame and
     * clicking the game window) or, once started, press space.
     */
    method CountJoined(body: Pose, height: int, width: int)
      requires Valid()
      modifies this`counter, this`gameStarted, this`midY, this`log
      ensures Valid()
      ensures counter == NextCounter(old(counter), HandsJoined(body, height, width))
      ensures var fires := HandsJoined(body, height, width) && old(counter) == NUM_OF_FRAMES - 1;
        && gameStarted == (old(gameStarted) || fires)
        && midY == (if fires && !old(gameStarted) then Some(ShoulderMidY(body, height)) else old(midY))
        && log == old(log) + StartEvents(fires, old(gameStarted))
    {
      if HandsJoined(body, height, width) {
        counter := counter + 1;
        if counter == NUM_OF_FRAMES {
          if !gameStarted {
            gameStarted := true;
            midY := Some(ShoulderMidY(body, height));
            log := log + [Click(START_CLICK_X, START_CLICK_Y)];
          } else {
            log := log + [Tap(Space)];
          }
          counter := 0;
        }
      } else {
        counter := 0;
      }
    }

    /** The posture block: press up or down when leaving the middle, return to it when standing. */
    method ChangePosture(body: Pose, height: int)
      requires Valid() && midY.Some?
      modifies this`yPosIndex, this`log
      ensures Valid()
      ensures yPosIndex == PostureAfter(CheckJumpCrouch(body, height, midY.value), old(yPosIndex))
      ensures log == old(log) + PostureTaps(old(yPosIndex), yPosIndex)
    {
      var posture := CheckJumpCrouch(body, height, midY.value);
      if posture == Jumping && yPosIndex == 1 {
        log := log + [Tap(Up)];
        yPosIndex := yPosIndex + 1;
      } else if posture == Crouching && yPosIndex == 1 {
        log := log + [Tap(Down)];
        yPosIndex := yPosIndex - 1;
      } else if posture == Standing && yPosIndex != 1 {
        yPosIndex := 1;
      }
    }
  }
}
