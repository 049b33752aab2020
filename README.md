# Hand- and body-gesture game controllers, modelled in Dafny

This project models the decision logic of the `computer_vision_games` scripts. Each script turns
camera keypoints into keyboard input for a game:

- **Arcade 1942, "mouse-like" controller** (`MouseController`). The index-finger base joint works
  like a mouse. Its smoothed relative movement moves a virtual player around a unit square. The
  player's position picks the arrow keys, and finger gestures add shoot (X), barrel roll (Z),
  start (Enter) and select (Ctrl) under a shared cooldown timestamp.
- **Arcade 1942, banded controller** (`BandedController`). The centre of the hand is placed in a
  40 % / 20 % / 40 % band of each axis. The outer bands hold the arrow keys, and the same gesture
  table adds the action keys.
- **Geometry Dash** (`GeometryDash`). A thumb-index pinch is a jump. Space is pressed when at
  least two of the last three frames saw one and the debounce time has passed. It is released on
  the first frame at which fewer than two of the last three did, so one frame without a pinch
  after two with one still holds it.
- **Subway Surfers** (`SubwaySurfers`). Lane changes come from the shoulders against the centre
  line, and jump and crouch from the shoulder height against a height calibrated at start.
  Holding the wrists together for ten frames starts the game, or presses space once it has started.
- **Barrel-roll test** (`BarrelRollTest`). A detector that reads "index finger alone" as a barrel
  roll and announces one at most every half second.

Shared pieces:

- `Landmarks` holds keypoints, truncation to pixels, means and distance thresholds.
- `FingerGestures` holds the finger reading and gesture table shared by both 1942 controllers.
- `Keys` is a model of the keyboard. Every `keyDown`, `keyUp`, `press` and `click` a script sends
  is appended to an event log. `Replay` computes which keys the log leaves held. `Clean` says that
  no event in it is redundant: no press of a held key and no release of an unheld one. Both 1942
  controllers and the Geometry Dash controller keep the invariant that their own idea of the held
  keys is `Replay` of their log, and that the log is clean. The Subway Surfers session only taps
  keys and clicks, so its log is clean and leaves no key held. The barrel-roll test sends no input.

Time is a parameter of every frame (`now`), and the camera and keypoint detector are replaced by
their output:

- `Option<Hand>`: one hand of 21 normalized keypoints, or none. Every script asks the detector for
  at most one hand.
- `Option<Pose>`: the four body keypoints the Subway Surfers script reads.

## Model

| member | source | states |
|---|---|---|
| Landmarks.Trunc | arcade_1942_mouse_controller.py:184 | Python `int()` on a float truncates toward zero: the result is within one of the value, on the zero side. |
| Landmarks.Clamp | arcade_1942_mouse_controller.py:292 | `max(lo, min(hi, v))` lies in `[lo, hi]`. It is `v` when `v` is inside, `lo` below and `hi` above. |
| Landmarks.ToPixel | arcade_1942_mouse_controller.py:184-185 | `int(c * size)` is the truncation of the scaled coordinate. A unit coordinate lands in `0..size`. |
| Landmarks.SquaredDistance | geometry_dash_hand_controller.py:172-174 | The squared pixel distance is non-negative and zero exactly for equal points. |
| Landmarks.SquaredDistanceSymmetric | geometry_dash_hand_controller.py:172-174 | The distance of p to q is the distance of q to p. |
| Landmarks.RootBelowThreshold | geometry_dash_hand_controller.py:166 | For a non-negative root `d` of `s` and a positive threshold `t`, `d < t` exactly when `s < t²`. This makes the square-root comparisons of the scripts equal to squared tests. |
| Landmarks.TruncatedBelowThreshold | subway_surfers_pose_detection.py:116-121 | For `d ≥ 0`, `int(d) < k` exactly when `d < k`, so truncating the distance before the comparison changes nothing. |
| Landmarks.XCoords | arcade_1942_mouse_controller.py:178 | The list of x coordinates has one entry per keypoint, in order. |
| Landmarks.YCoords | arcade_1942_mouse_controller.py:179 | The list of y coordinates has one entry per keypoint, in order. |
| Landmarks.SumRealsBounds | arcade_1942_mouse_controller.py:180-181 | A sum of `n` values within `[lo, hi]` lies within `[n·lo, n·hi]`. |
| Landmarks.MeanInUnit | arcade_1942_mouse_controller.py:180-181 | The mean of unit coordinates is a unit coordinate. |
| Landmarks.CenterInFrame | arcade_1942_mouse_controller.py:178-181 | A hand whose keypoints are all inside the image has its centre pixel inside the frame. |
| Keys.ReplayConcat | arcade_1942_mouse_controller.py:350-368 | Replaying a log in two parts is replaying it at once. The whole is clean exactly when both parts are, each from its own start. |
| Keys.ReplayIgnoresTapsAndClicks | subway_surfers_pose_detection.py:641-656 | `press` and `click` events leave the held keys unchanged and are never redundant. |
| Keys.ReleaseKeys | arcade_1942_mouse_controller.py:358-360 | The release loop keeps the log as a prefix. It appends only keyUps of the given keys, after which exactly those keys are no longer held. No event is redundant, and an empty set appends nothing. |
| Keys.PressKeys | arcade_1942_mouse_controller.py:363-365 | The press loop keeps the log as a prefix. It appends only keyDowns of the given keys, after which exactly those keys are held as well. No event is redundant, and an empty set appends nothing. |
| Keys.Transition | arcade_1942_mouse_controller.py:350-368 | After the appended events exactly the desired set is held. Every event releases a key that is no longer wanted or presses a newly wanted one, all releases come before all presses, no event is redundant, and an unchanged set sends nothing. |
| FingerGestures.ExtendedCount | arcade_1942_mouse_controller.py:199 | The count of raised fingers is 0..5. It is 0 exactly when none is raised and 5 exactly when all are. |
| FingerGestures.ScaledBelow | arcade_1942_mouse_controller.py:190-197 | Scaling both sides by a positive image height keeps a strict comparison. |
| FingerGestures.MiddleMcpFingers | arcade_1942_mouse_controller.py:188-197 | For a positive height the pixel-scaled finger tests read the same flags as the scale-free ones. Each finger tip must be above the middle-finger base, and the thumb tip above the wrist. |
| FingerGestures.Recognize | arcade_1942_mouse_controller.py:201-212 | Barrel roll exactly when at least four fingers are raised. Shooting needs the index and rules out barrel roll and start. Start needs thumb and pinky and rules out barrel roll and select. Select is shooting with the thumb raised, and conversely. |
| FingerGestures.AtMostOnePulse | arcade_1942_mouse_controller.py:201-212 | No hand shows more than one of barrel roll, start and select. |
| FingerGestures.BarrelRollThreshold | arcade_1942_mouse_controller.py:206 | Three raised fingers are never a barrel roll and four always are. Without the thumb, a barrel roll needs all four other fingers. |
| MouseController.HandPointer | arcade_1942_mouse_controller.py:184-185 | A hand whose index-finger base joint is inside the image has its pointer pixel inside the frame. |
| MouseController.GetHandInfo | arcade_1942_mouse_controller.py:155-225 | The centre is the truncated mean keypoint and the pointer is the truncated index-finger base joint. The gestures come from the table over the middle-base finger test and equal the scale-free reading for a positive height. There are at most five raised fingers, barrel roll exactly at four or more, and at most one pulse gesture. |
| MouseController.Pushed | arcade_1942_mouse_controller.py:240 | Appending to the five-entry deque gives length `min(n + 1, 5)`. The new entry is last, and before it come the newest entries of the old history. |
| MouseController.Xs | arcade_1942_mouse_controller.py:264 | The x list of the history has one entry per position, and each entry is the x of that position. |
| MouseController.Ys | arcade_1942_mouse_controller.py:265 | The y list of the history has one entry per position, and each entry is the y of that position. |
| MouseController.Filtered | arcade_1942_mouse_controller.py:252-255 | The tremor filter gives 0 or the raw jump. It gives 0 exactly when the jump is smaller than 5 pixels either way. |
| MouseController.AxisMovement | arcade_1942_mouse_controller.py:247-269 | With fewer than three positions in the history, or no smoothing, an axis moves by the filtered jump times the sensitivity. With three or more and full smoothing it moves by the history's average offset. In between, the movement always lies between the scaled jump and the offset, `1 - smoothing` of the way from the offset to the scaled jump. |
| MouseController.BlendBetween | arcade_1942_mouse_controller.py:267-268 | A blend `a·(1 - t) + b·t` lies `1 - t` of the way from `b` to `a`, and for `t` in the unit interval it lies between `a` and `b`. |
| MouseController.FrameMovement | arcade_1942_mouse_controller.py:227-274 | The first frame of a hand moves nothing, and neither does a pointer that stays on its previous pixel while the history is short. Otherwise, with a short history, each axis moves by its filtered jump times the sensitivity. |
| MouseController.SumConstant | arcade_1942_mouse_controller.py:264 | The sum of a constant history is its length times the constant. |
| MouseController.StillHandDoesNotMove | arcade_1942_mouse_controller.py:227-274 | A hand that holds still moves the player by exactly zero: a jump under the threshold with a constant history. |
| MouseController.SumProgression | arcade_1942_mouse_controller.py:264 | Closed form of the sum of an arithmetic progression. |
| MouseController.SteadyMotionOffset | arcade_1942_mouse_controller.py:262-268 | Under steady motion of `s` pixels per frame the smoothing term is `s·n/2` for a history of `n` entries. It grows with the history rather than being the per-frame step. |
| MouseController.DirectionKeys | arcade_1942_mouse_controller.py:298-308 | Left exactly below 0.4 and right exactly above 0.6 of the square, likewise up and down. Left and right are never both asked for, nor up and down. |
| MouseController.Moved | arcade_1942_mouse_controller.py:287-293 | One axis of the player moved by a movement scaled down by the frame size. It stays in the unit interval, is clamped to 0 or 1 when the move overshoots, is the moved position otherwise, and does not change for a zero movement. |
| MouseController.GestureOutcome | arcade_1942_mouse_controller.py:312-348 | Only X, Z, Enter and Ctrl are asked for. X exactly while shooting and the stamp is older than 0.1 s. Z, Enter and Ctrl exactly when shown, not held and past their cooldown since the stamp, each test seeing the stamp the previous one left, and the stamp is renewed by the last of them. For a real hand every test sees the old stamp, and the stamp is renewed exactly when one of the three is asked for. A pulse key that is held is never asked for again. |
| MouseController.HandController.constructor | arcade_1942_mouse_controller.py:51-86 | The controller starts with no previous pointer and an empty history. Sensitivity is 2.5, smoothing 0.5, no keys are held, and the player is at the centre. |
| MouseController.HandController.RecordPointer | arcade_1942_mouse_controller.py:240 | The pointer joins the bounded history and is remembered as the previous pointer, keeping the invariant. |
| MouseController.HandController.CalculateRelativeMovement | arcade_1942_mouse_controller.py:227-274 | The first frame of a hand gives no movement. Later frames give the filtered, scaled and smoothed movement against the previous pointer. Either way the pointer is appended to the history and remembered. |
| MouseController.HandController.UpdatePlayerPosition | arcade_1942_mouse_controller.py:276-310 | Each axis of the player becomes `Moved` of its old value by the movement, scaled to the frame and clamped to the unit square. The arrow keys are those of the new position. |
| MouseController.HandController.ProcessGestures | arcade_1942_mouse_controller.py:312-348 | The gesture keys and the new stamp are exactly those of `GestureOutcome` for the gestures, the held keys and the old stamp. |
| MouseController.HandController.UpdateKeyPresses | arcade_1942_mouse_controller.py:350-368 | The held set becomes the new set. The log is extended only by releases of dropped keys and presses of added ones, the held/log invariant is kept, and an unchanged set sends nothing. |
| MouseController.HandController.Frame | arcade_1942_mouse_controller.py:589-612 | Without a hand the previous pointer is forgotten, every key is released and the player stays put. With a hand the pointer is recorded, each axis of the player is `Moved` by the `FrameMovement` of the pointer, the held keys are the arrows of the new position plus the `GestureOutcome` keys, and the stamp is renewed exactly when Z, Enter or Ctrl is held. Only the eight game keys are ever held, the log gains only releases of dropped keys and presses of added ones, and a pulse key is never held in two frames in a row. |
| MouseController.HandController.HandFrame | arcade_1942_mouse_controller.py:591-606 | A frame with a hand: the pointer joins the history, each axis of the player is `Moved` by the `FrameMovement` of the pointer, the held keys become the arrows of the new position plus the `GestureOutcome` keys, the stamp is the one `GestureOutcome` leaves, and the log gains only releases of dropped keys and presses of added ones. |
| MouseController.HandController.MovePlayer | arcade_1942_mouse_controller.py:594-598 | The movement half of a frame: the pointer joins the history, each axis of the player is `Moved` by the `FrameMovement` of the pointer, and the arrow keys are those of the new position. |
| MouseController.HandController.ReleaseResources | arcade_1942_mouse_controller.py:107-116 | Every key believed held gets a keyUp and nothing else is sent. Afterwards no key is held and the log is still clean. |
| MouseController.HandController.AdjustSensitivity | arcade_1942_mouse_controller.py:633-636 | The sensitivity becomes the request clamped to 0.5..5.0, and the invariant holds. |
| MouseController.HandController.AdjustSmoothing | arcade_1942_mouse_controller.py:638-642 | The smoothing factor becomes the request clamped to 0..1, and the invariant holds. |
| BandedController.BandOf | arcade_1942_hand_controller.py:143-154 | Low exactly below 40 % of the axis, high exactly above 60 %, middle in between (inclusive). |
| BandedController.GetHandGesture | arcade_1942_hand_controller.py:98-180 | Centre as the truncated mean keypoint and its two bands. At most five raised fingers, barrel roll exactly at four or more, at most one pulse gesture, and the scale-free reading for a positive height. |
| BandedController.BandKeys | arcade_1942_hand_controller.py:347-365 | Left exactly in the low x band, right exactly in the high one. Up and down likewise, and only arrow keys. |
| BandedController.BelowFraction | arcade_1942_hand_controller.py:143-147 | Comparing `c` with `size·f` is comparing `c/size` with `f`. |
| BandedController.BandsAgreeWithDirectionKeys | arcade_1942_hand_controller.py:143-154 | The banded arrows equal the mouse controller's arrows read at the hand centre as a fraction of the frame. Both controllers use one 0.4 / 0.6 split. |
| BandedController.PulseKeys | arcade_1942_hand_controller.py:373-394 | Z, Enter and Ctrl are added when the gesture is shown and either the key is not held or its cooldown has passed since the timestamp. Each addition renews the stamp, and for a real hand every test sees the old one. |
| BandedController.DesiredKeys | arcade_1942_hand_controller.py:347-394 | The desired set with a hand: the band arrows, X exactly while shooting, and the pulse keys under their rules. The shared stamp is renewed exactly when a pulse key was added. |
| BandedController.BandedController.constructor | arcade_1942_hand_controller.py:301-302 | No key is held and the timestamp is the start time. |
| BandedController.BandedController.Frame | arcade_1942_hand_controller.py:334-423 | Without a hand every key is released. With one the held keys are the band arrows plus the action keys under their rules, and the stamp is renewed exactly when a pulse key is held. Only the eight game keys are ever held, and the log only gains releases of dropped keys and presses of added ones. |
| BandedController.BandedController.MoveKeys | arcade_1942_hand_controller.py:412-421 | The held set becomes the desired set through releases of dropped keys and presses of added ones, keeping the held/log invariant. |
| BandedController.BandedController.Exit | arcade_1942_hand_controller.py:441-443 | Every key still held gets a keyUp and nothing else is sent. Afterwards no key is held. |
| GeometryDash.ToPixels | geometry_dash_hand_controller.py:122-126 | One pixel per keypoint, in order, each scaled by the frame size and the factor 2 and truncated. |
| GeometryDash.FingerFlags | geometry_dash_hand_controller.py:139-155 | Five flags: the thumb's first (tip more than 20 px left of the index base), then index to pinky (tip more than 30 px above its own base). |
| GeometryDash.CountTrue | geometry_dash_hand_controller.py:158 | The number of set flags is at most the number of flags. |
| GeometryDash.CalculateDistanceSquared | geometry_dash_hand_controller.py:172-174 | The squared distance is non-negative, zero exactly for equal pixels, and symmetric. |
| GeometryDash.PinchThreshold | geometry_dash_hand_controller.py:166 | The Euclidean distance is below 30 exactly when its square is below 900. |
| GeometryDash.DetectHandGesture | geometry_dash_hand_controller.py:99-170 | No hand gives no gesture, an open hand and no pixels. Otherwise: the 21 pixels, jump exactly on a thumb-index pinch whatever the other fingers do, and "closed" exactly when at most one finger is raised. |
| GeometryDash.JumpCount | geometry_dash_hand_controller.py:295 | The count of jumps in the history is at most its length. |
| GeometryDash.JumpCountOfThree | geometry_dash_hand_controller.py:295 | The count over a full history is the sum over its three entries. |
| GeometryDash.SingleJumpFrameIgnored | geometry_dash_hand_controller.py:291-295 | A single pinch frame is never acted on: a confirmed jump needs a jump among the two older frames kept. |
| GeometryDash.TwoQuietFramesRelease | geometry_dash_hand_controller.py:295-306 | Two frames in a row without a pinch always end a confirmed jump. |
| GeometryDash.JumpController.constructor | geometry_dash_hand_controller.py:252-254 | Three "none" gestures, the last jump time 0, and space not held. |
| GeometryDash.JumpController.Step | geometry_dash_hand_controller.py:288-306 | The new gesture is shifted into the history. On a confirmed jump, space is pressed (and the time stamped) only if not held and past the debounce. Otherwise a held space is released. Presses and releases strictly alternate. |
| GeometryDash.JumpController.Debounce | geometry_dash_hand_controller.py:295-306 | The key half of a frame: press, release or nothing, exactly as the debounce rules say, keeping the alternation invariant. |
| GeometryDash.JumpController.Exit | geometry_dash_hand_controller.py:341 | A keyUp of space is always sent. Afterwards space is not held, and the release is redundant exactly when space was not held. |
| SubwaySurfers.WristDistanceSquared | subway_surfers_pose_detection.py:116-117 | The squared wrist distance in pixels is non-negative. |
| SubwaySurfers.HandsJoined | subway_surfers_pose_detection.py:107-121 | The wrists are joined exactly when their squared pixel distance is below 180², so wrists on the same spot are always joined. |
| SubwaySurfers.HandsJoinedThreshold | subway_surfers_pose_detection.py:116-121 | The truncated Euclidean wrist distance is below 180 exactly when the squared distance is below 180². |
| SubwaySurfers.LaneOf | subway_surfers_pose_detection.py:185-209 | Left exactly when both shoulders are at or left of the centre line. Right when both are at or right of it, except both on it. Centre exactly when they straddle it the normal way, and no lane exactly when they are crossed. |
| SubwaySurfers.CheckLeftRight | subway_surfers_pose_detection.py:162-208 | The lane rules of `LaneOf` over the truncated x pixels of the two shoulders, with the names swapped as the script swaps them, against the line at `width // 2`. |
| SubwaySurfers.ShoulderMidY | subway_surfers_pose_detection.py:256-262 | The shoulder midpoint `abs(l + r) // 2` is non-negative. |
| SubwaySurfers.PostureOf | subway_surfers_pose_detection.py:265-287 | Jumping exactly more than 15 px above the calibrated height. Crouching exactly more than 100 px below it. Standing exactly in between. |
| SubwaySurfers.CheckJumpCrouch | subway_surfers_pose_detection.py:234-287 | Jumping exactly when the shoulder midpoint is more than 15 px above the calibrated height, crouching exactly when it is more than 100 px below, standing otherwise. |
| SubwaySurfers.CalibrationFrameIsStanding | subway_surfers_pose_detection.py:708-714 | The frame that calibrates the height reads as standing. |
| SubwaySurfers.LaneAfter | subway_surfers_pose_detection.py:641-656 | The lane index stays in 0..2 and moves by at most one per frame. |
| SubwaySurfers.PostureAfter | subway_surfers_pose_detection.py:748-769 | The height index stays in 0..2. Standing returns it to the middle, and outside the middle only standing changes it. |
| SubwaySurfers.NextCounter | subway_surfers_pose_detection.py:688-739 | The joined-frame counter stays below ten. |
| SubwaySurfers.CounterAfter | subway_surfers_pose_detection.py:688-739 | The counter after any frames stays below ten. |
| SubwaySurfers.CounterIsJoinedRun | subway_surfers_pose_detection.py:688-739 | The counter is the length of the current run of joined frames modulo ten: the action fires on the 10th, 20th, … joined frame in a row. |
| SubwaySurfers.Session.constructor | subway_surfers_pose_detection.py:589-593 | Not started, both indices in the middle, no calibrated height, counter zero. |
| SubwaySurfers.Session.Step | subway_surfers_pose_detection.py:629-775 | Once started, the lane changes and is tapped. The counter counts joined frames; on the tenth the game starts with a click and a calibration, or space is tapped. With a non-zero calibrated height the posture moves the height index and taps. Without a body only the counter resets. |
| SubwaySurfers.Session.ChangeLane | subway_surfers_pose_detection.py:635-656 | The lane index moves as `LaneAfter` says, with one tap of the matching arrow for each move. |
| SubwaySurfers.Session.CountJoined | subway_surfers_pose_detection.py:688-739 | The counter advances or resets. On the tenth joined frame the game starts (calibrating the height, clicking the window) or space is tapped. |
| SubwaySurfers.Session.ChangePosture | subway_surfers_pose_detection.py:742-769 | The height index moves as `PostureAfter` says. Up or down is tapped only when leaving the middle. |
| SubwaySurfers.Session.HoldsNoKey | subway_surfers_pose_detection.py:641-656 | A valid session, whose log holds only taps and clicks, leaves no key held and has no redundant event. |
| BarrelRollTest.DetectBarrelRollGesture | test_barrel_roll.py:25-69 | The flags are each finger against its own base joint. It is a barrel roll exactly when the index is the one and only raised finger. |
| BarrelRollTest.IndexOnlyIsShootingNotBarrelRoll | test_barrel_roll.py:52-57 | The test's barrel-roll shape reads as a shot in the arcade gesture table, never as its barrel roll, start or select. |
| BarrelRollTest.Announcer.constructor | test_barrel_roll.py:86 | No announcement yet and the timestamp 0. |
| BarrelRollTest.Announcer.Frame | test_barrel_roll.py:131-140 | A barrel roll is announced (and stamped) only when more than 0.5 s have passed since the last announcement. Consecutive announcements are always more than 0.5 s apart. |

## Left out

- Camera capture, MediaPipe hand and pose detection, OpenCV drawing and windows, FPS display and
  printed messages: these are I/O. The detector is replaced by its output and time by a parameter.
- The menu, the help text, argument parsing, the detection-test modes, `camera_detector.py`,
  `game_menu.py` and `verify_controller.py` are not part of this model.
- Floating point: coordinates, times and movements are exact reals, so rounding in `np.mean`,
  the scaling and the time differences is not modelled.
- More than one hand per frame: every script asks the detector for at most one hand, so a frame
  holds one hand or none.
- MouseController.HandController: the smoothing factor is a module-wide global in the script that
  `adjust_smoothing` rewrites for every controller. Here it is one field per controller.
- MouseController.HandController.ReleaseResources: the camera release and window teardown are not
  modelled. Like the script, the held set is not cleared after the drain.
- MouseController.HandController.Frame: the display of the interface and the ESC test are left
  out. The exception handler runs the same drain as the normal exit, which is `ReleaseResources`.
- BandedController.BandedController.Frame: the wrist pixel that `get_hand_gesture` computes is
  never used afterwards, so it is not modelled. The wrist keypoint itself feeds the thumb test,
  which is modelled.
- BandedController.BandedController.Exit: on an exception the banded script skips this drain and
  leaves keys held. Only the normal exit is modelled.
- SubwaySurfers.Session.Step: the game has no key drain at exit (it only taps keys), and the pause
  gesture is just a space tap. The animated instruction counter is display only.
- GeometryDash.DetectHandGesture: the image down-scaling before detection is represented only by
  the factor 2 in the pixel conversion.
- BarrelRollTest.Announcer.Frame: an announcement is the printed and drawn message, modelled as
  the time appended to a list.
