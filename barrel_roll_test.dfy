/**
 * The stand-alone barrel-roll detector: every finger is judged against its
 * own base joint (the thumb sideways, by the side of the wrist it lies on),
 * a "barrel roll" is the index finger alone, and a detection is announced at
 * most once every half second.
 */
module BarrelRollTest {
  import opened Landmarks
  import opened FingerGestures

  const ANNOUNCE_COOLDOWN: real := 0.5

  /** The flags and the verdict `detect_barrel_roll_gesture` returns. */
  datatype BarrelRollGesture = BarrelRollGesture(isBarrelRoll: bool, fingers: Fingers)

  /**
   * The thumb test: with the tip to the right of the wrist the thumb is
   * extended when the tip is right of the thumb base, otherwise when it is
   * left of it.
   */
  predicate ThumbExtended(hand: Hand)
  {
    if hand[THUMB_TIP].x > hand[WRIST].x then hand[THUMB_TIP].x > hand[THUMB_MCP].x
    else hand[THUMB_TIP].x < hand[THUMB_MCP].x
  }

  /** The five flags, each finger against its own base joint. */
  function OwnJointFingers(hand: Hand): Fingers
  {
    Fingers(ThumbExtended(hand),
            hand[INDEX_TIP].y < hand[INDEX_MCP].y,
            hand[MIDDLE_TIP].y < hand[MIDDLE_MCP].y,
            hand[RING_TIP].y < hand[RING_MCP].y,
            hand[PINKY_TIP].y < hand[PINKY_MCP].y)
  }

  /**
   * `detect_barrel_roll_gesture`: the flags, and a barrel roll exactly when
   * the index finger is the one and only finger extended.
   */
  function DetectBarrelRollGesture(hand: Hand): (r: BarrelRollGesture)
    ensures r.fingers == OwnJointFingers(hand)
    ensures r.isBarrelRoll <==> r.fingers.index && ExtendedCount(r.fingers) == 1
    ensures r.isBarrelRoll ==> r.fingers.index && !r.fingers.thumb
  {
    var f := OwnJointFingers(hand);
    BarrelRollGesture(f.index && !f.thumb && !f.middle && !f.ring && !f.pinky, f)
  }

  /**
   * The test's "barrel roll" hand shape is, read by the arcade controllers'
   * gesture table, a shot and never their barrel roll (which needs four
   * raised fingers), nor a start or a select.
   */
  lemma {:induction false} IndexOnlyIsShootingNotBarrelRoll(f: Fingers)
    requires f.index && ExtendedCount(f) == 1
    ensures Recognize(f).shooting
    ensures !Recognize(f).barrelRoll && !Recognize(f).start && !Recognize(f).select
  {
    assert !f.thumb && !f.middle && !f.ring && !f.pinky;
  }

  class Announcer {
    var lastBarrelTime: real
    /** The times at which a barrel roll was announced, oldest first. */
    var announcements: seq<real>

    /**
     * The timestamp is that of the latest announcement (zero before any),
     * and any two consecutive announcements are more than the cooldown apart.
     */
    ghost predicate Valid()
      reads this
    {
      && (announcements == [] ==> lastBarrelTime == 0.0)
      && (announcements != [] ==> lastBarrelTime == announcements[|announcements| - 1])
      && forall i | 0 < i < |announcements| :: announcements[i] - announcements[i - 1] > ANNOUNCE_COOLDOWN
    }

    /** The state `main` sets up before its loop. */
    constructor ()
      ensures Valid()
      ensures lastBarrelTime == 0.0 && announcements == []
    {
      lastBarrelTime := 0.0;
      announcements := [];
    }

    /**
     * One frame: a detected barrel roll is announced, and the time stamped,
     * only when more than the cooldown has passed since the last stamp;
     * otherwise nothing changes.
     */
    method Frame(hand: Option<Hand>, now: real)
      requires Valid()
      modifies this
      ensures Valid()
      ensures var announce := hand.Some? && DetectBarrelRollGesture(hand.value).isBarrelRoll &&
                              now - old(lastBarrelTime) > ANNOUNCE_COOLDOWN;
        && announcements == old(announcements) + (if announce then [now] else [])
        && lastBarrelTime == (if announce then now else old(lastBarrelTime))
    {
      if hand.Some? {
        var gesture := DetectBarrelRollGesture(hand.value);
        if gesture.isBarrelRoll {
          if now - lastBarrelTime > ANNOUNCE_COOLDOWN {
            announcements := announcements + [now];
            lastBarrelTime := now;
          }
        }
      }
    }
  }
}
