/**
 * The finger-extension test and gesture table shared, line for line, by the
 * two arcade controllers: every finger is judged against the middle-finger
 * base joint, the thumb against the wrist, and four gestures are read off the
 * five flags.
 */
module FingerGestures {
  import opened Landmarks

  datatype Fingers = Fingers(thumb: bool, index: bool, middle: bool, ring: bool, pinky: bool)

  /** `sum([thumb, index, middle, ring, pinky])`. */
  function ExtendedCount(f: Fingers): (n: nat)
    ensures n <= 5
    ensures n == 0 <==> !f.thumb && !f.index && !f.middle && !f.ring && !f.pinky
    ensures n == 5 <==> f.thumb && f.index && f.middle && f.ring && f.pinky
  {
    (if f.thumb then 1 else 0) + (if f.index then 1 else 0) + (if f.middle then 1 else 0)
    + (if f.ring then 1 else 0) + (if f.pinky then 1 else 0)
  }

  /**
   * The reference reading of a hand: a finger is extended when its tip lies
   * above (has a smaller normalized y than) the middle-finger base joint; the
   * thumb when its tip lies above the wrist.
   */
  function HandFingers(hand: Hand): Fingers
  {
    var mcpY := hand[MIDDLE_MCP].y;
    Fingers(hand[THUMB_TIP].y < hand[WRIST].y, hand[INDEX_TIP].y < mcpY,
            hand[MIDDLE_TIP].y < mcpY, hand[RING_TIP].y < mcpY, hand[PINKY_TIP].y < mcpY)
  }

  /**
   * The finger flags as the controllers compute them, with both sides of
   * every comparison scaled to pixels of a frame `height` pixels tall. For
   * any real frame the scaling cancels and the flags are the reference ones.
   */
  function MiddleMcpFingers(hand: Hand, height: int): (f: Fingers)
    ensures 0 < height ==> f == HandFingers(hand)
  {
    var h := height as real;
    var middleMcpY := hand[MIDDLE_MCP].y * h;
    var f := Fingers(hand[THUMB_TIP].y * h < hand[WRIST].y * h,
                     hand[INDEX_TIP].y * h < middleMcpY,
                     hand[MIDDLE_TIP].y * h < middleMcpY,
                     hand[RING_TIP].y * h < middleMcpY,
                     hand[PINKY_TIP].y * h < middleMcpY);
    if 0 < height then
      ScaledBelow(hand[THUMB_TIP].y, hand[WRIST].y, h);
      ScaledBelow(hand[INDEX_TIP].y, hand[MIDDLE_MCP].y, h);
      ScaledBelow(hand[MIDDLE_TIP].y, hand[MIDDLE_MCP].y, h);
      ScaledBelow(hand[RING_TIP].y, hand[MIDDLE_MCP].y, h);
      ScaledBelow(hand[PINKY_TIP].y, hand[MIDDLE_MCP].y, h);
      f
    else
      f
  }

  /** Scaling both sides by a positive height keeps a strict comparison. */
  lemma ScaledBelow(a: real, b: real, h: real)
    requires 0.0 < h
    ensures a * h < b * h <==> a < b
  {
    assert b * h - a * h == (b - a) * h;
    if a < b {
      ProductPositive(b - a, h);
    } else {
      ProductNonnegative(a - b, h);
      assert a * h - b * h == (a - b) * h;
    }
  }

  datatype Gestures = Gestures(shooting: bool, barrelRoll: bool, start: bool, select: bool)

  /**
   * The gesture table: shoot (index up, middle/ring/pinky down, thumb free),
   * barrel roll (at least four fingers up), start (thumb and pinky only) and
   * select (thumb and index only). The table is not first-match-wins: several
   * flags may hold at once, and the contract says which combinations can.
   */
  function Recognize(f: Fingers): (g: Gestures)
    ensures g.barrelRoll <==> ExtendedCount(f) >= 4
    ensures g.shooting ==> f.index && !g.barrelRoll && !g.start
    ensures g.start ==> f.thumb && f.pinky && !g.barrelRoll && !g.select
    ensures g.select ==> g.shooting && f.thumb && !g.barrelRoll
    ensures g.shooting && f.thumb ==> g.select
  {
    Gestures(
      shooting := f.index && !f.middle && !f.ring && !f.pinky,
      barrelRoll := ExtendedCount(f) >= 4,
      start := f.thumb && f.pinky && !f.index && !f.middle && !f.ring,
      select := f.thumb && f.index && !f.middle && !f.ring && !f.pinky)
  }

  /** No two of the pulse gestures (barrel roll, start, select) hold together. */
  predicate PulsesExclusive(g: Gestures)
  {
    !(g.barrelRoll && g.start) && !(g.barrelRoll && g.select) && !(g.start && g.select)
  }

  /**
   * At most one of the three pulse gestures (barrel roll, start, select) is
   * recognized in a frame, so the order in which the controllers test them
   * never matters.
   */
  lemma AtMostOnePulse(f: Fingers)
    ensures var g := Recognize(f);
      (if g.barrelRoll then 1 else 0) + (if g.start then 1 else 0) + (if g.select then 1 else 0) <= 1
    ensures PulsesExclusive(Recognize(f))
  {
  }

  /**
   * The barrel-roll threshold: three raised fingers are not enough, four
   * are; with the thumb folded a barrel roll needs all four fingers up.
   */
  lemma {:induction false} BarrelRollThreshold(f: Fingers)
    ensures ExtendedCount(f) <= 3 ==> !Recognize(f).barrelRoll
    ensures ExtendedCount(f) >= 4 ==> Recognize(f).barrelRoll
    ensures Recognize(f).barrelRoll && !f.thumb ==> f.index && f.middle && f.ring && f.pinky
  {
  }
}
