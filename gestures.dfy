/**
 * Rule-based gesture detection over one frame of hand landmarks
 * (gesture_engine.py). Every detector except the scroll detector is a
 * pure function of the landmark list; the scroll detector carries one
 * anchor value across frames, held by the GestureEngine class.
 */
module Gestures {
  import opened Optional
  import opened RealArith

  /** One hand keypoint in camera pixels: (id, x, y). */
  datatype Landmark = Landmark(id: int, x: int, y: int)

  /** The landmarks of one frame: 21 for a detected hand, empty for none. */
  type Hand = seq<Landmark>

  const LANDMARK_COUNT: nat := 21
  /** Distance in pixels below which two fingertips count as pinched. */
  const PINCH_THRESHOLD: int := 40

  // Keypoint indices.
  const THUMB_MCP: nat := 2
  const THUMB_IP: nat := 3
  const THUMB_TIP: nat := 4
  const INDEX_PIP: nat := 6
  const INDEX_TIP: nat := 8
  const MIDDLE_PIP: nat := 10
  const MIDDLE_TIP: nat := 12
  const RING_PIP: nat := 14
  const RING_TIP: nat := 16
  const PINKY_PIP: nat := 18
  const PINKY_TIP: nat := 20

  /** A list with fewer than 21 landmarks is treated as no hand by every detector. */
  predicate Complete(lm: Hand)
  {
    |lm| >= LANDMARK_COUNT
  }

  function Abs(n: int): (r: int)
    ensures r >= 0 && (r == n || r == -n)
  {
    if n < 0 then -n else n
  }

  /**
   * Squared Euclidean distance between two landmarks; the id field plays
   * no part. Comparing it with the squared threshold replaces the
   * square root of the source.
   */
  function SqDistance(p: Landmark, q: Landmark): (d: int)
    ensures d >= 0
    ensures d == 0 <==> p.x == q.x && p.y == q.y
  {
    var dx, dy := p.x - q.x, p.y - q.y;
    assert dx * dx >= 0 && dy * dy >= 0;
    assert dx != 0 ==> dx * dx > 0;
    assert dy != 0 ==> dy * dy > 0;
    dx * dx + dy * dy
  }

  /** A finger is extended when its tip is above (smaller y than) its PIP joint. */
  predicate IsFingerExtended(lm: Hand, tip: nat, pip: nat)
    requires tip < |lm| && pip < |lm|
  {
    lm[tip].y < lm[pip].y
  }

  /** The thumb moves sideways: its tip must be farther from the MCP joint horizontally than its IP joint. */
  predicate IsThumbExtended(lm: Hand)
    requires |lm| > THUMB_TIP
  {
    Abs(lm[THUMB_TIP].x - lm[THUMB_MCP].x) > Abs(lm[THUMB_IP].x - lm[THUMB_MCP].x)
  }

  /** Extension flags in the order [thumb, index, middle, ring, pinky]. */
  function ExtendedFingers(lm: Hand): (f: seq<bool>)
    ensures |f| == 5
  {
    if |lm| < LANDMARK_COUNT then [false, false, false, false, false]
    else [
      IsThumbExtended(lm),
      IsFingerExtended(lm, INDEX_TIP, INDEX_PIP),
      IsFingerExtended(lm, MIDDLE_TIP, MIDDLE_PIP),
      IsFingerExtended(lm, RING_TIP, RING_PIP),
      IsFingerExtended(lm, PINKY_TIP, PINKY_PIP)
    ]
  }

  /** A pinch detector's answer: whether it holds, and the squared tip distance. */
  datatype PinchReading = PinchReading(pinching: bool, sqDist: int)

  /** The default answer, `(False, 0.0)` in the source. */
  const NO_PINCH := PinchReading(false, 0)

  function PinchBetween(p: Landmark, q: Landmark): PinchReading
  {
    var d := SqDistance(p, q);
    PinchReading(d < PINCH_THRESHOLD * PINCH_THRESHOLD, d)
  }

  /** Thumb tip touches index tip; no extension guard. */
  function ThumbIndexPinch(lm: Hand): PinchReading
  {
    if |lm| < LANDMARK_COUNT then NO_PINCH
    else PinchBetween(lm[THUMB_TIP], lm[INDEX_TIP])
  }

  /** Index tip touches middle tip, both fingers extended. */
  function IndexMiddlePinch(lm: Hand): PinchReading
  {
    if |lm| < LANDMARK_COUNT then NO_PINCH
    else if !(IsFingerExtended(lm, INDEX_TIP, INDEX_PIP) && IsFingerExtended(lm, MIDDLE_TIP, MIDDLE_PIP)) then NO_PINCH
    else PinchBetween(lm[INDEX_TIP], lm[MIDDLE_TIP])
  }

  /** No finger extended. */
  predicate DetectClosedFist(lm: Hand)
  {
    if |lm| < LANDMARK_COUNT then false
    else
      var f := ExtendedFingers(lm);
      !(f[0] || f[1] || f[2] || f[3] || f[4])
  }

  /** Index, middle and ring extended; thumb and pinky curled. */
  predicate DetectThreeFingerRaise(lm: Hand)
  {
    if |lm| < LANDMARK_COUNT then false
    else
      var f := ExtendedFingers(lm);
      !f[0] && f[1] && f[2] && f[3] && !f[4]
  }

  /** The scroll pose: index and middle extended, the other three curled. */
  predicate TwoFingersUp(lm: Hand)
  {
    Complete(lm) &&
    var f := ExtendedFingers(lm);
    !f[0] && f[1] && f[2] && !f[3] && !f[4]
  }

  /** Average y of the index and middle tips. */
  function AverageTipY(lm: Hand): real
    requires Complete(lm)
  {
    (lm[INDEX_TIP].y + lm[MIDDLE_TIP].y) as real / 2.0
  }

  /** The scroll detector's answer and the anchor it leaves behind. */
  datatype ScrollReading = ScrollReading(scrolling: bool, delta: real, anchor: Option<real>)

  /** One call of the scroll detector, given the anchor left by the previous call. */
  function ScrollStep(anchor: Option<real>, lm: Hand): ScrollReading
  {
    if |lm| < LANDMARK_COUNT then ScrollReading(false, 0.0, None)
    else if !TwoFingersUp(lm) then ScrollReading(false, 0.0, None)
    else
      var avg := AverageTipY(lm);
      if anchor.None? then ScrollReading(true, 0.0, Some(avg))
      else ScrollReading(true, avg - anchor.value, Some(avg))
  }

  function IndexFingerTip(lm: Hand): (r: Option<Landmark>)
    ensures r.Some? <==> Complete(lm)
    ensures r.Some? ==> r.value == lm[INDEX_TIP]
  {
    if |lm| < LANDMARK_COUNT then None else Some(lm[INDEX_TIP])
  }

  /** Holder of the scroll anchor (`prev_scroll_y`). */
  class GestureEngine {
    var prevScrollY: Option<real>

    constructor ()
      ensures prevScrollY == None
    {
      prevScrollY := None;
    }

    method DetectScroll(lm: Hand) returns (scrolling: bool, delta: real)
      modifies this
      ensures ScrollReading(scrolling, delta, prevScrollY) == ScrollStep(old(prevScrollY), lm)
    {
      if |lm| < LANDMARK_COUNT {
        prevScrollY := None;
        return false, 0.0;
      }
      var fingers := ExtendedFingers(lm);
      var twoUp := !fingers[0] && fingers[1] && fingers[2] && !fingers[3] && !fingers[4];
      if !twoUp {
        prevScrollY := None;
        return false, 0.0;
      }
      var avgY := (lm[INDEX_TIP].y + lm[MIDDLE_TIP].y) as real / 2.0;
      if prevScrollY.None? {
        prevScrollY := Some(avgY);
        return true, 0.0;
      }
      delta := avgY - prevScrollY.value;
      prevScrollY := Some(avgY);
      scrolling := true;
    }
  }

  // ---------------------------------------------------------------
  // Properties of the detectors
  // ---------------------------------------------------------------

  /** Fewer than 21 landmarks: every detector gives its negative or default answer. */
  lemma IncompleteHandDefaults(lm: Hand, anchor: Option<real>)
    requires !Complete(lm)
    ensures ExtendedFingers(lm) == [false, false, false, false, false]
    ensures !DetectClosedFist(lm) && !DetectThreeFingerRaise(lm)
    ensures ThumbIndexPinch(lm) == NO_PINCH && IndexMiddlePinch(lm) == NO_PINCH
    ensures ScrollStep(anchor, lm) == ScrollReading(false, 0.0, None)
    ensures IndexFingerTip(lm) == None
  {
  }

  /** Finger k (1 = index .. 4 = pinky) is extended iff its tip 4k+4 lies strictly above its PIP 4k+2. */
  lemma FingerExtensionRule(lm: Hand, k: nat)
    requires Complete(lm) && 1 <= k < 5
    ensures ExtendedFingers(lm)[k] <==> lm[4 * k + 4].y < lm[4 * k + 2].y
  {
  }

  /** The thumb test is lateral: |x4 - x2| > |x3 - x2|, ignoring every y. */
  lemma ThumbExtensionRule(lm: Hand)
    requires Complete(lm)
    ensures ExtendedFingers(lm)[0] <==>
      (lm[4].x - lm[2].x) * (lm[4].x - lm[2].x) > (lm[3].x - lm[2].x) * (lm[3].x - lm[2].x)
  {
    var a, b := lm[4].x - lm[2].x, lm[3].x - lm[2].x;
    if Abs(b) < Abs(a) {
      SquareMonotone(Abs(a), Abs(b));
    } else if Abs(a) < Abs(b) {
      SquareMonotone(Abs(b), Abs(a));
    }
    assert Abs(a) * Abs(a) == a * a;
    assert Abs(b) * Abs(b) == b * b;
  }

  lemma SquareMonotone(a: int, b: int)
    requires 0 <= b < a
    ensures b * b < a * a
  {
    assert b * b <= b * a;
    assert b * a < a * a;
  }

  lemma RealSquareBelow(d: real, t: real)
    requires d >= 0.0 && t > 0.0
    ensures d < t <==> d * d < t * t
  {
    assert t * t - d * d == (t - d) * (t + d);
    if d < t {
      PositiveProduct(t - d, t + d);
    } else {
      NonNegativeProduct(d - t, d + t);
    }
  }

  /**
   * The thumb-index pinch holds iff the Euclidean distance between
   * landmarks 4 and 8 is strictly below 40, for `dist` the non-negative
   * square root of their squared distance.
   */
  lemma ThumbIndexPinchIffCloser(lm: Hand, dist: real)
    requires Complete(lm)
    requires dist >= 0.0 && dist * dist == SqDistance(lm[THUMB_TIP], lm[INDEX_TIP]) as real
    ensures ThumbIndexPinch(lm).pinching <==> dist < PINCH_THRESHOLD as real
  {
    RealSquareBelow(dist, 40.0);
  }

  /** Tips exactly 40 pixels apart do not pinch. */
  lemma PinchThresholdIsStrict(lm: Hand)
    requires Complete(lm)
    requires SqDistance(lm[THUMB_TIP], lm[INDEX_TIP]) == PINCH_THRESHOLD * PINCH_THRESHOLD
    ensures !ThumbIndexPinch(lm).pinching
  {
  }

  /**
   * The index-middle pinch answers the default unless index (8 over 6)
   * and middle (12 over 10) are both extended; then it holds iff the
   * index and middle tips are closer than 40 pixels.
   */
  lemma IndexMiddlePinchRule(lm: Hand, dist: real)
    requires Complete(lm)
    requires dist >= 0.0 && dist * dist == SqDistance(lm[INDEX_TIP], lm[MIDDLE_TIP]) as real
    ensures !(ExtendedFingers(lm)[1] && ExtendedFingers(lm)[2]) ==> IndexMiddlePinch(lm) == NO_PINCH
    ensures ExtendedFingers(lm)[1] && ExtendedFingers(lm)[2] ==>
      (IndexMiddlePinch(lm).pinching <==> dist < PINCH_THRESHOLD as real)
  {
    RealSquareBelow(dist, 40.0);
  }

  /** Only positions matter: two hands that differ in landmark ids get the same answers. */
  lemma IdsAreIgnored(lm: Hand, other: Hand, anchor: Option<real>)
    requires |lm| == |other|
    requires forall k :: 0 <= k < |lm| ==> lm[k].x == other[k].x && lm[k].y == other[k].y
    ensures ExtendedFingers(lm) == ExtendedFingers(other)
    ensures ThumbIndexPinch(lm) == ThumbIndexPinch(other)
    ensures IndexMiddlePinch(lm) == IndexMiddlePinch(other)
    ensures DetectClosedFist(lm) == DetectClosedFist(other)
    ensures DetectThreeFingerRaise(lm) == DetectThreeFingerRaise(other)
    ensures ScrollStep(anchor, lm) == ScrollStep(anchor, other)
  {
    if Complete(lm) {
      assert ExtendedFingers(lm) == ExtendedFingers(other);
      assert SqDistance(lm[4], lm[8]) == SqDistance(other[4], other[8]);
      assert SqDistance(lm[8], lm[12]) == SqDistance(other[8], other[12]);
    }
  }

  /** The fist is exactly the all-curled pattern. */
  lemma FistIsAllCurled(lm: Hand)
    ensures DetectClosedFist(lm) <==> Complete(lm) && ExtendedFingers(lm) == [false, false, false, false, false]
  {
  }

  /** The three-finger raise is exactly the pattern [F, T, T, T, F]. */
  lemma ThreeFingerPattern(lm: Hand)
    ensures DetectThreeFingerRaise(lm) <==> Complete(lm) && ExtendedFingers(lm) == [false, true, true, true, false]
  {
  }

  /** No frame is both a fist and a three-finger raise, nor a fist and a scroll pose. */
  lemma PosesAreExclusive(lm: Hand)
    ensures !(DetectClosedFist(lm) && DetectThreeFingerRaise(lm))
    ensures !(DetectClosedFist(lm) && TwoFingersUp(lm))
    ensures !(DetectThreeFingerRaise(lm) && TwoFingersUp(lm))
  {
  }

  /** First qualifying frame: answer (True, 0) and anchor at the average tip height. */
  lemma ScrollFirstFrame(lm: Hand)
    requires TwoFingersUp(lm)
    ensures ScrollStep(None, lm) == ScrollReading(true, 0.0, Some(AverageTipY(lm)))
  {
  }

  /** Later qualifying frames report the movement since the previous frame. */
  lemma ScrollLaterFrame(lm: Hand, a: real)
    requires TwoFingersUp(lm)
    ensures ScrollStep(Some(a), lm) == ScrollReading(true, AverageTipY(lm) - a, Some(AverageTipY(lm)))
  {
  }

  /** A broken pose clears the anchor, so a resumed scroll starts again at delta 0. */
  lemma ScrollResumesAtZero(anchor: Option<real>, broken: Hand, resumed: Hand)
    requires !TwoFingersUp(broken)
    ensures ScrollStep(anchor, broken) == ScrollReading(false, 0.0, None)
    ensures ScrollStep(ScrollStep(anchor, broken).anchor, resumed).delta == 0.0
  {
  }

  /** The deltas reported over consecutive frames, starting from an anchor. */
  function ScrollDeltas(anchor: Option<real>, frames: seq<Hand>): (ds: seq<real>)
    ensures |ds| == |frames|
    decreases |frames|
  {
    if frames == [] then []
    else
      var r := ScrollStep(anchor, frames[0]);
      [r.delta] + ScrollDeltas(r.anchor, frames[1..])
  }

  function Sum(xs: seq<real>): real
  {
    if xs == [] then 0.0 else xs[0] + Sum(xs[1..])
  }

  lemma {:induction false} ScrollDeltasFromAnchor(a: real, frames: seq<Hand>)
    requires |frames| > 0
    requires forall i :: 0 <= i < |frames| ==> Complete(frames[i]) && TwoFingersUp(frames[i])
    ensures Sum(ScrollDeltas(Some(a), frames)) == AverageTipY(frames[|frames| - 1]) - a
    decreases |frames|
  {
    var avg := AverageTipY(frames[0]);
    assert ScrollStep(Some(a), frames[0]) == ScrollReading(true, avg - a, Some(avg));
    if |frames| > 1 {
      ScrollDeltasFromAnchor(avg, frames[1..]);
    }
  }

  /**
   * Over a run of qualifying frames the reported deltas sum to the last
   * average tip height minus the first.
   */
  lemma {:induction false} ScrollRunTelescopes(frames: seq<Hand>)
    requires |frames| > 0
    requires forall i :: 0 <= i < |frames| ==> Complete(frames[i]) && TwoFingersUp(frames[i])
    ensures Sum(ScrollDeltas(None, frames)) == AverageTipY(frames[|frames| - 1]) - AverageTipY(frames[0])
  {
    var avg := AverageTipY(frames[0]);
    assert ScrollStep(None, frames[0]) == ScrollReading(true, 0.0, Some(avg));
    if |frames| > 1 {
      ScrollDeltasFromAnchor(avg, frames[1..]);
    }
  }
}
