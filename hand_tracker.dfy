/**
 * The gesture computation of the hand tracker (components/HandTracker.tsx,
 * inside `predictWebcam`): per-frame hand landmarks in, one
 * `HandGestureState` out. The detector, the camera and the frame loop are
 * not part of this model; the landmark list is an input.
 */
module HandTracker {
  import opened Maths
  import opened Types

  /** One tracked point of a hand; x and y are normalised, z is relative depth. */
  datatype Landmark = Landmark(x: real, y: real, z: real)

  /** The landmarks of one detected hand, in the detector's fixed order. */
  type Hand = seq<Landmark>

  const WRIST: nat := 0
  const THUMB_TIP: nat := 4
  const INDEX_TIP: nat := 8
  const MIDDLE_MCP: nat := 9

  /** `handDistance` when the frame does not hold exactly two hands. */
  const IDLE_HAND_DISTANCE: real := 0.5

  /** The state emitted when no hand is seen. */
  const IDLE_GESTURE: HandGestureState := HandGestureState(0.0, IDLE_HAND_DISTANCE, 0)

  /** `Math.hypot` of the x and y differences: depth never enters a distance. */
  function PlanarDistance(hypot: Hypot, p: Landmark, q: Landmark): real
  {
    hypot(p.x - q.x, p.y - q.y)
  }

  /** The hand has the four landmarks the computation reads. */
  predicate HasKeyLandmarks(h: Hand)
  {
    |h| > MIDDLE_MCP
  }

  /** Palm scale: wrist to the middle finger's knuckle. */
  function PalmSize(hypot: Hypot, h: Hand): real
    requires HasKeyLandmarks(h)
  {
    PlanarDistance(hypot, h[MIDDLE_MCP], h[WRIST])
  }

  /** Thumb tip to index tip. */
  function PinchDistance(hypot: Hypot, h: Hand): real
    requires HasKeyLandmarks(h)
  {
    PlanarDistance(hypot, h[THUMB_TIP], h[INDEX_TIP])
  }

  /** The code divides by the palm size without a guard, so it must be positive. */
  predicate Measurable(hypot: Hypot, h: Hand)
  {
    HasKeyLandmarks(h) && PalmSize(hypot, h) > 0.0
  }

  predicate AllMeasurable(hypot: Hypot, hands: seq<Hand>)
  {
    forall i :: 0 <= i < |hands| ==> Measurable(hypot, hands[i])
  }

  /** What the detector may return: no landmark list, or a list of measurable hands. */
  predicate ValidDetection(hypot: Hypot, landmarks: Option<seq<Hand>>)
  {
    landmarks.Some? ==> AllMeasurable(hypot, landmarks.value)
  }

  /** The number of landmark sets returned (0 when the list is missing). */
  function HandCount(landmarks: Option<seq<Hand>>): nat
  {
    if landmarks.Some? then |landmarks.value| else 0
  }

  /** How open the hand is, from the palm-normalised pinch distance. */
  function OpenFactor(ratio: real): (r: real)
    ensures 0.0 <= r <= 2.0
    ensures ratio <= 0.1 ==> r == 0.0
    ensures ratio >= 1.1 ==> r == 2.0
  {
    Clamp(ratio - 0.1, 0.0, 1.0) * 2.0
  }

  /** Per-hand tension: 1 for a closed pinch, down to -1 for a wide-open hand. */
  function TensionOfRatio(ratio: real): (r: real)
    ensures -1.0 <= r <= 1.0
    ensures ratio <= 0.1 ==> r == 1.0
    ensures ratio >= 0.6 ==> r <= 0.0
  {
    1.0 - OpenFactor(ratio)
  }

  function HandTension(hypot: Hypot, h: Hand): real
    requires Measurable(hypot, h)
  {
    TensionOfRatio(PinchDistance(hypot, h) / PalmSize(hypot, h))
  }

  /** `totalTension` after the `forEach` has visited `hands`, in order. */
  function TotalTension(hypot: Hypot, hands: seq<Hand>): real
    requires AllMeasurable(hypot, hands)
    decreases |hands|
  {
    if hands == [] then 0.0
    else TotalTension(hypot, hands[..|hands| - 1]) + HandTension(hypot, hands[|hands| - 1])
  }

  /** Distance between the wrists of the first two hands. */
  function WristSpan(hypot: Hypot, hands: seq<Hand>): real
    requires |hands| >= 2 && |hands[0]| > WRIST && |hands[1]| > WRIST
  {
    PlanarDistance(hypot, hands[0][WRIST], hands[1][WRIST])
  }

  /**
   * The gesture state computed from one detector result. It always carries
   * the number of hands seen, unclamped, and a pinch strength within [0, 1];
   * the hand distance is measured only for exactly two hands.
   */
  function Interpret(hypot: Hypot, landmarks: Option<seq<Hand>>): (g: HandGestureState)
    requires ValidDetection(hypot, landmarks)
    ensures g.handsDetected == HandCount(landmarks)
    ensures 0.0 <= g.pinchStrength <= 1.0
    ensures HandCount(landmarks) == 0 ==> g == IDLE_GESTURE
    ensures HandCount(landmarks) == 2 ==> g.handDistance == WristSpan(hypot, landmarks.value)
    ensures HandCount(landmarks) != 2 ==> g.handDistance == IDLE_HAND_DISTANCE
  {
    if HandCount(landmarks) == 0 then IDLE_GESTURE
    else
      var hands := landmarks.value;
      var mean := TotalTension(hypot, hands) / |hands| as real;
      HandGestureState(
        Clamp(mean, 0.0, 1.0),
        if |hands| == 2 then WristSpan(hypot, hands) else IDLE_HAND_DISTANCE,
        |hands|)
  }

  /**
   * The gesture block of `predictWebcam`: mutable locals, a loop that sums
   * the per-hand tensions, then the clamp and the two-hand span.
   */
  method PredictGesture(hypot: Hypot, landmarks: Option<seq<Hand>>) returns (g: HandGestureState)
    requires ValidDetection(hypot, landmarks)
    ensures g == Interpret(hypot, landmarks)
  {
    var pinchStrength := 0.0;
    var handDistance := IDLE_HAND_DISTANCE;
    var handsDetected := 0;

    if landmarks.Some? && |landmarks.value| > 0 {
      var hands := landmarks.value;
      handsDetected := |hands|;

      var totalTension := 0.0;
      for i := 0 to |hands|
        invariant totalTension == TotalTension(hypot, hands[..i])
      {
        var hand := hands[i];
        var palmSize := hypot(hand[MIDDLE_MCP].x - hand[WRIST].x, hand[MIDDLE_MCP].y - hand[WRIST].y);
        var pinchDist := hypot(hand[THUMB_TIP].x - hand[INDEX_TIP].x, hand[THUMB_TIP].y - hand[INDEX_TIP].y);
        var openFactor := Clamp(pinchDist / palmSize - 0.1, 0.0, 1.0) * 2.0;
        assert hands[..i + 1][..i] == hands[..i];
        totalTension := totalTension + (1.0 - openFactor);
      }
      assert hands[..|hands|] == hands;
      pinchStrength := totalTension / handsDetected as real;
      pinchStrength := Clamp(pinchStrength, 0.0, 1.0);

      if |hands| == 2 {
        var hand1Wrist := hands[0][WRIST];
        var hand2Wrist := hands[1][WRIST];
        handDistance := hypot(hand1Wrist.x - hand2Wrist.x, hand1Wrist.y - hand2Wrist.y);
      }
    }
    g := HandGestureState(pinchStrength, handDistance, handsDetected);
  }

  // ---------------------------------------------------------------------
  // Properties of the interpretation

  /** A smaller pinch-to-palm ratio never gives a lower tension. */
  lemma TensionAntitone(ratio1: real, ratio2: real)
    requires ratio1 <= ratio2
    ensures TensionOfRatio(ratio1) >= TensionOfRatio(ratio2)
  {
    ClampMonotone(ratio1 - 0.1, ratio2 - 0.1, 0.0, 1.0);
  }

  /** Sum of a list, first element first: an independent reference for the loop's running total. */
  function Sum(s: seq<real>): real
  {
    if s == [] then 0.0 else s[0] + Sum(s[1..])
  }

  lemma {:induction false} SumSnoc(s: seq<real>, x: real)
    ensures Sum(s + [x]) == Sum(s) + x
  {
    if s != [] {
      assert (s + [x])[1..] == s[1..] + [x];
      SumSnoc(s[1..], x);
    }
  }

  /** The per-hand tensions, one per hand, in order. */
  function Tensions(hypot: Hypot, hands: seq<Hand>): (ts: seq<real>)
    requires AllMeasurable(hypot, hands)
    ensures |ts| == |hands|
    ensures forall i :: 0 <= i < |hands| ==> ts[i] == HandTension(hypot, hands[i])
  {
    seq(|hands|, i requires 0 <= i < |hands| => HandTension(hypot, hands[i]))
  }

  lemma {:induction false} TotalIsSum(hypot: Hypot, hands: seq<Hand>)
    requires AllMeasurable(hypot, hands)
    ensures TotalTension(hypot, hands) == Sum(Tensions(hypot, hands))
    decreases |hands|
  {
    if hands != [] {
      var n := |hands|;
      var init := hands[..n - 1];
      TotalIsSum(hypot, init);
      assert Tensions(hypot, hands) == Tensions(hypot, init) + [HandTension(hypot, hands[n - 1])];
      SumSnoc(Tensions(hypot, init), HandTension(hypot, hands[n - 1]));
    }
  }

  /** The pinch strength is the mean of the per-hand tensions, clamped into [0, 1]. */
  lemma PinchIsClampedMean(hypot: Hypot, hands: seq<Hand>)
    requires |hands| > 0 && AllMeasurable(hypot, hands)
    ensures Interpret(hypot, Some(hands)).pinchStrength
         == Clamp(Sum(Tensions(hypot, hands)) / |hands| as real, 0.0, 1.0)
  {
    TotalIsSum(hypot, hands);
  }

  /** Each hand adds at most 1 and at least -1 to the running total. */
  lemma {:induction false} TotalTensionBounds(hypot: Hypot, hands: seq<Hand>)
    requires AllMeasurable(hypot, hands)
    ensures -(|hands| as real) <= TotalTension(hypot, hands) <= |hands| as real
    decreases |hands|
  {
    if hands != [] {
      TotalTensionBounds(hypot, hands[..|hands| - 1]);
    }
  }

  /** Closed hands: when every hand pinches below a tenth of its palm, the frame reads full tension. */
  lemma {:induction false} AllClosedGivesFullPinch(hypot: Hypot, hands: seq<Hand>)
    requires |hands| > 0 && AllMeasurable(hypot, hands)
    requires forall i :: 0 <= i < |hands| ==>
      PinchDistance(hypot, hands[i]) / PalmSize(hypot, hands[i]) <= 0.1
    ensures Interpret(hypot, Some(hands)).pinchStrength == 1.0
  {
    AllClosedTotal(hypot, hands);
    var n := |hands| as real;
    assert n / n == 1.0;
  }

  lemma {:induction false} AllClosedTotal(hypot: Hypot, hands: seq<Hand>)
    requires AllMeasurable(hypot, hands)
    requires forall i :: 0 <= i < |hands| ==>
      PinchDistance(hypot, hands[i]) / PalmSize(hypot, hands[i]) <= 0.1
    ensures TotalTension(hypot, hands) == |hands| as real
    decreases |hands|
  {
    if hands != [] {
      AllClosedTotal(hypot, hands[..|hands| - 1]);
    }
  }

  /** Open hands: when every hand's pinch reaches 0.6 of its palm, the frame reads zero tension. */
  lemma {:induction false} AllOpenGivesZeroPinch(hypot: Hypot, hands: seq<Hand>)
    requires |hands| > 0 && AllMeasurable(hypot, hands)
    requires forall i :: 0 <= i < |hands| ==>
      PinchDistance(hypot, hands[i]) / PalmSize(hypot, hands[i]) >= 0.6
    ensures Interpret(hypot, Some(hands)).pinchStrength == 0.0
  {
    AllOpenTotal(hypot, hands);
  }

  lemma {:induction false} AllOpenTotal(hypot: Hypot, hands: seq<Hand>)
    requires AllMeasurable(hypot, hands)
    requires forall i :: 0 <= i < |hands| ==>
      PinchDistance(hypot, hands[i]) / PalmSize(hypot, hands[i]) >= 0.6
    ensures TotalTension(hypot, hands) <= 0.0
    decreases |hands|
  {
    if hands != [] {
      AllOpenTotal(hypot, hands[..|hands| - 1]);
    }
  }

  /** Two hands: the span is a true planar distance, non-negative, with dx² + dy² as its square. */
  lemma SpanIsPlanarDistance(hypot: Hypot, hands: seq<Hand>)
    requires IsHypot(hypot) && |hands| == 2 && AllMeasurable(hypot, hands)
    ensures var g := Interpret(hypot, Some(hands));
      var dx := hands[0][WRIST].x - hands[1][WRIST].x;
      var dy := hands[0][WRIST].y - hands[1][WRIST].y;
      g.handDistance >= 0.0 && g.handDistance * g.handDistance == dx * dx + dy * dy
  {
    var dx := hands[0][WRIST].x - hands[1][WRIST].x;
    var dy := hands[0][WRIST].y - hands[1][WRIST].y;
    assert hypot(dx, dy) >= 0.0 && hypot(dx, dy) * hypot(dx, dy) == dx * dx + dy * dy;
  }

  /** Two hands agree on every landmark's x and y; depths may differ. */
  predicate SamePlanar(a: Hand, b: Hand)
  {
    |a| == |b| && forall j :: 0 <= j < |a| ==> a[j].x == b[j].x && a[j].y == b[j].y
  }

  predicate AllSamePlanar(a: seq<Hand>, b: seq<Hand>)
  {
    |a| == |b| && forall i :: 0 <= i < |a| ==> SamePlanar(a[i], b[i])
  }

  lemma {:induction false} TotalTensionIgnoresDepth(hypot: Hypot, a: seq<Hand>, b: seq<Hand>)
    requires AllMeasurable(hypot, a) && AllSamePlanar(a, b)
    ensures AllMeasurable(hypot, b)
    ensures TotalTension(hypot, a) == TotalTension(hypot, b)
    decreases |a|
  {
    if a != [] {
      var n := |a|;
      TotalTensionIgnoresDepth(hypot, a[..n - 1], b[..n - 1]);
      HandTensionIgnoresDepth(hypot, a[n - 1], b[n - 1]);
    }
  }

  lemma HandTensionIgnoresDepth(hypot: Hypot, a: Hand, b: Hand)
    requires Measurable(hypot, a) && SamePlanar(a, b)
    ensures Measurable(hypot, b)
    ensures HandTension(hypot, a) == HandTension(hypot, b)
  {
    assert a[WRIST].x == b[WRIST].x && a[WRIST].y == b[WRIST].y;
    assert a[THUMB_TIP].x == b[THUMB_TIP].x && a[THUMB_TIP].y == b[THUMB_TIP].y;
    assert a[INDEX_TIP].x == b[INDEX_TIP].x && a[INDEX_TIP].y == b[INDEX_TIP].y;
    assert a[MIDDLE_MCP].x == b[MIDDLE_MCP].x && a[MIDDLE_MCP].y == b[MIDDLE_MCP].y;
  }

  /** No landmark's z enters the result: frames equal in x and y give equal gesture states. */
  lemma DepthIndependent(hypot: Hypot, a: seq<Hand>, b: seq<Hand>)
    requires AllMeasurable(hypot, a) && AllSamePlanar(a, b)
    ensures AllMeasurable(hypot, b)
    ensures Interpret(hypot, Some(a)) == Interpret(hypot, Some(b))
  {
    TotalTensionIgnoresDepth(hypot, a, b);
    if |a| == 2 {
      assert SamePlanar(a[0], b[0]) && SamePlanar(a[1], b[1]);
    }
  }

  /**
   * A closed fist: wrist at the origin, thumb tip (0.05, 0), index tip
   * (0.06, 0), middle knuckle (0, 0.2). The palm measures 0.2, the pinch
   * 0.01, the open factor is 0, and one hand reads full tension.
   */
  lemma ClosedFistScenario(hypot: Hypot, hand: Hand)
    requires IsHypot(hypot) && |hand| == 21
    requires hand[WRIST] == Landmark(0.0, 0.0, 0.0)
    requires hand[THUMB_TIP] == Landmark(0.05, 0.0, 0.0)
    requires hand[INDEX_TIP] == Landmark(0.06, 0.0, 0.0)
    requires hand[MIDDLE_MCP] == Landmark(0.0, 0.2, 0.0)
    ensures Measurable(hypot, hand)
    ensures Interpret(hypot, Some([hand])) == HandGestureState(1.0, IDLE_HAND_DISTANCE, 1)
  {
    var palm := hypot(0.0 - 0.0, 0.2 - 0.0);
    var pinch := hypot(0.05 - 0.06, 0.0 - 0.0);
    assert palm >= 0.0 && palm * palm == 0.04;
    assert pinch >= 0.0 && pinch * pinch == 0.0001;
    HypotRoot(palm, 0.2);
    HypotRoot(pinch, 0.01);
    assert PinchDistance(hypot, hand) / PalmSize(hypot, hand) == 0.05;
    assert HandTension(hypot, hand) == 1.0;
    assert [hand][..0] == [];
    assert TotalTension(hypot, [hand]) == 1.0;
  }

  /** A non-negative number whose square is r² is r. */
  lemma HypotRoot(h: real, r: real)
    requires h >= 0.0 && r > 0.0 && h * h == r * r
    ensures h == r
  {
    var d := h - r;
    assert (h + r) * d == h * h - r * r;
    ProductZero(h + r, d);
  }

  lemma ProductZero(a: real, b: real)
    requires a > 0.0 && a * b == 0.0
    ensures b == 0.0
  {
  }
}
