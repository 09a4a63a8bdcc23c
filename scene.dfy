/**
 * The particle system (components/Scene.tsx): which target cloud a shape
 * selects, when the target and the live buffer are rebuilt, and the
 * per-frame morph that pulls every live coordinate towards its scaled,
 * possibly jittered target.
 */
module Scene {
  import opened Maths
  import opened Types
  import opened Constants

  // ---------------------------------------------------------------------
  // Target selection

  /** How many `Math.random()` draws the generator for a selection consumes. */
  function DrawsNeeded(shape: ShapeType, custom: Option<seq<real>>, count: nat): nat
  {
    match shape
    case Heart => 4 * count
    case Saturn => SaturnDraws(count)
    case Flower => 2 * count
    case Buddha => 3 * count
    case Fireworks => 3 * count
    case Custom => if custom.Some? then 0 else 2 * count
    case Sphere => 2 * count
  }

  /**
   * The target buffer for a selection: the shape's generator, a verbatim copy
   * of the custom points when there are any, and the sphere otherwise.
   */
  function TargetPositions(trig: Trig, rand: seq<real>, shape: ShapeType, custom: Option<seq<real>>, count: nat): seq<real>
    requires |rand| >= DrawsNeeded(shape, custom, count)
  {
    match shape
    case Heart => Flatten(HeartCloud(trig, rand, count))
    case Saturn => Flatten(SaturnCloud(trig, rand, count))
    case Flower => Flatten(FlowerCloud(trig, rand, count))
    case Buddha => Flatten(BuddhaCloud(trig, rand, count))
    case Fireworks => Flatten(FireworksCloud(trig, rand, count))
    case Custom => if custom.Some? then custom.value else Flatten(SphereCloud(trig, rand, count))
    case Sphere => Flatten(SphereCloud(trig, rand, count))
  }

  /** The memoised switch: runs the selected generator and hands back its buffer's contents. */
  method SelectTarget(trig: Trig, rand: seq<real>, shape: ShapeType, custom: Option<seq<real>>, count: nat)
    returns (target: seq<real>)
    requires |rand| >= DrawsNeeded(shape, custom, count)
    ensures target == TargetPositions(trig, rand, shape, custom, count)
  {
    var points: array<real>;
    match shape {
      case Heart => points := GenerateHeartPoints(trig, rand, count);
      case Saturn => points := GenerateSaturnPoints(trig, rand, count);
      case Flower => points := GenerateFlowerPoints(trig, rand, count);
      case Buddha => points := GenerateBuddhaPoints(trig, rand, count);
      case Fireworks => points := GenerateFireworksPoints(trig, rand, count);
      case Custom =>
        if custom.Some? {
          return custom.value;
        }
        points := GenerateSpherePoints(trig, rand, count);
      case Sphere => points := GenerateSpherePoints(trig, rand, count);
    }
    target := points[..];
  }

  /** Custom points are copied as they are: no padding, no truncation, whatever the particle count. */
  lemma CustomCopiedVerbatim(trig: Trig, rand: seq<real>, pts: seq<real>, count: nat)
    ensures TargetPositions(trig, rand, Custom, Some(pts), count) == pts
  {
  }

  /** Without custom points the custom shape shows the same sphere as the sphere shape. */
  lemma CustomWithoutPointsIsSphere(trig: Trig, rand: seq<real>, count: nat)
    requires |rand| >= 2 * count
    ensures TargetPositions(trig, rand, Custom, None, count) == TargetPositions(trig, rand, Sphere, None, count)
    ensures |TargetPositions(trig, rand, Custom, None, count)| == 3 * count
  {
  }

  /** Every generated target has three slots per particle. */
  lemma GeneratedTargetLength(trig: Trig, rand: seq<real>, shape: ShapeType, custom: Option<seq<real>>, count: nat)
    requires |rand| >= DrawsNeeded(shape, custom, count)
    requires !(shape == Custom && custom.Some?)
    ensures |TargetPositions(trig, rand, shape, custom, count)| == 3 * count
  {
  }

  /** A custom shape's points do not depend on the random draws; every generated shape's do only through them. */
  lemma CustomIgnoresDraws(trig: Trig, r1: seq<real>, r2: seq<real>, pts: seq<real>, count: nat)
    ensures TargetPositions(trig, r1, Custom, Some(pts), count) == TargetPositions(trig, r2, Custom, Some(pts), count)
  {
  }

  // ---------------------------------------------------------------------
  // The per-frame morph

  /** `targetPositions[k] || 0`: a slot past the end of the target reads as 0. */
  function TargetAt(target: seq<real>, k: nat): real
  {
    if k < |target| then target[k] else 0.0
  }

  /** The global scale: set by the hands' spread when tracked, otherwise a slow breathing. */
  function Expansion(trig: Trig, g: HandGestureState, time: real): real
  {
    if g.handsDetected > 0 then 0.5 + g.handDistance * 2.0 else trig.sin(time) * 0.1 + 1.0
  }

  /** The condensing factor: the pinch strength when hands are tracked, otherwise none. */
  function TensionFactor(g: HandGestureState): real
  {
    if g.handsDetected > 0 then g.pinchStrength else 0.0
  }

  const TENSION_THRESHOLD: real := 0.1

  predicate Tense(tension: real)
  {
    tension > TENSION_THRESHOLD
  }

  /**
   * Where one coordinate is headed this frame: its target slot scaled by the
   * expansion and, under tension, pulled towards the centre and shaken by a
   * draw-dependent jitter.
   */
  function AxisGoal(t: real, expansion: real, tension: real, draw: real): real
  {
    var scaled := t * expansion;
    if Tense(tension) then
      var pullToCenter := 1.0 - tension * 0.8;
      scaled * pullToCenter + Jitter(tension, draw)
    else
      scaled
  }

  /** The noise a tense frame adds to one coordinate: (draw − 0.5)·tension·0.5. */
  function Jitter(tension: real, draw: real): real
  {
    (draw - 0.5) * tension * 0.5
  }

  /** One step of `p += (t - p) * speed`. */
  function Lerp(p: real, t: real, speed: real): real
  {
    p + (t - p) * speed
  }

  /** The jitter draw for slot k: the frame draws three per particle, x then y then z, only under tension. */
  function JitterDraw(draws: seq<real>, tension: real, k: nat): real
    requires Tense(tension) ==> k < |draws|
  {
    if Tense(tension) then draws[k] else 0.0
  }

  /** Slot k of the live buffer after one frame. */
  function MorphAt(current: seq<real>, target: seq<real>, expansion: real, tension: real, speed: real,
                   draws: seq<real>, k: nat): real
    requires k < |current|
    requires Tense(tension) ==> k < |draws|
  {
    Lerp(current[k], AxisGoal(TargetAt(target, k), expansion, tension, JitterDraw(draws, tension, k)), speed)
  }

  /** The whole live buffer after one frame. */
  function MorphStep(current: seq<real>, target: seq<real>, expansion: real, tension: real, speed: real,
                     draws: seq<real>): (next: seq<real>)
    requires Tense(tension) ==> |current| <= |draws|
    ensures |next| == |current|
  {
    seq(|current|, k requires 0 <= k < |current| => MorphAt(current, target, expansion, tension, speed, draws, k))
  }

  /** With no hands the tension is zero and the scale breathes between 0.9 and 1.1. */
  lemma IdleBreathes(trig: Trig, g: HandGestureState, time: real)
    requires Pythagorean(trig) && g.handsDetected == 0
    ensures TensionFactor(g) == 0.0 && !Tense(TensionFactor(g))
    ensures 0.9 <= Expansion(trig, g, time) <= 1.1
  {
    TrigBounded(trig, time);
  }

  /** With hands, the scale grows linearly with their spread and the tension is the pinch strength. */
  lemma HandsDrive(trig: Trig, g: HandGestureState, time: real)
    requires g.handsDetected > 0
    ensures Expansion(trig, g, time) == 0.5 + 2.0 * g.handDistance
    ensures TensionFactor(g) == g.pinchStrength
    ensures g.handDistance == 0.5 ==> Expansion(trig, g, time) == 1.5
  {
  }

  /** At or below the threshold the goal is the target scaled by the expansion, with no jitter. */
  lemma RelaxedGoalExact(t: real, expansion: real, tension: real, draw: real)
    requires !Tense(tension)
    ensures AxisGoal(t, expansion, tension, draw) == t * expansion
    ensures forall other :: AxisGoal(t, expansion, tension, other) == AxisGoal(t, expansion, tension, draw)
  {
  }

  /**
   * Above the threshold the goal is the scaled target pulled in by
   * 1 − 0.8·tension, plus a jitter within [−0.25·tension, 0.25·tension).
   */
  lemma TenseGoalBounded(t: real, expansion: real, tension: real, draw: real)
    requires Tense(tension) && UnitDraw(draw)
    ensures var jitter := AxisGoal(t, expansion, tension, draw) - t * expansion * (1.0 - 0.8 * tension);
      -0.25 * tension <= jitter < 0.25 * tension
  {
    var scaled := t * expansion;
    assert scaled * (1.0 - tension * 0.8) == t * expansion * (1.0 - 0.8 * tension);
    JitterBounded(tension, draw);
  }

  /** A draw in [0, 1) shakes a coordinate by at least −0.25·tension and less than 0.25·tension. */
  lemma JitterBounded(tension: real, draw: real)
    requires 0.0 < tension && UnitDraw(draw)
    ensures -0.25 * tension <= Jitter(tension, draw) < 0.25 * tension
  {
    var j := (draw - 0.5) * tension * 0.5;
    ProductNonnegative(draw, tension);
    ProductPositive(1.0 - draw, tension);
    assert j == 0.5 * (draw * tension) - 0.25 * tension;
    assert j == 0.25 * tension - 0.5 * ((1.0 - draw) * tension);
  }

  /** A full-strength pinch pulls the scaled target to a fifth of its size. */
  lemma FullPinchCondenses(t: real, expansion: real, draw: real)
    ensures AxisGoal(t, expansion, 1.0, draw) == t * expansion * 0.2 + (draw - 0.5) * 0.5
  {
  }

  /** A step with 0 <= speed <= 1 lands between the old value and the goal, and shrinks the gap by 1 − speed. */
  lemma LerpBetween(p: real, t: real, speed: real)
    requires 0.0 <= speed <= 1.0
    ensures t - Lerp(p, t, speed) == (1.0 - speed) * (t - p)
    ensures p <= t ==> p <= Lerp(p, t, speed) <= t
    ensures t <= p ==> t <= Lerp(p, t, speed) <= p
  {
    var d := t - p;
    if d >= 0.0 {
      ProductNonnegative(d, speed);
      ProductNonnegative(d, 1.0 - speed);
    } else {
      ProductNonnegative(-d, speed);
      ProductNonnegative(-d, 1.0 - speed);
    }
  }

  /** The step is not clamped: with speed above 1 (a frame longer than 0.25 s) it overshoots the goal. */
  lemma LerpOvershoots(p: real, t: real, speed: real)
    requires speed > 1.0
    ensures p < t ==> Lerp(p, t, speed) > t
    ensures t < p ==> Lerp(p, t, speed) < t
  {
    var gap, excess := t - p, speed - 1.0;
    assert Lerp(p, t, speed) == t + gap * excess;
    if p < t {
      ProductPositive(gap, excess);
    } else if t < p {
      ProductNegative(gap, excess);
    }
  }

  lemma ProductNegative(a: real, b: real)
    requires a < 0.0 < b
    ensures a * b < 0.0
  {
  }

  /** `Power(b, n)` = bⁿ. */
  function Power(b: real, n: nat): real
  {
    if n == 0 then 1.0 else b * Power(b, n - 1)
  }

  /** n frames towards a fixed goal. */
  function Approach(p: real, t: real, speed: real, n: nat): real
    decreases n
  {
    if n == 0 then p else Approach(Lerp(p, t, speed), t, speed, n - 1)
  }

  /** After n frames towards a fixed goal the remaining gap is (1 − speed)ⁿ times the first. */
  lemma {:induction false} ApproachGap(p: real, t: real, speed: real, n: nat)
    ensures t - Approach(p, t, speed, n) == Power(1.0 - speed, n) * (t - p)
    decreases n
  {
    if n > 0 {
      var b, q := 1.0 - speed, Lerp(p, t, speed);
      ApproachGap(q, t, speed, n - 1);
      var r := Power(b, n - 1);
      assert t - q == b * (t - p);
      assert r * (b * (t - p)) == (b * r) * (t - p);
    }
  }

  /** A power of a factor in [0, 1] stays in [0, 1]. */
  lemma {:induction false} PowerInUnit(b: real, n: nat)
    requires 0.0 <= b <= 1.0
    ensures 0.0 <= Power(b, n) <= 1.0
  {
    if n > 0 {
      PowerInUnit(b, n - 1);
      ProductNonnegative(b, Power(b, n - 1));
      ProductNonnegative(1.0 - b, Power(b, n - 1));
    }
  }

  /** At rest every slot moves towards its scaled target and never past it. */
  lemma RelaxedStepTowardsTarget(current: seq<real>, target: seq<real>, expansion: real, tension: real,
                                 speed: real, draws: seq<real>, k: nat)
    requires !Tense(tension) && k < |current| && 0.0 <= speed <= 1.0
    ensures var goal := TargetAt(target, k) * expansion;
      var next := MorphStep(current, target, expansion, tension, speed, draws)[k];
      goal - next == (1.0 - speed) * (goal - current[k])
  {
    var goal := TargetAt(target, k) * expansion;
    RelaxedGoalExact(TargetAt(target, k), expansion, tension, 0.0);
    LerpBetween(current[k], goal, speed);
  }

  /** Slots past the end of a short target are pulled towards the origin. */
  lemma UntargetedSlotsSink(current: seq<real>, target: seq<real>, expansion: real, tension: real,
                            speed: real, draws: seq<real>, k: nat)
    requires !Tense(tension) && |target| <= k < |current|
    ensures MorphStep(current, target, expansion, tension, speed, draws)[k] == current[k] * (1.0 - speed)
  {
  }

  // ---------------------------------------------------------------------
  // The particle component

  /**
   * The mounted component: the memoised target with the dependencies it was
   * built from, the live position buffer (reallocated only with the particle
   * count), and the rotation of the whole cloud about the y axis.
   */
  class Particles {
    var shape: ShapeType
    var customPoints: Option<seq<real>>
    var count: nat
    var target: seq<real>
    var positions: array<real>
    var rotationY: real

    ghost predicate Valid()
      reads this
    {
      positions.Length == 3 * count
    }

    /** First render: both memos are computed and the live buffer starts zero-filled. */
    constructor (trig: Trig, rand: seq<real>, app: AppState)
      requires |rand| >= DrawsNeeded(app.currentShape, app.customPoints, app.particleCount)
      ensures Valid()
      ensures shape == app.currentShape && customPoints == app.customPoints && count == app.particleCount
      ensures target == TargetPositions(trig, rand, app.currentShape, app.customPoints, app.particleCount)
      ensures fresh(positions) && positions[..] == seq(3 * app.particleCount, _ => 0.0)
      ensures rotationY == 0.0
    {
      var initial := SelectTarget(trig, rand, app.currentShape, app.customPoints, app.particleCount);
      shape := app.currentShape;
      customPoints := app.customPoints;
      count := app.particleCount;
      target := initial;
      positions := new real[app.particleCount * 3](_ => 0.0);
      rotationY := 0.0;
    }

    /** Whether a render with `app` invalidates the target memo. */
    predicate TargetStale(app: AppState)
      reads this
    {
      app.currentShape != shape || app.particleCount != count || app.customPoints != customPoints
    }

    /**
     * A later render: the target is regenerated only when the shape, the
     * count or the custom points changed; the live buffer is replaced by a
     * zero-filled one only when the count changed, and otherwise kept with
     * its contents.
     */
    method Render(trig: Trig, rand: seq<real>, app: AppState)
      requires Valid()
      requires TargetStale(app) ==> |rand| >= DrawsNeeded(app.currentShape, app.customPoints, app.particleCount)
      modifies this
      ensures Valid()
      ensures shape == app.currentShape && customPoints == app.customPoints && count == app.particleCount
      ensures target == if old(TargetStale(app)) then TargetPositions(trig, rand, app.currentShape, app.customPoints, app.particleCount)
                        else old(target)
      ensures app.particleCount == old(count) ==> positions == old(positions) && positions[..] == old(positions[..])
      ensures app.particleCount != old(count) ==> fresh(positions) && positions[..] == seq(3 * app.particleCount, _ => 0.0)
      ensures rotationY == old(rotationY)
    {
      if TargetStale(app) {
        target := SelectTarget(trig, rand, app.currentShape, app.customPoints, app.particleCount);
      }
      if app.particleCount != count {
        positions := new real[app.particleCount * 3](_ => 0.0);
      }
      shape := app.currentShape;
      customPoints := app.customPoints;
      count := app.particleCount;
    }

    /**
     * One animation frame: every coordinate of the live buffer takes one
     * morph step towards its goal, and the cloud turns by 0.001 + 0.05·tension.
     */
    method Tick(trig: Trig, g: HandGestureState, time: real, delta: real, draws: seq<real>)
      requires Valid()
      requires Tense(TensionFactor(g)) ==> |draws| >= 3 * count
      modifies positions, this`rotationY
      ensures Valid()
      ensures positions[..] == MorphStep(old(positions[..]), target, Expansion(trig, g, time), TensionFactor(g), 4.0 * delta, draws)
      ensures rotationY == old(rotationY) + 0.001 + TensionFactor(g) * 0.05
    {
      var breathe := trig.sin(time) * 0.1 + 1.0;
      var expansionFactor := if g.handsDetected > 0 then 0.5 + g.handDistance * 2.0 else breathe;
      var tensionFactor := if g.handsDetected > 0 then g.pinchStrength else 0.0;
      var lerpSpeed := 4.0 * delta;
      ghost var before := positions[..];

      for i := 0 to count
        invariant rotationY == old(rotationY)
        invariant forall k :: 0 <= k < positions.Length ==>
          positions[k] == if k < 3 * i then MorphAt(before, target, expansionFactor, tensionFactor, lerpSpeed, draws, k)
                          else before[k]
      {
        var ix, iy, iz := i * 3, i * 3 + 1, i * 3 + 2;
        var tx := AxisGoal(TargetAt(target, ix), expansionFactor, tensionFactor, JitterDraw(draws, tensionFactor, ix));
        var ty := AxisGoal(TargetAt(target, iy), expansionFactor, tensionFactor, JitterDraw(draws, tensionFactor, iy));
        var tz := AxisGoal(TargetAt(target, iz), expansionFactor, tensionFactor, JitterDraw(draws, tensionFactor, iz));
        positions[ix] := Lerp(positions[ix], tx, lerpSpeed);
        positions[iy] := Lerp(positions[iy], ty, lerpSpeed);
        positions[iz] := Lerp(positions[iz], tz, lerpSpeed);
      }
      assert positions[..] == MorphStep(before, target, expansionFactor, tensionFactor, lerpSpeed, draws);

      rotationY := rotationY + 0.001 + tensionFactor * 0.05;
    }
  }

  /** The turn per frame is between 0.001 and 0.051 for any tension in [0, 1]. */
  lemma RotationStepBounded(g: HandGestureState)
    requires 0.0 <= g.pinchStrength <= 1.0
    ensures 0.001 <= 0.001 + TensionFactor(g) * 0.05 <= 0.051
  {
  }
}
