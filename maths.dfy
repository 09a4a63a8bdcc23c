/**
 * Exact-real stand-ins for the parts of JavaScript's `Math` the demo uses.
 *
 * `Math.sin`, `Math.cos`, `Math.acos` and `Math.hypot` are not defined here:
 * they travel as function values (a `Trig` record, a `Hypot` function), and
 * the only facts assumed about them are the predicates below, stated as
 * preconditions where a property needs them. `Math.random()` becomes a
 * sequence of draws, each in [0, 1).
 */
module Maths {

  /** `Math.PI`, as the double literal it is. */
  const PI: real := 3.141592653589793

  /** `Math.min(Math.max(v, lo), hi)`: pins `v` into [lo, hi]. */
  function Clamp(v: real, lo: real, hi: real): (r: real)
    requires lo <= hi
    ensures lo <= r <= hi
    ensures lo <= v <= hi ==> r == v
  {
    var atLeastLo := if v > lo then v else lo;
    if atLeastLo < hi then atLeastLo else hi
  }

  /** Clamping never reverses the order of two values. */
  lemma ClampMonotone(u: real, v: real, lo: real, hi: real)
    requires lo <= hi && u <= v
    ensures Clamp(u, lo, hi) <= Clamp(v, lo, hi)
  {
  }

  /** The trigonometric functions the generators call, passed as values. */
  datatype Trig = Trig(sin: real -> real, cos: real -> real, acos: real -> real)

  /** The one identity the geometric properties need: sin² + cos² = 1. */
  ghost predicate Pythagorean(trig: Trig)
  {
    forall a :: trig.sin(a) * trig.sin(a) + trig.cos(a) * trig.cos(a) == 1.0
  }

  /** From sin² + cos² = 1 alone, both functions stay within [-1, 1]. */
  lemma TrigBounded(trig: Trig, a: real)
    requires Pythagorean(trig)
    ensures -1.0 <= trig.sin(a) <= 1.0
    ensures -1.0 <= trig.cos(a) <= 1.0
  {
    var s, c := trig.sin(a), trig.cos(a);
    assert s * s + c * c == 1.0;
    SquareAtMostOne(s, c * c);
    SquareAtMostOne(c, s * s);
  }

  lemma SquareAtMostOne(s: real, rest: real)
    requires rest >= 0.0 && s * s + rest == 1.0
    ensures -1.0 <= s <= 1.0
  {
  }

  /** `Math.hypot(a, b)` on two arguments. */
  type Hypot = (real, real) -> real

  /** What `Math.hypot` is: the non-negative square root of a² + b². */
  ghost predicate IsHypot(hypot: Hypot)
  {
    forall a, b :: hypot(a, b) >= 0.0 && hypot(a, b) * hypot(a, b) == a * a + b * b
  }

  /** One value of `Math.random()`. */
  predicate UnitDraw(d: real)
  {
    0.0 <= d < 1.0
  }

  /** A stretch of `Math.random()` values. */
  predicate AllUnit(draws: seq<real>)
  {
    forall k :: 0 <= k < |draws| ==> UnitDraw(draws[k])
  }

  /** Sign rules for a product, stated on the exact terms a proof needs. */
  lemma ProductPositive(a: real, b: real)
    requires 0.0 < a && 0.0 < b
    ensures 0.0 < a * b
  {
  }

  lemma ProductNonnegative(a: real, b: real)
    requires 0.0 <= a && 0.0 <= b
    ensures 0.0 <= a * b
  {
  }
}
