/**
 * The procedural point-cloud generators (constants.ts). Each allocates a
 * zero-filled buffer of 3·count reals and stores particle i in slots 3i,
 * 3i+1 and 3i+2, taking its randomness from `rand` in the order the code
 * calls `Math.random()`.
 *
 * A generator is specified by a function giving its particle cloud
 * (`HeartCloud`, ...) and by `Flatten`, the flat layout; the geometric
 * properties are lemmas about the per-particle functions.
 */
module Constants {
  import opened Maths

  datatype Point = Point(x: real, y: real, z: real)

  const ORIGIN: Point := Point(0.0, 0.0, 0.0)

  /**
   * Draw d of the `Math.random()` sequence. The generators require enough
   * draws, so the 0 past the end is never used by them; it only keeps the
   * per-particle functions total.
   */
  function Draw(rand: seq<real>, d: nat): real
  {
    if d < |rand| then rand[d] else 0.0
  }

  // ---------------------------------------------------------------------
  // The flat layout [x0, y0, z0, x1, y1, z1, ...]

  function Coord(p: Point, axis: nat): real
    requires axis < 3
  {
    if axis == 0 then p.x else if axis == 1 then p.y else p.z
  }

  /** Slot k of the flat buffer holds coordinate k % 3 of particle k / 3. */
  function Flatten(ps: seq<Point>): (r: seq<real>)
    ensures |r| == 3 * |ps|
  {
    seq(3 * |ps|, k requires 0 <= k < 3 * |ps| => Coord(ps[k / 3], k % 3))
  }

  lemma FlattenSlot(ps: seq<Point>, k: nat)
    requires k < 3 * |ps|
    ensures Flatten(ps)[k] == Coord(ps[k / 3], k % 3)
  {
  }

  /** Particle i owns exactly slots 3i, 3i+1 and 3i+2 of the flat buffer. */
  lemma FlattenAt(ps: seq<Point>, i: nat)
    requires i < |ps|
    ensures Flatten(ps)[3 * i] == ps[i].x
    ensures Flatten(ps)[3 * i + 1] == ps[i].y
    ensures Flatten(ps)[3 * i + 2] == ps[i].z
  {
    assert (3 * i) / 3 == i && (3 * i + 1) / 3 == i && (3 * i + 2) / 3 == i;
  }

  /**
   * The loop every generator runs: iteration i computes particle i and
   * writes it to slots 3i, 3i+1 and 3i+2, and to no other slot.
   */
  method FillParticles(points: array<real>, from: nat, to: nat, particle: nat -> Point)
    requires from <= to && 3 * to <= points.Length
    modifies points
    ensures forall k :: 0 <= k < points.Length ==>
      points[k] == if 3 * from <= k < 3 * to then Coord(particle(k / 3), k % 3) else old(points[k])
  {
    for i := from to to
      invariant forall k :: 0 <= k < points.Length ==>
        points[k] == if 3 * from <= k < 3 * i then Coord(particle(k / 3), k % 3) else old(points[k])
    {
      var p := particle(i);
      assert (3 * i) / 3 == i && (3 * i + 1) / 3 == i && (3 * i + 2) / 3 == i;
      points[i * 3] := p.x;
      points[i * 3 + 1] := p.y;
      points[i * 3 + 2] := p.z;
    }
  }

  // ---------------------------------------------------------------------
  // Shared geometry

  /** The point at polar angle phi and azimuth theta on the sphere of radius r. */
  function SphericalPoint(trig: Trig, r: real, theta: real, phi: real): Point
  {
    Point(r * trig.sin(phi) * trig.cos(theta),
          r * trig.sin(phi) * trig.sin(theta),
          r * trig.cos(phi))
  }

  function SquaredNorm(p: Point): real
  {
    p.x * p.x + p.y * p.y + p.z * p.z
  }

  /** A spherical point lies on its sphere: x² + y² + z² = r². */
  lemma SphericalOnSphere(trig: Trig, r: real, theta: real, phi: real)
    requires Pythagorean(trig)
    ensures SquaredNorm(SphericalPoint(trig, r, theta, phi)) == r * r
  {
    var s, c := trig.sin(phi), trig.cos(phi);
    var cs, ss := trig.cos(theta), trig.sin(theta);
    assert cs * cs + ss * ss == 1.0;
    assert s * s + c * c == 1.0;
    calc {
      (r * s * cs) * (r * s * cs) + (r * s * ss) * (r * s * ss) + (r * c) * (r * c);
      (r * s) * (r * s) * (cs * cs + ss * ss) + (r * c) * (r * c);
      (r * s) * (r * s) + (r * c) * (r * c);
      r * r * (s * s + c * c);
    }
  }

  /** A uniform azimuth, `Math.random() * Math.PI * 2`. */
  function Azimuth(draw: real): real
  {
    draw * PI * 2.0
  }

  /** The inverse-CDF polar angle, `Math.acos(2 * Math.random() - 1)`. */
  function PolarAngle(trig: Trig, draw: real): real
  {
    trig.acos(2.0 * draw - 1.0)
  }

  // ---------------------------------------------------------------------
  // Heart: four draws per particle (phi and theta are drawn but unused,
  // then the curve parameter t, then the thickness)

  function HeartPoint(trig: Trig, tDraw: real, depthDraw: real): Point
  {
    var t := tDraw * PI * 2.0;
    var s := trig.sin(t);
    var x := 16.0 * (s * s * s);
    var y := 13.0 * trig.cos(t) - 5.0 * trig.cos(2.0 * t) - 2.0 * trig.cos(3.0 * t) - trig.cos(4.0 * t);
    var z := (depthDraw - 0.5) * 5.0;
    Point(x * 0.1, y * 0.1, z * 0.5)
  }

  function HeartParticle(trig: Trig, rand: seq<real>, i: nat): Point
  {
    HeartPoint(trig, Draw(rand, 4 * i + 2), Draw(rand, 4 * i + 3))
  }

  function HeartCloud(trig: Trig, rand: seq<real>, count: nat): (ps: seq<Point>)
    ensures |ps| == count
  {
    seq(count, i requires 0 <= i < count => HeartParticle(trig, rand, i))
  }

  method GenerateHeartPoints(trig: Trig, rand: seq<real>, count: nat) returns (points: array<real>)
    requires |rand| >= 4 * count
    ensures points.Length == 3 * count
    ensures points[..] == Flatten(HeartCloud(trig, rand, count))
  {
    points := new real[count * 3](_ => 0.0);
    FillParticles(points, 0, count, (i: nat) => HeartParticle(trig, rand, i));
    assert points[..] == Flatten(HeartCloud(trig, rand, count));
  }

  /** Heart depth is (r − 0.5)·5·0.5 for a draw r in [0, 1), so it lies in [−1.25, 1.25). */
  lemma HeartDepthBounded(trig: Trig, tDraw: real, depthDraw: real)
    requires UnitDraw(depthDraw)
    ensures -1.25 <= HeartPoint(trig, tDraw, depthDraw).z < 1.25
  {
  }

  /** Every heart particle's depth lies in [−1.25, 1.25) when the draws lie in [0, 1). */
  lemma HeartCloudDepthBounded(trig: Trig, rand: seq<real>, count: nat)
    requires |rand| >= 4 * count && AllUnit(rand)
    ensures forall i :: 0 <= i < count ==> -1.25 <= HeartCloud(trig, rand, count)[i].z < 1.25
  {
    forall i | 0 <= i < count
      ensures -1.25 <= HeartCloud(trig, rand, count)[i].z < 1.25
    {
      HeartDepthBounded(trig, Draw(rand, 4 * i + 2), Draw(rand, 4 * i + 3));
    }
  }

  /** The heart curve, scaled by 0.1, fits in [−1.6, 1.6] × [−2.1, 2.1]. */
  lemma HeartOutlineBounded(trig: Trig, tDraw: real, depthDraw: real)
    requires Pythagorean(trig)
    ensures -1.6 <= HeartPoint(trig, tDraw, depthDraw).x <= 1.6
    ensures -2.1 <= HeartPoint(trig, tDraw, depthDraw).y <= 2.1
  {
    var t := tDraw * PI * 2.0;
    TrigBounded(trig, t);
    TrigBounded(trig, 2.0 * t);
    TrigBounded(trig, 3.0 * t);
    TrigBounded(trig, 4.0 * t);
    CubeBounded(trig.sin(t));
  }

  lemma CubeBounded(s: real)
    requires -1.0 <= s <= 1.0
    ensures -1.0 <= s * s * s <= 1.0
  {
    var sq := s * s;
    assert 0.0 <= sq <= 1.0 by {
      if s >= 0.0 { assert s * s <= 1.0 * s; } else { assert s * s <= (-1.0) * s; }
    }
    if s >= 0.0 {
      assert sq * s <= 1.0 * s;
    } else {
      assert sq * s >= sq * (-1.0);
    }
  }

  // ---------------------------------------------------------------------
  // Sphere: radius 2, two draws per particle (azimuth, then polar angle)

  const SPHERE_RADIUS: real := 2.0

  function SpherePoint(trig: Trig, r: real, thetaDraw: real, phiDraw: real): Point
  {
    SphericalPoint(trig, r, Azimuth(thetaDraw), PolarAngle(trig, phiDraw))
  }

  function SphereParticle(trig: Trig, rand: seq<real>, i: nat): Point
  {
    SpherePoint(trig, SPHERE_RADIUS, Draw(rand, 2 * i), Draw(rand, 2 * i + 1))
  }

  function SphereCloud(trig: Trig, rand: seq<real>, count: nat): (ps: seq<Point>)
    ensures |ps| == count
  {
    seq(count, i requires 0 <= i < count => SphereParticle(trig, rand, i))
  }

  method GenerateSpherePoints(trig: Trig, rand: seq<real>, count: nat) returns (points: array<real>)
    requires |rand| >= 2 * count
    ensures points.Length == 3 * count
    ensures points[..] == Flatten(SphereCloud(trig, rand, count))
  {
    points := new real[count * 3](_ => 0.0);
    FillParticles(points, 0, count, (i: nat) => SphereParticle(trig, rand, i));
    assert points[..] == Flatten(SphereCloud(trig, rand, count));
  }

  /** Every sphere point lies at distance exactly 2 from the origin. */
  lemma SphereRadiusFixed(trig: Trig, rand: seq<real>, i: nat)
    requires Pythagorean(trig)
    ensures SquaredNorm(SphereParticle(trig, rand, i)) == SPHERE_RADIUS * SPHERE_RADIUS
  {
    SphericalOnSphere(trig, SPHERE_RADIUS, Azimuth(Draw(rand, 2 * i)), PolarAngle(trig, Draw(rand, 2 * i + 1)));
  }

  // ---------------------------------------------------------------------
  // Saturn: planet points for the integer indices below count·0.4 (two
  // draws each), then ring iterations starting at the index count·0.4 itself
  // (three draws each: angle, radius, height)

  const PLANET_RATIO: real := 0.4
  const PLANET_RADIUS: real := 1.5

  /** The number of integers i >= 0 with i < count·0.4. */
  function PlanetSlots(count: nat): nat
  {
    (2 * count + 4) / 5
  }

  /** The number of ring iterations: the n >= 0 with count·0.4 + n < count. */
  function RingIterations(count: nat): nat
  {
    (3 * count + 4) / 5
  }

  function SaturnDraws(count: nat): nat
  {
    2 * PlanetSlots(count) + 3 * RingIterations(count)
  }

  /** Every ring iteration finds its three draws. */
  lemma RingDrawsFit(count: nat, n: nat)
    requires count as real * PLANET_RATIO + n as real < count as real
    ensures 2 * PlanetSlots(count) + 3 * n + 2 < SaturnDraws(count)
  {
    RingIterationsExact(count, n);
  }

  predicate IsIntegral(r: real)
  {
    r.Floor as real == r
  }

  /** The planet loop `for (i = 0; i < ringStart; i++)` visits exactly the indices below PlanetSlots. */
  lemma PlanetSlotsExact(count: nat, i: nat)
    ensures (i as real) < count as real * PLANET_RATIO <==> i < PlanetSlots(count)
  {
  }

  /** The ring loop `for (i = ringStart; i < count; i++)` runs RingIterations times. */
  lemma RingIterationsExact(count: nat, n: nat)
    ensures count as real * PLANET_RATIO + n as real < count as real <==> n < RingIterations(count)
  {
  }

  /** The ring loop's index is an integer exactly when count is a multiple of 5. */
  lemma RingStartIntegral(count: nat)
    ensures IsIntegral(count as real * PLANET_RATIO) <==> count % 5 == 0
    ensures count % 5 == 0 ==> (count as real * PLANET_RATIO).Floor == PlanetSlots(count)
  {
    var start := count as real * PLANET_RATIO;
    if count % 5 == 0 {
      var m := count / 5;
      assert start == (2 * m) as real;
    }
  }

  function RingPoint(trig: Trig, angleDraw: real, radiusDraw: real, heightDraw: real): Point
  {
    var angle := angleDraw * PI * 2.0;
    var r := 2.2 + radiusDraw * 2.5;
    Point(r * trig.cos(angle), (heightDraw - 0.5) * 0.1, r * trig.sin(angle))
  }

  function SaturnPlanetParticle(trig: Trig, rand: seq<real>, i: nat): Point
  {
    SpherePoint(trig, PLANET_RADIUS, Draw(rand, 2 * i), Draw(rand, 2 * i + 1))
  }

  /** Ring iteration n, which follows the draws of all planet iterations. */
  function SaturnRingParticle(trig: Trig, rand: seq<real>, planets: nat, n: nat): Point
  {
    var d := 2 * planets + 3 * n;
    RingPoint(trig, Draw(rand, d), Draw(rand, d + 1), Draw(rand, d + 2))
  }

  /**
   * The Saturn cloud as the code leaves it: planet points below
   * PlanetSlots(count); ring points above it when count·0.4 is an integer;
   * otherwise every ring write lands on a fractional index, which a typed
   * array ignores, and those particles stay at the origin.
   */
  function SaturnCloud(trig: Trig, rand: seq<real>, count: nat): (ps: seq<Point>)
    ensures |ps| == count
  {
    var planets := PlanetSlots(count);
    seq(count, i requires 0 <= i < count =>
      if i < planets then SaturnPlanetParticle(trig, rand, i)
      else if count % 5 == 0 then SaturnRingParticle(trig, rand, planets, i - planets)
      else ORIGIN)
  }

  /**
   * The ring loop: its index starts at `ringStart` and steps by one; a
   * write to a fractional index of a typed array is ignored.
   */
  method FillRings(points: array<real>, ringStart: real, count: nat, ring: nat -> Point)
    requires 0.0 <= ringStart && points.Length == 3 * count
    modifies points
    ensures forall k :: 0 <= k < points.Length ==>
      points[k] == if IsIntegral(ringStart) && 3 * ringStart.Floor <= k
                   then Coord(ring(k / 3 - ringStart.Floor), k % 3) else old(points[k])
  {
    var first := ringStart.Floor;
    var n: nat := 0;
    while ringStart + n as real < count as real
      invariant n <= count
      invariant forall k :: 0 <= k < points.Length ==>
        points[k] == if IsIntegral(ringStart) && 3 * first <= k < 3 * (first + n)
                     then Coord(ring(k / 3 - first), k % 3) else old(points[k])
      decreases count - n
    {
      var i := ringStart + n as real;
      var p := ring(n);
      FloorShift(ringStart, n);
      if i.Floor as real == i {
        var j := i.Floor;
        assert (3 * j) / 3 == j && (3 * j + 1) / 3 == j && (3 * j + 2) / 3 == j;
        points[j * 3] := p.x;
        points[j * 3 + 1] := p.y;
        points[j * 3 + 2] := p.z;
      }
      n := n + 1;
    }
  }

  /** Shifting by a natural number shifts the floor and keeps integrality. */
  lemma FloorShift(r: real, n: nat)
    ensures (r + n as real).Floor == r.Floor + n
    ensures IsIntegral(r + n as real) <==> IsIntegral(r)
  {
  }

  method GenerateSaturnPoints(trig: Trig, rand: seq<real>, count: nat) returns (points: array<real>)
    requires |rand| >= SaturnDraws(count)
    ensures points.Length == 3 * count
    ensures points[..] == Flatten(SaturnCloud(trig, rand, count))
  {
    points := new real[count * 3](_ => 0.0);
    var planetRatio := PLANET_RATIO;
    var ringStart := count as real * planetRatio;
    FillSaturnPlanet(points, trig, rand, count, ringStart);
    FillSaturnRings(points, trig, rand, count, ringStart);
  }

  /** The buffer after the planet loop: planet points below PlanetSlots(count), zeros above. */
  function PlanetStage(trig: Trig, rand: seq<real>, count: nat): (r: seq<real>)
    ensures |r| == 3 * count
  {
    seq(3 * count, k requires 0 <= k < 3 * count =>
      if k < 3 * PlanetSlots(count) then Coord(SaturnPlanetParticle(trig, rand, k / 3), k % 3) else 0.0)
  }

  /** The planet loop, `for (i = 0; i < ringStart; i++)`, on a zero-filled buffer. */
  method FillSaturnPlanet(points: array<real>, trig: Trig, rand: seq<real>, count: nat, ringStart: real)
    requires points.Length == 3 * count && ringStart == count as real * PLANET_RATIO
    requires forall k :: 0 <= k < points.Length ==> points[k] == 0.0
    modifies points
    ensures points[..] == PlanetStage(trig, rand, count)
  {
    // The guard `i < ringStart` first fails at i = PlanetSlots(count).
    var planets := PlanetSlots(count);
    PlanetSlotsExact(count, planets);
    assert !(planets as real < ringStart);
    if planets > 0 {
      PlanetSlotsExact(count, planets - 1);
      assert (planets - 1) as real < ringStart;
    }
    FillParticles(points, 0, planets, (i: nat) => SaturnPlanetParticle(trig, rand, i));
    assert points[..] == PlanetStage(trig, rand, count);
  }

  /** The ring loop, `for (i = ringStart; i < count; i++)`, after the planet loop. */
  method FillSaturnRings(points: array<real>, trig: Trig, rand: seq<real>, count: nat, ringStart: real)
    requires points.Length == 3 * count && ringStart == count as real * PLANET_RATIO
    requires points[..] == PlanetStage(trig, rand, count)
    modifies points
    ensures points[..] == Flatten(SaturnCloud(trig, rand, count))
  {
    ghost var afterPlanet := points[..];
    var planets := PlanetSlots(count);
    FillRings(points, ringStart, count, (n: nat) => SaturnRingParticle(trig, rand, planets, n));
    forall k | 0 <= k < 3 * count
      ensures points[k] == Flatten(SaturnCloud(trig, rand, count))[k]
    {
      SaturnSlot(trig, rand, count, k, afterPlanet[k], points[k]);
    }
    assert points[..] == Flatten(SaturnCloud(trig, rand, count));
  }

  /**
   * Slot k of the finished Saturn buffer, from the value the planet loop
   * left there and the value the ring loop, started at count·0.4, left.
   */
  lemma SaturnSlot(trig: Trig, rand: seq<real>, count: nat, k: nat, afterPlanet: real, afterRing: real)
    requires k < 3 * count
    requires afterPlanet == PlanetStage(trig, rand, count)[k]
    requires var start := count as real * PLANET_RATIO;
      afterRing == if IsIntegral(start) && 3 * start.Floor <= k
                   then Coord(SaturnRingParticle(trig, rand, PlanetSlots(count), k / 3 - start.Floor), k % 3)
                   else afterPlanet
    ensures afterRing == Flatten(SaturnCloud(trig, rand, count))[k]
  {
    RingStartIntegral(count);
    FlattenSlot(SaturnCloud(trig, rand, count), k);
  }

  /** When count is not a multiple of 5, every particle from PlanetSlots(count) on stays at the origin. */
  lemma SaturnFractionalRingStaysZero(trig: Trig, rand: seq<real>, count: nat, k: nat)
    requires count % 5 != 0 && 3 * PlanetSlots(count) <= k < 3 * count
    ensures Flatten(SaturnCloud(trig, rand, count))[k] == 0.0
  {
  }

  /**
   * A count that is not a multiple of 5 loses its rings: with three
   * particles the planet takes two and the third stays at the origin.
   */
  lemma SaturnThreeParticlesLoseRing(trig: Trig, rand: seq<real>)
    ensures PlanetSlots(3) == 2 && SaturnCloud(trig, rand, 3)[2] == ORIGIN
  {
  }

  /**
   * The Saturn cloud the ring loop evidently means: ring points for every
   * particle from PlanetSlots(count) on, whatever the count.
   */
  function IntendedSaturnCloud(trig: Trig, rand: seq<real>, count: nat): (ps: seq<Point>)
    ensures |ps| == count
  {
    var planets := PlanetSlots(count);
    seq(count, i requires 0 <= i < count =>
      if i < planets then SaturnPlanetParticle(trig, rand, i)
      else SaturnRingParticle(trig, rand, planets, i - planets))
  }

  /** In the intended cloud every particle past the planet lies on the ring, 2.2 to 4.7 from the axis. */
  lemma IntendedRingsPresent(trig: Trig, rand: seq<real>, count: nat, i: nat)
    requires Pythagorean(trig) && AllUnit(rand) && PlanetSlots(count) <= i < count
    ensures var p := IntendedSaturnCloud(trig, rand, count)[i];
      2.2 * 2.2 <= p.x * p.x + p.z * p.z < 4.7 * 4.7
  {
    var planets := PlanetSlots(count);
    var d := 2 * planets + 3 * (i - planets);
    var a, b, c := Draw(rand, d), Draw(rand, d + 1), Draw(rand, d + 2);
    assert UnitDraw(a) && UnitDraw(b) && UnitDraw(c);
    var p := RingPoint(trig, a, b, c);
    assert SaturnRingParticle(trig, rand, planets, i - planets) == p;
    assert IntendedSaturnCloud(trig, rand, count)[i] == p;
    RingPointBounds(trig, a, b, c);
    var r := 2.2 + b * 2.5;
    SquareBetween(2.2, r, 4.7);
    assert p.x * p.x + p.z * p.z == r * r;
  }

  lemma SquareBetween(lo: real, r: real, hi: real)
    requires 0.0 <= lo <= r < hi
    ensures lo * lo <= r * r < hi * hi
  {
    ProductNonnegative(r - lo, r + lo);
    assert r * r - lo * lo == (r - lo) * (r + lo);
    assert hi * hi - r * r == (hi - r) * (hi + r);
    ProductPositive(hi - r, hi + r);
  }

  /**
   * The code's cloud and the intended one agree exactly when the count is a
   * multiple of 5, as the app's 3000 is, or when the planet takes the only
   * particle.
   */
  lemma SaturnAsIntendedIffMultipleOfFive(trig: Trig, rand: seq<real>, count: nat)
    requires Pythagorean(trig) && AllUnit(rand)
    ensures SaturnCloud(trig, rand, count) == IntendedSaturnCloud(trig, rand, count) <==> count % 5 == 0 || count == 1
  {
    if count % 5 != 0 && count != 1 {
      var i := PlanetSlots(count);
      assert i < count;
      IntendedRingsPresent(trig, rand, count, i);
      assert SaturnCloud(trig, rand, count)[i] == ORIGIN;
    }
  }

  /** Planet points lie on the sphere of radius 1.5. */
  lemma SaturnPlanetRadius(trig: Trig, rand: seq<real>, i: nat)
    requires Pythagorean(trig)
    ensures SquaredNorm(SaturnPlanetParticle(trig, rand, i)) == PLANET_RADIUS * PLANET_RADIUS
  {
    SphericalOnSphere(trig, PLANET_RADIUS, Azimuth(Draw(rand, 2 * i)), PolarAngle(trig, Draw(rand, 2 * i + 1)));
  }

  /** Ring points: height in [−0.05, 0.05) and planar radius 2.2 + 2.5·r in [2.2, 4.7). */
  lemma RingPointBounds(trig: Trig, angleDraw: real, radiusDraw: real, heightDraw: real)
    requires Pythagorean(trig) && UnitDraw(angleDraw) && UnitDraw(radiusDraw) && UnitDraw(heightDraw)
    ensures var p := RingPoint(trig, angleDraw, radiusDraw, heightDraw);
      var r := 2.2 + radiusDraw * 2.5;
      -0.05 <= p.y < 0.05 && 2.2 <= r < 4.7 && p.x * p.x + p.z * p.z == r * r
  {
    var angle := angleDraw * PI * 2.0;
    var r := 2.2 + radiusDraw * 2.5;
    var c, s := trig.cos(angle), trig.sin(angle);
    assert s * s + c * c == 1.0;
    calc {
      (r * c) * (r * c) + (r * s) * (r * s);
      r * r * (c * c + s * s);
      r * r;
    }
  }

  // ---------------------------------------------------------------------
  // Flower: a rose r = 2·cos(4u) + 1 swept in 3D, two draws per particle

  function FlowerPoint(trig: Trig, uDraw: real, vDraw: real): Point
  {
    var u := uDraw * PI * 2.0;
    var v := vDraw * PI;
    var k := 4.0;
    var r := 2.0 * trig.cos(k * u) + 1.0;
    Point(r * trig.cos(u) * trig.sin(v), r * trig.cos(v), r * trig.sin(u) * trig.sin(v))
  }

  function FlowerParticle(trig: Trig, rand: seq<real>, i: nat): Point
  {
    FlowerPoint(trig, Draw(rand, 2 * i), Draw(rand, 2 * i + 1))
  }

  function FlowerCloud(trig: Trig, rand: seq<real>, count: nat): (ps: seq<Point>)
    ensures |ps| == count
  {
    seq(count, i requires 0 <= i < count => FlowerParticle(trig, rand, i))
  }

  method GenerateFlowerPoints(trig: Trig, rand: seq<real>, count: nat) returns (points: array<real>)
    requires |rand| >= 2 * count
    ensures points.Length == 3 * count
    ensures points[..] == Flatten(FlowerCloud(trig, rand, count))
  {
    points := new real[count * 3](_ => 0.0);
    FillParticles(points, 0, count, (i: nat) => FlowerParticle(trig, rand, i));
    assert points[..] == Flatten(FlowerCloud(trig, rand, count));
  }

  /** A flower point lies at distance |2·cos(4u) + 1| from the origin, hence within 3. */
  lemma FlowerRadius(trig: Trig, uDraw: real, vDraw: real)
    requires Pythagorean(trig)
    ensures var u := uDraw * PI * 2.0;
      var r := 2.0 * trig.cos(4.0 * u) + 1.0;
      SquaredNorm(FlowerPoint(trig, uDraw, vDraw)) == r * r <= 9.0
  {
    var u := uDraw * PI * 2.0;
    var v := vDraw * PI;
    var r := 2.0 * trig.cos(4.0 * u) + 1.0;
    var p := FlowerPoint(trig, uDraw, vDraw);
    SphericalOnSphere(trig, r, u, v);
    var q := SphericalPoint(trig, r, u, v);
    assert p.x == q.x && p.y == q.z && p.z == q.y;
    TrigBounded(trig, 4.0 * u);
    SquareAtMostNine(r);
  }

  lemma SquareAtMostNine(r: real)
    requires -3.0 <= r <= 3.0
    ensures r * r <= 9.0
  {
    assert 9.0 - r * r == (3.0 - r) * (3.0 + r);
    ProductNonnegative(3.0 - r, 3.0 + r);
  }

  // ---------------------------------------------------------------------
  // Buddha: three stacked squashed spheres; the first draw picks the region
  // (below 0.4 base, below 0.8 torso, otherwise head), two more give the angles

  function BuddhaPoint(trig: Trig, section: real, thetaDraw: real, phiDraw: real): Point
  {
    var theta := Azimuth(thetaDraw);
    var phi := PolarAngle(trig, phiDraw);
    if section < 0.4 then
      var cy, r := -1.5, 1.5;
      Point(r * trig.sin(phi) * trig.cos(theta) * 1.2,
            cy + r * trig.sin(phi) * trig.sin(theta) * 0.6,
            r * trig.cos(phi))
    else if section < 0.8 then
      var cy, r := 0.0, 1.0;
      Point(r * trig.sin(phi) * trig.cos(theta),
            cy + r * trig.sin(phi) * trig.sin(theta),
            r * trig.cos(phi) * 0.8)
    else
      var cy, r := 1.4, 0.6;
      Point(r * trig.sin(phi) * trig.cos(theta),
            cy + r * trig.sin(phi) * trig.sin(theta),
            r * trig.cos(phi))
  }

  function BuddhaParticle(trig: Trig, rand: seq<real>, i: nat): Point
  {
    BuddhaPoint(trig, Draw(rand, 3 * i), Draw(rand, 3 * i + 1), Draw(rand, 3 * i + 2))
  }

  function BuddhaCloud(trig: Trig, rand: seq<real>, count: nat): (ps: seq<Point>)
    ensures |ps| == count
  {
    seq(count, i requires 0 <= i < count => BuddhaParticle(trig, rand, i))
  }

  method GenerateBuddhaPoints(trig: Trig, rand: seq<real>, count: nat) returns (points: array<real>)
    requires |rand| >= 3 * count
    ensures points.Length == 3 * count
    ensures points[..] == Flatten(BuddhaCloud(trig, rand, count))
  {
    points := new real[count * 3](_ => 0.0);
    FillParticles(points, 0, count, (i: nat) => BuddhaParticle(trig, rand, i));
    assert points[..] == Flatten(BuddhaCloud(trig, rand, count));
  }

  /**
   * The first draw decides the region, and each region is a sphere squashed
   * and shifted as the code draws it: the base centred at y = −1.5 with
   * radius 1.5, x stretched by 1.2 and y by 0.6; the torso of radius 1 with z
   * squashed by 0.8; the head centred at y = 1.4 with radius 0.6.
   */
  lemma BuddhaRegions(trig: Trig, section: real, thetaDraw: real, phiDraw: real)
    requires Pythagorean(trig)
    ensures var p := BuddhaPoint(trig, section, thetaDraw, phiDraw);
      (section < 0.4 ==>
        (p.x / 1.2) * (p.x / 1.2) + ((p.y + 1.5) / 0.6) * ((p.y + 1.5) / 0.6) + p.z * p.z == 1.5 * 1.5)
      && (0.4 <= section < 0.8 ==>
        p.x * p.x + p.y * p.y + (p.z / 0.8) * (p.z / 0.8) == 1.0)
      && (0.8 <= section ==>
        p.x * p.x + (p.y - 1.4) * (p.y - 1.4) + p.z * p.z == 0.6 * 0.6)
  {
    var theta := Azimuth(thetaDraw);
    var phi := PolarAngle(trig, phiDraw);
    var p := BuddhaPoint(trig, section, thetaDraw, phiDraw);
    if section < 0.4 {
      var q := SphericalPoint(trig, 1.5, theta, phi);
      SphericalOnSphere(trig, 1.5, theta, phi);
      assert p.x / 1.2 == q.x && (p.y + 1.5) / 0.6 == q.y && p.z == q.z;
    } else if section < 0.8 {
      var q := SphericalPoint(trig, 1.0, theta, phi);
      SphericalOnSphere(trig, 1.0, theta, phi);
      assert p.x == q.x && p.y == q.y && p.z / 0.8 == q.z;
    } else {
      var q := SphericalPoint(trig, 0.6, theta, phi);
      SphericalOnSphere(trig, 0.6, theta, phi);
      assert p.x == q.x && p.y - 1.4 == q.y && p.z == q.z;
    }
  }

  // ---------------------------------------------------------------------
  // Fireworks: a uniform direction and a radius 4·r, three draws per particle
  // (azimuth, polar angle, radius)

  function FireworksPoint(trig: Trig, thetaDraw: real, phiDraw: real, radiusDraw: real): Point
  {
    SphericalPoint(trig, radiusDraw * 4.0, Azimuth(thetaDraw), PolarAngle(trig, phiDraw))
  }

  function FireworksParticle(trig: Trig, rand: seq<real>, i: nat): Point
  {
    FireworksPoint(trig, Draw(rand, 3 * i), Draw(rand, 3 * i + 1), Draw(rand, 3 * i + 2))
  }

  function FireworksCloud(trig: Trig, rand: seq<real>, count: nat): (ps: seq<Point>)
    ensures |ps| == count
  {
    seq(count, i requires 0 <= i < count => FireworksParticle(trig, rand, i))
  }

  method GenerateFireworksPoints(trig: Trig, rand: seq<real>, count: nat) returns (points: array<real>)
    requires |rand| >= 3 * count
    ensures points.Length == 3 * count
    ensures points[..] == Flatten(FireworksCloud(trig, rand, count))
  {
    points := new real[count * 3](_ => 0.0);
    FillParticles(points, 0, count, (i: nat) => FireworksParticle(trig, rand, i));
    assert points[..] == Flatten(FireworksCloud(trig, rand, count));
  }

  /** A fireworks point lies at distance 4·r from the origin, inside the ball of radius 4. */
  lemma FireworksInBall(trig: Trig, thetaDraw: real, phiDraw: real, radiusDraw: real)
    requires Pythagorean(trig) && UnitDraw(radiusDraw)
    ensures var r := radiusDraw * 4.0;
      SquaredNorm(FireworksPoint(trig, thetaDraw, phiDraw, radiusDraw)) == r * r
      && 0.0 <= r < 4.0 && r * r < 16.0
  {
    var r := radiusDraw * 4.0;
    SphericalOnSphere(trig, r, Azimuth(thetaDraw), PolarAngle(trig, phiDraw));
    SquareBelow(r, 4.0);
  }

  /** With draws in [0, 1) the whole fireworks cloud lies strictly inside the ball of radius 4. */
  lemma FireworksCloudInBall(trig: Trig, rand: seq<real>, count: nat)
    requires |rand| >= 3 * count && AllUnit(rand) && Pythagorean(trig)
    ensures forall i :: 0 <= i < count ==> SquaredNorm(FireworksCloud(trig, rand, count)[i]) < 16.0
  {
    forall i | 0 <= i < count
      ensures SquaredNorm(FireworksCloud(trig, rand, count)[i]) < 16.0
    {
      FireworksInBall(trig, Draw(rand, 3 * i), Draw(rand, 3 * i + 1), Draw(rand, 3 * i + 2));
    }
  }

  lemma SquareBelow(a: real, b: real)
    requires 0.0 <= a < b
    ensures a * a < b * b
  {
    assert b * b - a * a == (b - a) * (b + a);
    ProductNonnegative(b - a, b + a);
    assert (b - a) * (b + a) != 0.0;
  }
}
