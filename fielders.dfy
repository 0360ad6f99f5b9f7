/** randomFielderPositions: fielders spread round a ring, one per sector of
    the full turn, at a random distance and a random angle in their sector.
    Math.random's draws are inputs, and Math.cos and Math.sin are passed in
    as uninterpreted functions. */
module Fielders {
  import opened Babylon

  /** Outer radius of the ring (in exact arithmetic the distance stays below it). */
  const FIELD_RADIUS: real := 50.0
  /** Inner radius of the ring. */
  const MIN_RADIUS: real := 25.0
  /** Radians subtracted from every angle: a fixed turn of the whole layout. */
  const ANGLE_OFFSET: real := 0.5

  /** The two Math.random() results one loop iteration uses, in call order:
      first for the distance, then for the angle. */
  datatype Draw = Draw(radial: real, angular: real)

  /** What Math.random() can return. */
  predicate IsUnitDraw(r: real)
  {
    0.0 <= r < 1.0
  }

  /** 2 * PI / numFielders: the width of one sector. For a count of zero or
      less the loop never runs, so the value (Infinity or negative in the
      source) is never used; it is 0 here. */
  function AngleStep(numFielders: int): (step: real)
    ensures numFielders > 0 ==> step > 0.0 && numFielders as real * step == 2.0 * PI
  {
    if numFielders > 0 then 2.0 * PI / numFielders as real else 0.0
  }

  /** A fielder's distance from the centre for radial draw r. */
  function Distance(r: real): real
  {
    r * (FIELD_RADIUS - MIN_RADIUS) + MIN_RADIUS
  }

  /** The angle of fielder i for sector width `step` and angular draw r. */
  function Angle(i: int, step: real, r: real): real
  {
    i as real * step + (step * r - ANGLE_OFFSET)
  }

  /** The point at `distance` and `angle` on the ground plane y = 0. */
  function Placed(distance: real, angle: real, cos: real -> real, sin: real -> real): Vec3
  {
    Vec3(distance * cos(angle), 0.0, distance * sin(angle))
  }

  /** The position the loop computes for fielder i. */
  function FielderAt(i: int, numFielders: int, d: Draw, cos: real -> real, sin: real -> real): Vec3
  {
    Placed(Distance(d.radial), Angle(i, AngleStep(numFielders), d.angular), cos, sin)
  }

  method RandomFielderPositions(numFielders: int, draws: seq<Draw>, cos: real -> real, sin: real -> real)
    returns (positions: seq<Vec3>)
    requires numFielders <= |draws|
    ensures |positions| == if numFielders > 0 then numFielders else 0
    ensures forall i :: 0 <= i < |positions| ==>
      positions[i] == FielderAt(i, numFielders, draws[i], cos, sin) && positions[i].y == 0.0
  {
    positions := [];
    var angleStep := AngleStep(numFielders);
    var i := 0;
    while i < numFielders
      invariant 0 <= i <= |draws|
      invariant numFielders > 0 ==> i <= numFielders
      invariant numFielders <= 0 ==> i == 0
      invariant |positions| == i
      invariant forall k :: 0 <= k < i ==> positions[k] == FielderAt(k, numFielders, draws[k], cos, sin)
    {
      var distance := draws[i].radial * (FIELD_RADIUS - MIN_RADIUS) + MIN_RADIUS;
      var angleVariance := angleStep * draws[i].angular - ANGLE_OFFSET;
      var angle := i as real * angleStep + angleVariance;
      var x := distance * cos(angle);
      var z := distance * sin(angle);
      assert distance == Distance(draws[i].radial) && angle == Angle(i, angleStep, draws[i].angular);
      assert Vec3(x, 0.0, z) == FielderAt(i, numFielders, draws[i], cos, sin);
      positions := positions + [Vec3(x, 0.0, z)];
      i := i + 1;
    }
  }

  /** In exact arithmetic, every distance lies in [25, 50). */
  lemma DistanceInRing(r: real)
    requires IsUnitDraw(r)
    ensures MIN_RADIUS <= Distance(r) < FIELD_RADIUS
  {
  }

  /** Fielder i's angle lies in its own sector shifted by -0.5:
      [i * step - 0.5, (i + 1) * step - 0.5). */
  lemma AngleInSector(i: int, step: real, r: real)
    requires step > 0.0 && IsUnitDraw(r)
    ensures i as real * step - ANGLE_OFFSET <= Angle(i, step, r) < (i + 1) as real * step - ANGLE_OFFSET
  {
    var jitter := step * r;
    MultiplyMonotone(step, 0.0, r);
    MultiplyStrictlyMonotone(step, r, 1.0);
    assert 0.0 <= jitter < step;
    Distribute(i as real, 1.0, step);
  }

  /** Fielders are laid out counter-clockwise in index order, and all of
      them within less than one full turn: no two share a direction. */
  lemma AnglesIncreaseWithinOneTurn(numFielders: int, draws: seq<Draw>, i: int, j: int)
    requires 0 <= i < j < numFielders <= |draws|
    requires IsUnitDraw(draws[i].angular) && IsUnitDraw(draws[j].angular)
    ensures Angle(i, AngleStep(numFielders), draws[i].angular) < Angle(j, AngleStep(numFielders), draws[j].angular)
    ensures Angle(j, AngleStep(numFielders), draws[j].angular) - Angle(i, AngleStep(numFielders), draws[i].angular) < 2.0 * PI
  {
    var step := AngleStep(numFielders);
    var ai := Angle(i, step, draws[i].angular);
    var aj := Angle(j, step, draws[j].angular);
    AngleInSector(i, step, draws[i].angular);
    AngleInSector(j, step, draws[j].angular);
    var iLow, iHigh := i as real * step, (i + 1) as real * step;
    var jLow, jHigh := j as real * step, (j + 1) as real * step;
    var turn := numFielders as real * step;
    assert ai < iHigh - ANGLE_OFFSET && jLow - ANGLE_OFFSET <= aj;
    assert iLow - ANGLE_OFFSET <= ai && aj < jHigh - ANGLE_OFFSET;
    assert iHigh <= jLow by {
      MultiplyMonotone(step, (i + 1) as real, j as real);
    }
    assert jHigh - iLow <= turn by {
      Distribute((j + 1 - i) as real, i as real, step);
      MultiplyMonotone(step, (j + 1 - i) as real, numFielders as real);
    }
    assert turn == 2.0 * PI;
  }

  /** With cos and sin satisfying cos(a)^2 + sin(a)^2 = 1, every fielder
      stands on the ground at a distance in [25, 50) from the centre. */
  lemma FielderOnRing(i: int, numFielders: int, d: Draw, cos: real -> real, sin: real -> real)
    requires IsUnitDraw(d.radial)
    requires forall a :: cos(a) * cos(a) + sin(a) * sin(a) == 1.0
    ensures FielderAt(i, numFielders, d, cos, sin).y == 0.0
    ensures var p := FielderAt(i, numFielders, d, cos, sin);
      MIN_RADIUS * MIN_RADIUS <= p.x * p.x + p.z * p.z < FIELD_RADIUS * FIELD_RADIUS
  {
    var distance := Distance(d.radial);
    var angle := Angle(i, AngleStep(numFielders), d.angular);
    var c, s := cos(angle), sin(angle);
    assert c * c + s * s == 1.0;
    assert (distance * c) * (distance * c) + (distance * s) * (distance * s) == distance * distance * (c * c + s * s);
    assert MIN_RADIUS <= distance < FIELD_RADIUS;
    assert MIN_RADIUS * MIN_RADIUS <= distance * distance by {
      MultiplyMonotone(distance, MIN_RADIUS, distance);
      MultiplyMonotone(MIN_RADIUS, MIN_RADIUS, distance);
    }
    assert distance * distance < FIELD_RADIUS * FIELD_RADIUS by {
      MultiplyStrictlyMonotone(distance, distance, FIELD_RADIUS);
      MultiplyStrictlyMonotone(FIELD_RADIUS, distance, FIELD_RADIUS);
    }
  }

  lemma Distribute(a: real, b: real, k: real)
    ensures (a + b) * k == a * k + b * k
  {
  }

  lemma MultiplyMonotone(k: real, a: real, b: real)
    requires k >= 0.0 && a <= b
    ensures k * a <= k * b
  {
  }

  lemma MultiplyStrictlyMonotone(k: real, a: real, b: real)
    requires k > 0.0 && a < b
    ensures k * a < k * b
  {
  }
}
