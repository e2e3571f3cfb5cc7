/** Game constants and the kinematic tables of a car: turning curvature as a
    piecewise-linear function of speed, the turning radius derived from it,
    and the throttle acceleration as a function of speed. All arithmetic is
    over the reals (the Java code computes in `double` and `float`). */
module Constants {
  import opened Common

  /** Half the length of the field, from the centre to a back wall. */
  const HalfLength: real := 5120.0

  /** Top speed with boost. */
  const BoostedMaxSpeed: real := 2300.0

  /** Top speed on throttle alone. */
  const MaxSpeed: real := 1410.0

  /** Speed from which on the curvature table gives 0. */
  const CurvatureLimit: real := 2500.0

  /** Largest curvature in the table, reached at rest. */
  const MaxCurvature: real := 0.0069

  /** Steepest slope of the curvature table (that of its first piece). */
  const CurvatureSlope: real := 0.00000584

  /** Piece `i` of the curvature table, a line `a - b * v`. */
  function CurvatureLine(i: nat, v: real): real
    requires i < 5
  {
    match i
    case 0 => 0.006900 - 0.00000584 * v
    case 1 => 0.005610 - 0.00000326 * v
    case 2 => 0.004300 - 0.00000195 * v
    case 3 => 0.003025 - 0.00000110 * v
    case 4 => 0.001800 - 0.00000040 * v
  }

  /** Lower end of the speed interval of piece `i`; piece `i` covers
      [Breakpoint(i), Breakpoint(i + 1)). */
  function Breakpoint(i: nat): real
    requires i < 6
  {
    [0.0, 500.0, 1000.0, 1500.0, 1750.0, 2500.0][i]
  }

  /** The piece of the curvature table whose interval holds `v`. */
  function PieceIndex(v: real): (i: nat)
    requires 0.0 <= v < CurvatureLimit
    ensures i < 5 && Breakpoint(i) <= v < Breakpoint(i + 1)
  {
    if v < 500.0 then 0
    else if v < 1000.0 then 1
    else if v < 1500.0 then 2
    else if v < 1750.0 then 3
    else 4
  }

  /** The curvature (the reciprocal of the turning radius) at speed `v`. */
  function Curvature(v: real): (k: real)
    ensures 0.0 <= v < CurvatureLimit ==> 0.0 < k <= MaxCurvature
    ensures !(0.0 <= v < CurvatureLimit) ==> k == 0.0
    ensures 0.0 <= v < CurvatureLimit ==> k == CurvatureLine(PieceIndex(v), v)
  {
    if 0.0 <= v && v < 500.0 then CurvatureLine(0, v)
    else if 500.0 <= v && v < 1000.0 then CurvatureLine(1, v)
    else if 1000.0 <= v && v < 1500.0 then CurvatureLine(2, v)
    else if 1500.0 <= v && v < 1750.0 then CurvatureLine(3, v)
    else if 1750.0 <= v && v < 2500.0 then CurvatureLine(4, v)
    else 0.0
  }

  /** Adjacent pieces of the curvature table meet at the four inner
      breakpoints. */
  lemma CurvaturePiecesMeet(i: nat)
    requires 1 <= i < 5
    ensures CurvatureLine(i - 1, Breakpoint(i)) == CurvatureLine(i, Breakpoint(i)) == Curvature(Breakpoint(i))
  {
  }

  /** At the outer breakpoint the table drops from 0.0008 to 0. */
  lemma CurvatureDropsAtLimit()
    ensures CurvatureLine(4, CurvatureLimit) == 0.0008
    ensures Curvature(CurvatureLimit) == 0.0
  {
  }

  /** On [0, 2500) curvature strictly decreases with speed, and never by more
      than the steepest slope times the change of speed: the table is
      continuous there. */
  lemma {:induction false} CurvatureContinuousDecreasing(v: real, w: real)
    requires 0.0 <= v < w < CurvatureLimit
    ensures Curvature(w) < Curvature(v)
    ensures Curvature(v) - Curvature(w) <= CurvatureSlope * (w - v)
    decreases 4 - PieceIndex(v)
  {
    if v < 500.0 && 500.0 < w {
      CurvatureContinuousDecreasing(500.0, w);
    } else if v < 1000.0 && 1000.0 < w {
      CurvatureContinuousDecreasing(1000.0, w);
    } else if v < 1500.0 && 1500.0 < w {
      CurvatureContinuousDecreasing(1500.0, w);
    } else if v < 1750.0 && 1750.0 < w {
      CurvatureContinuousDecreasing(1750.0, w);
    }
  }

  /** Curvature never increases with speed on v >= 0. */
  lemma CurvatureNonIncreasing(v: real, w: real)
    requires 0.0 <= v <= w
    ensures Curvature(w) <= Curvature(v)
  {
    if v < w < CurvatureLimit {
      CurvatureContinuousDecreasing(v, w);
    }
  }

  /** The turning radius at speed `v`: 0 at rest, without a division, and
      otherwise the reciprocal of the curvature. Where the curvature is 0 the
      Java division gives an infinite radius, modelled as `None`. */
  function Radius(v: real): (r: Option<real>)
    ensures v == 0.0 ==> r == Some(0.0)
    ensures r.None? <==> v < 0.0 || v >= CurvatureLimit
    ensures r.Some? && v != 0.0 ==> r.value > 0.0 && r.value * Curvature(v) == 1.0
  {
    if v == 0.0 then Some(0.0)
    else
      var k := Curvature(v);
      if k == 0.0 then None else Some(1.0 / k)
  }

  /** The radius never shrinks as speed grows on (0, 2500). */
  lemma RadiusNonDecreasing(v: real, w: real)
    requires 0.0 < v <= w < CurvatureLimit
    ensures Radius(v).value <= Radius(w).value
  {
    CurvatureNonIncreasing(v, w);
    ReciprocalAntitone(Curvature(w), Curvature(v));
  }

  lemma ReciprocalAntitone(x: real, y: real)
    requires 0.0 < x <= y
    ensures 1.0 / y <= 1.0 / x
  {
    assert 1.0 / y * y == 1.0;
    assert 1.0 / x * x == 1.0;
    if 1.0 / x < 1.0 / y {
      MulLess(1.0 / x, 1.0 / y, x, y);
      assert false;
    }
  }

  /** Strict on the left factor and monotone on the right one. */
  lemma MulLess(a: real, b: real, x: real, y: real)
    requires 0.0 < a < b && 0.0 < x <= y
    ensures a * x < b * y
  {
    assert a * x < b * x;
    assert b * x <= b * y;
  }

  /** Forward extent of a turn through an angle whose sine is `sinAngle`;
      `None` where the radius is infinite. */
  function TurnDepth(v: real, sinAngle: real): (d: Option<real>)
    ensures d.Some? <==> Radius(v).Some?
    ensures d.Some? ==> d.value == Radius(v).value * sinAngle
    ensures v == 0.0 ==> d == Some(0.0)
  {
    match Radius(v)
    case None => None
    case Some(r) => Some(r * sinAngle)
  }

  /** Sideways extent of a turn through an angle whose cosine is `cosAngle`. */
  function TurnWidth(v: real, cosAngle: real): (w: Option<real>)
    ensures w.Some? <==> Radius(v).Some?
    ensures w.Some? ==> w.value == Radius(v).value * cosAngle
    ensures v == 0.0 ==> w == Some(0.0)
  {
    match Radius(v)
    case None => None
    case Some(r) => Some(r * cosAngle)
  }

  /** For a genuine angle (sin^2 + cos^2 = 1) the depth and the width of a
      turn lie on the circle of the turning radius. */
  lemma TurnOnCircle(v: real, sinAngle: real, cosAngle: real)
    requires sinAngle * sinAngle + cosAngle * cosAngle == 1.0
    requires Radius(v).Some?
    ensures var r, d, w := Radius(v).value, TurnDepth(v, sinAngle).value, TurnWidth(v, cosAngle).value;
      d * d + w * w == r * r
  {
    var r := Radius(v).value;
    SquareOfProduct(r, sinAngle);
    SquareOfProduct(r, cosAngle);
    assert r * r * (sinAngle * sinAngle) + r * r * (cosAngle * cosAngle) == r * r * (sinAngle * sinAngle + cosAngle * cosAngle);
  }

  lemma SquareOfProduct(r: real, s: real)
    ensures (r * s) * (r * s) == r * r * (s * s)
  {
  }

  /** Length of the arc driven while turning through `angle` radians. */
  function ArcLength(v: real, angle: real): (l: Option<real>)
    ensures l.Some? <==> Radius(v).Some?
    ensures l.Some? ==> l.value >= 0.0 && l.value == Radius(v).value * Abs(angle)
    ensures v == 0.0 ==> l == Some(0.0)
  {
    match Radius(v)
    case None => None
    case Some(r) =>
      AbsOfScaled(r, angle);
      Some(Abs(r * angle))
  }

  /** Scaling by a non-negative factor commutes with the absolute value. */
  lemma AbsOfScaled(r: real, a: real)
    requires r >= 0.0
    ensures Abs(r * a) == r * Abs(a)
  {
    if a < 0.0 {
      assert r * a == -(r * -a);
      assert r * -a >= 0.0;
    } else {
      assert r * a >= 0.0;
    }
  }

  /** The throttle acceleration at speed `v` as the Java code computes it:
      `1600 - v` below 1400, `(v - 1400) * 20` on [1400, 1410), 0 on
      [1410, 2300), and an IllegalArgumentException from 2300 on. */
  function AccelerationAsWritten(v: real): (r: Result<real>)
    ensures r.Err? <==> v >= BoostedMaxSpeed
    ensures r.Err? ==> r.error == IllegalArgument
    ensures r.Ok? ==> r.value >= 0.0
    ensures v < 1400.0 ==> r == Ok(1600.0 - v)
    ensures 1400.0 <= v < MaxSpeed ==> r == Ok((v - 1400.0) * 20.0)
    ensures MaxSpeed <= v < BoostedMaxSpeed ==> r == Ok(0.0)
  {
    if v < 1400.0 then Ok(1600.0 - v)
    else if v < 1410.0 then Ok((v - 1400.0) * 20.0)
    else if v >= 1410.0 && v < 2300.0 then Ok(0.0)
    else Err(IllegalArgument)
  }

  /** The ramp between 1400 and 1410 rises with speed: acceleration falls
      from just over 200 to 0 at 1400 and then climbs back to 100 at 1405. */
  lemma AccelerationAsWrittenJumps()
    ensures AccelerationAsWritten(1399.5) == Ok(200.5)
    ensures AccelerationAsWritten(1400.0) == Ok(0.0)
    ensures AccelerationAsWritten(1405.0) == Ok(100.0)
    ensures AccelerationAsWritten(1410.0) == Ok(0.0)
  {
  }

  /** The throttle acceleration with the ramp on [1400, 1410) falling from
      200 to 0, so that it meets both neighbouring pieces. */
  function Acceleration(v: real): (r: Result<real>)
    ensures r.Err? <==> v >= BoostedMaxSpeed
    ensures r.Err? ==> r.error == IllegalArgument
    ensures r.Ok? ==> 0.0 <= r.value
    ensures !(1400.0 <= v < MaxSpeed) ==> r == AccelerationAsWritten(v)
  {
    if v < 1400.0 then Ok(1600.0 - v)
    else if v < 1410.0 then Ok((1410.0 - v) * 20.0)
    else if v >= 1410.0 && v < 2300.0 then Ok(0.0)
    else Err(IllegalArgument)
  }

  /** The corrected acceleration never increases with speed and changes by
      at most 20 per unit of speed: it is continuous below 2300. */
  lemma AccelerationContinuousNonIncreasing(v: real, w: real)
    requires v <= w < BoostedMaxSpeed
    ensures Acceleration(w).value <= Acceleration(v).value
    ensures Acceleration(v).value - Acceleration(w).value <= 20.0 * (w - v)
  {
  }

  /** Sample values: both versions give 400 at 1200 and 100 at 1405. */
  lemma AccelerationSamples()
    ensures AccelerationAsWritten(1200.0) == Acceleration(1200.0) == Ok(400.0)
    ensures AccelerationAsWritten(1405.0) == Acceleration(1405.0) == Ok(100.0)
  {
  }
}
