/**
 * Angle, mirroring, voltage and intersection helpers of the drive library
 * (include/654X_Drive/util.h). The header documents each helper; the model
 * follows those documented contracts over exact reals.
 */
module DriveUtil {

  /** A field coordinate in inches. */
  datatype Point = Point(x: real, y: real)

  /** Rotation direction preference of a turn or swing. */
  datatype Direction = Fastest | CW | CCW

  function Abs(v: real): real { if v < 0.0 then -v else v }

  function Max(a: real, b: real): real { if a < b then b else a }

  /** x is an integer. */
  predicate IsWhole(x: real) { x.Floor as real == x }

  /** a and b differ by a whole multiple of m. */
  predicate Congruent(a: real, b: real, m: real)
    requires m != 0.0
  {
    IsWhole((a - b) / m)
  }

  // ---------------------------------------------------------------- clamp

  /** Clamps input into [min, max]; no check that min <= max. */
  function Clamp(input: real, min: real, max: real): (r: real)
    ensures min <= max ==> min <= r <= max
    ensures min <= input <= max ==> r == input
    ensures input > max ==> r == max
    ensures input <= max && input < min ==> r == min
  {
    if input > max then max
    else if input < min then min
    else input
  }

  // ------------------------------------------------------ angle reduction

  lemma FloorBounds(q: real)
    ensures q.Floor as real <= q < q.Floor as real + 1.0
  {
  }

  lemma WholeInt(k: int)
    ensures IsWhole(k as real)
  {
  }

  /** The angle equivalent to `angle` in [-180, 180). */
  function ReduceNegative180To180(angle: real): (r: real)
    ensures -180.0 <= r < 180.0
    ensures Congruent(r, angle, 360.0)
  {
    var q := (angle + 180.0) / 360.0;
    FloorBounds(q);
    WholeInt(-q.Floor);
    angle - 360.0 * q.Floor as real
  }

  /**
   * The angle equivalent to `angle` in [-90, 90); an angle with no
   * equivalent there is reflected by half a turn.
   */
  function ReduceNegative90To90(angle: real): (r: real)
    ensures -90.0 <= r < 90.0
    ensures Congruent(r, angle, 180.0)
  {
    var q := (angle + 90.0) / 180.0;
    FloorBounds(q);
    WholeInt(-q.Floor);
    angle - 180.0 * q.Floor as real
  }

  /** The angle equivalent to `angle` in [0, 360). */
  function Reduce0To360(angle: real): (r: real)
    ensures 0.0 <= r < 360.0
    ensures Congruent(r, angle, 360.0)
  {
    var q := angle / 360.0;
    FloorBounds(q);
    WholeInt(-q.Floor);
    angle - 360.0 * q.Floor as real
  }

  lemma QuotientBelowOne(d: real, m: real)
    requires m > 0.0 && -m < d < m
    ensures -1.0 < d / m < 1.0
  {
    var q := d / m;
    assert q * m == d;
    assert (q - 1.0) * m < 0.0;
    assert (q + 1.0) * m > 0.0;
  }

  /** Two representatives of one angle class in a half-open window of width m coincide. */
  lemma WindowRepresentativeUnique(a: real, b: real, lo: real, m: real)
    requires m > 0.0
    requires lo <= a < lo + m && lo <= b < lo + m
    requires Congruent(a, b, m)
    ensures a == b
  {
    QuotientBelowOne(a - b, m);
  }

  lemma QuotientSum(x: real, y: real, m: real)
    requires m != 0.0
    ensures (x + y) / m == x / m + y / m
    ensures (-x) / m == -(x / m)
  {
  }

  lemma CongruentNeg(a: real, b: real, m: real)
    requires m != 0.0
    requires Congruent(a, b, m)
    ensures Congruent(b, a, m)
    ensures Congruent(-a, -b, m)
  {
    var q := (a - b) / m;
    QuotientSum(a - b, 0.0, m);
    assert (b - a) / m == -q && (-a - -b) / m == -q;
    WholeInt(-q.Floor);
  }

  lemma CongruentTrans(a: real, b: real, c: real, m: real)
    requires m != 0.0
    requires Congruent(a, b, m) && Congruent(b, c, m)
    ensures Congruent(a, c, m)
  {
    QuotientSum(a - b, b - c, m);
    WholeInt(((a - b) / m).Floor + ((b - c) / m).Floor);
  }

  /** a and a + k m are congruent modulo m. */
  lemma CongruentWholeTurns(a: real, k: int, m: real)
    requires m != 0.0
    ensures Congruent(a + m * k as real, a, m)
  {
    assert (a + m * k as real - a) / m == k as real;
    WholeInt(k);
  }

  /** The reduction to [-180, 180) is the only representative there. */
  lemma {:induction false} Reduce180Unique(angle: real, r: real)
    requires -180.0 <= r < 180.0
    requires Congruent(r, angle, 360.0)
    ensures r == ReduceNegative180To180(angle)
  {
    var s := ReduceNegative180To180(angle);
    CongruentNeg(s, angle, 360.0);
    CongruentTrans(r, angle, s, 360.0);
    WindowRepresentativeUnique(r, s, -180.0, 360.0);
  }

  /** Whole turns added to an angle do not change its reduction. */
  lemma {:induction false} Reduce180Periodic(angle: real, k: int)
    ensures ReduceNegative180To180(angle + 360.0 * k as real) == ReduceNegative180To180(angle)
  {
    var r := ReduceNegative180To180(angle);
    var b := angle + 360.0 * k as real;
    CongruentWholeTurns(angle, k, 360.0);
    CongruentNeg(b, angle, 360.0);
    CongruentTrans(r, angle, b, 360.0);
    Reduce180Unique(b, r);
  }

  // ------------------------------------------------------------ mirroring

  /** Mirrors an angle across the 0/360 axis when `mirror` holds. */
  function MirrorAngle(angle: real, mirror: bool): real {
    if mirror then 360.0 - angle else angle
  }

  /** A mirrored angle points the opposite way round the circle: it is the negated angle, modulo 360. */
  lemma MirrorAngleNegates(angle: real, mirror: bool)
    ensures mirror ==> Congruent(MirrorAngle(angle, mirror), -angle, 360.0)
    ensures !mirror ==> MirrorAngle(angle, mirror) == angle
  {
    assert mirror ==> (MirrorAngle(angle, mirror) - -angle) / 360.0 == 1.0;
  }

  function MirrorDirection(dir: Direction, mirror: bool): Direction {
    if !mirror then dir
    else match dir
      case CW => CCW
      case CCW => CW
      case Fastest => Fastest
  }

  function MirrorX(x: real, mirror: bool): real { if mirror then -x else x }

  function MirrorY(y: real, mirror: bool): real { if mirror then -y else y }

  /** CW and CCW swap under mirroring, FASTEST is fixed, and no mirroring is the identity. */
  lemma MirrorDirectionCases(dir: Direction, mirror: bool)
    ensures !mirror ==> MirrorDirection(dir, mirror) == dir
    ensures mirror ==> (MirrorDirection(dir, mirror) == CW <==> dir == CCW)
    ensures mirror ==> (MirrorDirection(dir, mirror) == CCW <==> dir == CW)
    ensures MirrorDirection(dir, mirror) == Fastest <==> dir == Fastest
  {
  }

  /** Every mirror transform applied twice is the identity. */
  lemma MirrorInvolutions(angle: real, x: real, y: real, dir: Direction, mirror: bool)
    ensures MirrorAngle(MirrorAngle(angle, mirror), mirror) == angle
    ensures MirrorX(MirrorX(x, mirror), mirror) == x
    ensures MirrorY(MirrorY(y, mirror), mirror) == y
    ensures MirrorDirection(MirrorDirection(dir, mirror), mirror) == dir
    ensures mirror ==> MirrorX(x, mirror) == -x && MirrorY(y, mirror) == -y
  {
  }

  // ---------------------------------------------------------- angle error

  /**
   * Normalizes an angular error by direction preference: CW wraps a negative
   * error up by whole turns to the first non-negative value, CCW wraps a
   * positive error down to the first non-positive value, FASTEST reduces to
   * the shortest signed error.
   */
  function AngleError(error: real, dir: Direction): (r: real)
    ensures dir == CW ==> r >= 0.0
    ensures dir == CCW ==> r <= 0.0
    ensures dir == Fastest ==> -180.0 <= r < 180.0
    ensures Congruent(r, error, 360.0)
    ensures dir == CW && error >= 0.0 ==> r == error
    ensures dir == CCW && error <= 0.0 ==> r == error
  {
    WholeInt(0);
    match dir
    case Fastest => ReduceNegative180To180(error)
    case CW => if error < 0.0 then Reduce0To360(error) else error
    case CCW =>
      if error > 0.0 then
        CongruentNeg(Reduce0To360(-error), -error, 360.0);
        -Reduce0To360(-error)
      else error
  }

  /** On the errors a turn produces (|error| <= 360), CW and CCW wrap by a single turn. */
  lemma {:induction false} AngleErrorSingleWrap(error: real)
    ensures -360.0 <= error < 0.0 ==> AngleError(error, CW) == error + 360.0
    ensures 0.0 < error <= 360.0 ==> AngleError(error, CCW) == error - 360.0
  {
    if -360.0 <= error < 0.0 {
      var r := AngleError(error, CW);
      var w := error + 360.0;
      CongruentWholeTurns(error, 1, 360.0);
      CongruentNeg(w, error, 360.0);
      CongruentTrans(r, error, w, 360.0);
      WindowRepresentativeUnique(r, w, 0.0, 360.0);
    }
    if 0.0 < error <= 360.0 {
      var r := AngleError(error, CCW);
      var w := error - 360.0;
      CongruentWholeTurns(error, -1, 360.0);
      CongruentNeg(w, error, 360.0);
      CongruentTrans(r, error, w, 360.0);
      CongruentNeg(r, w, 360.0);
      if w == 0.0 {
        // the reduction of -360 is 0, the only representative in [0, 360)
        WindowRepresentativeUnique(-r, 0.0, 0.0, 360.0);
      } else {
        WindowRepresentativeUnique(-r, -w, -0.0, 360.0);
      }
    }
  }

  /** The shortest-path error is unchanged by adding whole turns to the raw error. */
  lemma {:induction false} AngleErrorFastestPeriodic(error: real, k: int)
    ensures AngleError(error + 360.0 * k as real, Fastest) == AngleError(error, Fastest)
  {
    Reduce180Periodic(error, k);
  }

  // -------------------------------------------------------------- voltage

  /**
   * Raises a non-zero output to at least the floor magnitude, keeping its
   * sign; zero is left alone.
   */
  function ClampMinVoltage(output: real, minVoltage: real): (r: real)
    ensures output == 0.0 ==> r == 0.0
    ensures output > 0.0 ==> r > 0.0 && r >= minVoltage
    ensures output < 0.0 ==> r < 0.0 && r <= -minVoltage
    ensures Abs(output) >= minVoltage ==> r == output
  {
    if output < 0.0 && output > -minVoltage then -minVoltage
    else if output > 0.0 && output < minVoltage then minVoltage
    else output
  }

  /** Largest voltage the drive motors take. */
  const MAX_VOLTAGE: real := 12.0

  /** Divisor that scales both sides so that neither exceeds 12 V. */
  function ScalingRatio(drive: real, heading: real): real {
    Max(Abs(drive + heading), Abs(drive - heading)) / MAX_VOLTAGE
  }

  function LeftVoltageScaling(drive: real, heading: real): real {
    var ratio := ScalingRatio(drive, heading);
    if ratio > 1.0 then (drive + heading) / ratio else drive + heading
  }

  function RightVoltageScaling(drive: real, heading: real): real {
    var ratio := ScalingRatio(drive, heading);
    if ratio > 1.0 then (drive - heading) / ratio else drive - heading
  }

  /**
   * The scaled side voltages never exceed 12 V and are the plain sum and
   * difference when those already fit.
   */
  lemma VoltageScalingBounds(drive: real, heading: real)
    ensures Abs(LeftVoltageScaling(drive, heading)) <= MAX_VOLTAGE
    ensures Abs(RightVoltageScaling(drive, heading)) <= MAX_VOLTAGE
    ensures Max(Abs(drive + heading), Abs(drive - heading)) <= MAX_VOLTAGE ==>
              LeftVoltageScaling(drive, heading) == drive + heading &&
              RightVoltageScaling(drive, heading) == drive - heading
  {
    var l, rt := drive + heading, drive - heading;
    var m := Max(Abs(l), Abs(rt));
    var ratio := ScalingRatio(drive, heading);
    if ratio > 1.0 {
      ScaledSide(l, m, ratio);
      ScaledSide(rt, m, ratio);
    }
  }

  /** Scaling keeps the sign of each unscaled side. */
  lemma VoltageScalingKeepsShape(drive: real, heading: real)
    ensures (LeftVoltageScaling(drive, heading) < 0.0 <==> drive + heading < 0.0)
    ensures (LeftVoltageScaling(drive, heading) == 0.0 <==> drive + heading == 0.0)
    ensures (RightVoltageScaling(drive, heading) < 0.0 <==> drive - heading < 0.0)
    ensures (RightVoltageScaling(drive, heading) == 0.0 <==> drive - heading == 0.0)
  {
    var l, rt := drive + heading, drive - heading;
    var m := Max(Abs(l), Abs(rt));
    var ratio := ScalingRatio(drive, heading);
    if ratio > 1.0 {
      ScaledSide(l, m, ratio);
      ScaledSide(rt, m, ratio);
    }
  }

  /** Scaling keeps the left-to-right ratio, so the curvature of the arc driven. */
  lemma VoltageScalingKeepsCurvature(drive: real, heading: real)
    ensures LeftVoltageScaling(drive, heading) * (drive - heading)
         == RightVoltageScaling(drive, heading) * (drive + heading)
  {
    var ratio := ScalingRatio(drive, heading);
    if ratio > 1.0 {
      CrossRatio(drive + heading, drive - heading, ratio);
    }
  }

  /** One side divided by the ratio: |side| <= m = 12 ratio gives |side / ratio| <= 12. */
  lemma ScaledSide(side: real, m: real, ratio: real)
    requires ratio > 1.0 && ratio == m / MAX_VOLTAGE && Abs(side) <= m
    ensures Abs(side / ratio) <= MAX_VOLTAGE
    ensures side / ratio < 0.0 <==> side < 0.0
    ensures side / ratio == 0.0 <==> side == 0.0
  {
    var q := side / ratio;
    assert q * ratio == side;
    assert (Abs(q) - MAX_VOLTAGE) * ratio <= 0.0;
  }

  lemma CrossRatio(l: real, rt: real, ratio: real)
    requires ratio != 0.0
    ensures (l / ratio) * rt == (rt / ratio) * l
  {
  }

  // ----------------------------------------------------------------- sign

  /** -1 for negative numbers and 1 otherwise, 0 included. */
  function Sign(v: real): real { if v < 0.0 then -1.0 else 1.0 }

  /**
   * Sign takes only the values -1 and 1, recovers v from |v|, and two signs
   * differ exactly when one value is negative and the other is not.
   */
  lemma SignFacts(v: real, w: real)
    ensures Sign(v) == -1.0 <==> v < 0.0
    ensures Sign(v) == 1.0 <==> v >= 0.0
    ensures Sign(0.0) == 1.0
    ensures Sign(v) * Abs(v) == v
    ensures Sign(v) != Sign(w) <==> (v < 0.0) != (w < 0.0)
  {
  }

  // ------------------------------------------------ circle and segment

  function Dot(p: Point, q: Point): real { p.x * q.x + p.y * q.y }

  function Sub(p: Point, q: Point): Point { Point(p.x - q.x, p.y - q.y) }

  function DistSq(p: Point, q: Point): real { Dot(Sub(p, q), Sub(p, q)) }

  /** The point at parameter t along the segment from p1 to p2. */
  function Lerp(p1: Point, p2: Point, t: real): Point {
    Point(p1.x + t * (p2.x - p1.x), p1.y + t * (p2.y - p1.y))
  }

  ghost predicate OnSegment(q: Point, p1: Point, p2: Point) {
    exists t :: 0.0 <= t <= 1.0 && q == Lerp(p1, p2, t)
  }

  /** Coefficients of |p1 + t (p2 - p1) - center|^2 - radius^2 as a quadratic in t. */
  function QuadA(p1: Point, p2: Point): real { Dot(Sub(p2, p1), Sub(p2, p1)) }

  function QuadB(center: Point, p1: Point, p2: Point): real {
    2.0 * Dot(Sub(p1, center), Sub(p2, p1))
  }

  function QuadC(center: Point, radius: real, p1: Point): real {
    Dot(Sub(p1, center), Sub(p1, center)) - radius * radius
  }

  function Discriminant(center: Point, radius: real, p1: Point, p2: Point): real {
    var b := QuadB(center, p1, p2);
    b * b - 4.0 * QuadA(p1, p2) * QuadC(center, radius, p1)
  }

  /** The two roots of the quadratic, given the square root of the discriminant. */
  function Roots(center: Point, p1: Point, p2: Point, root: real): (real, real)
    requires QuadA(p1, p2) > 0.0
  {
    var a, b := QuadA(p1, p2), QuadB(center, p1, p2);
    ((-b - root) / (2.0 * a), (-b + root) / (2.0 * a))
  }

  /** The exact square root of the discriminant, which the caller supplies. */
  predicate RootOfDiscriminant(center: Point, radius: real, p1: Point, p2: Point, root: real) {
    Discriminant(center, radius, p1, p2) >= 0.0 ==>
      root >= 0.0 && root * root == Discriminant(center, radius, p1, p2)
  }

  /**
   * The points where the closed segment p1-p2 meets the circle, in
   * increasing order of the segment parameter; a segment of one point
   * yields that point when it lies on the circle. `root` is the square
   * root of the discriminant.
   */
  function LineCircleIntersections(center: Point, radius: real, p1: Point, p2: Point, root: real): (r: seq<Point>)
    requires RootOfDiscriminant(center, radius, p1, p2, root)
    ensures |r| <= 2
    ensures forall i :: 0 <= i < |r| ==> DistSq(r[i], center) == radius * radius
    ensures forall i :: 0 <= i < |r| ==> OnSegment(r[i], p1, p2)
  {
    if QuadA(p1, p2) == 0.0 then
      assert Lerp(p1, p2, 0.0) == p1;
      if DistSq(p1, center) == radius * radius then [p1] else []
    else if Discriminant(center, radius, p1, p2) < 0.0 then []
    else
      var (t1, t2) := Roots(center, p1, p2, root);
      RootIsOnCircle(center, radius, p1, p2, root, t1);
      RootIsOnCircle(center, radius, p1, p2, root, t2);
      (if 0.0 <= t1 <= 1.0 then [Lerp(p1, p2, t1)] else []) +
      (if 0.0 <= t2 <= 1.0 then [Lerp(p1, p2, t2)] else [])
  }

  /** What every answer of line_circle_intersections satisfies: at most two points, on the circle and on the segment. */
  ghost predicate IntersectionsSound(ps: seq<Point>, center: Point, radius: real, p1: Point, p2: Point) {
    |ps| <= 2 &&
    forall k :: 0 <= k < |ps| ==> DistSq(ps[k], center) == radius * radius && OnSegment(ps[k], p1, p2)
  }

  /**
   * line_circle_intersections with the square root it takes of the
   * discriminant; an inexact square root that fails RootOfDiscriminant
   * yields no points.
   */
  function Intersections(center: Point, radius: real, p1: Point, p2: Point, sqrt: real -> real): (r: seq<Point>)
    ensures IntersectionsSound(r, center, radius, p1, p2)
  {
    var root := sqrt(Discriminant(center, radius, p1, p2));
    if RootOfDiscriminant(center, radius, p1, p2, root) then LineCircleIntersections(center, radius, p1, p2, root) else []
  }

  /**
   * Every point of the segment that lies on the circle is found: on a
   * proper segment the point's parameter solves the quadratic, so it is one
   * of the two roots; a one-point segment is its own answer.
   */
  lemma LineCircleComplete(center: Point, radius: real, p1: Point, p2: Point, root: real, t: real)
    requires RootOfDiscriminant(center, radius, p1, p2, root)
    requires 0.0 <= t <= 1.0
    requires DistSq(Lerp(p1, p2, t), center) == radius * radius
    ensures Lerp(p1, p2, t) in LineCircleIntersections(center, radius, p1, p2, root)
  {
    if QuadA(p1, p2) == 0.0 {
      PointSegment(p1, p2, t, center);
      PointSegmentComplete(center, radius, p1, p2, root);
    } else {
      QuadANonNegative(p1, p2);
      ProperSegmentComplete(center, radius, p1, p2, root, t);
    }
  }

  lemma QuadANonNegative(p1: Point, p2: Point)
    ensures QuadA(p1, p2) >= 0.0
  {
    NonNegativeSquare(p2.x - p1.x);
    NonNegativeSquare(p2.y - p1.y);
  }

  lemma PointSegmentComplete(center: Point, radius: real, p1: Point, p2: Point, root: real)
    requires RootOfDiscriminant(center, radius, p1, p2, root)
    requires QuadA(p1, p2) == 0.0 && DistSq(p1, center) == radius * radius
    ensures LineCircleIntersections(center, radius, p1, p2, root) == [p1]
  {
  }

  lemma ProperSegmentComplete(center: Point, radius: real, p1: Point, p2: Point, root: real, t: real)
    requires RootOfDiscriminant(center, radius, p1, p2, root)
    requires QuadA(p1, p2) > 0.0 && 0.0 <= t <= 1.0
    requires DistSq(Lerp(p1, p2, t), center) == radius * radius
    ensures Lerp(p1, p2, t) in LineCircleIntersections(center, radius, p1, p2, root)
  {
    var a, b, c := QuadA(p1, p2), QuadB(center, p1, p2), QuadC(center, radius, p1);
    QuadraticExpansion(center, radius, p1, p2, t);
    SolutionIsRoot(a, b, c, root, t);
    assert t == Roots(center, p1, p2, root).0 || t == Roots(center, p1, p2, root).1;
  }

  /** A segment whose squared length is zero is a single point. */
  lemma PointSegment(p1: Point, p2: Point, t: real, center: Point)
    requires QuadA(p1, p2) == 0.0
    ensures p1 == p2 && Lerp(p1, p2, t) == p1
    ensures DistSq(Lerp(p1, p2, t), center) == DistSq(p1, center)
  {
    var dx, dy := p2.x - p1.x, p2.y - p1.y;
    assert dx * dx + dy * dy == 0.0;
    SquareZero(dx, dy);
    assert p1.x == p2.x && p1.y == p2.y;
  }

  lemma SquareZero(u: real, v: real)
    requires u * u + v * v == 0.0
    ensures u == 0.0 && v == 0.0
  {
    NonNegativeSquare(u);
    NonNegativeSquare(v);
    assert u * u == 0.0 && v * v == 0.0;
    ZeroSquare(u);
    ZeroSquare(v);
  }

  lemma NonNegativeSquare(u: real)
    ensures u * u >= 0.0
  {
    if u < 0.0 {
      assert u * u == (-u) * (-u);
    }
  }

  lemma ZeroSquare(u: real)
    requires u * u == 0.0
    ensures u == 0.0
  {
    if u != 0.0 {
      ZeroProduct(u, u);
    }
  }

  /** A solution t of a t^2 + b t + c = 0, a > 0, makes the discriminant a square and is one of the two roots. */
  lemma SolutionIsRoot(a: real, b: real, c: real, root: real, t: real)
    requires a > 0.0 && a * t * t + b * t + c == 0.0
    requires b * b - 4.0 * a * c >= 0.0 ==> root >= 0.0 && root * root == b * b - 4.0 * a * c
    ensures b * b - 4.0 * a * c >= 0.0
    ensures t == (-b - root) / (2.0 * a) || t == (-b + root) / (2.0 * a)
  {
    var u := 2.0 * a * t + b;
    SquareOfSolution(a, b, c, t);
    assert b * b - 4.0 * a * c == u * u;
    SquareRootUnique(root, Abs(u));
    if u >= 0.0 {
      TimesQuotient(t, 2.0 * a, -b + root);
    } else {
      TimesQuotient(t, 2.0 * a, -b - root);
    }
  }

  lemma SquareOfSolution(a: real, b: real, c: real, t: real)
    requires a * t * t + b * t + c == 0.0
    ensures (2.0 * a * t + b) * (2.0 * a * t + b) == b * b - 4.0 * a * c
  {
    assert (2.0 * a * t + b) * (2.0 * a * t + b) == 4.0 * a * (a * t * t + b * t + c) + (b * b - 4.0 * a * c);
  }

  lemma TimesQuotient(t: real, y: real, x: real)
    requires y != 0.0 && t * y == x
    ensures t == x / y
  {
  }

  /**
   * With an exact square root, line_circle_intersections is complete:
   * every point of the segment at distance `radius` from the center is
   * among the points returned.
   */
  lemma IntersectionsComplete(center: Point, radius: real, p1: Point, p2: Point, sqrt: real -> real, q: Point)
    requires var d := Discriminant(center, radius, p1, p2);
      d >= 0.0 ==> sqrt(d) >= 0.0 && sqrt(d) * sqrt(d) == d
    requires OnSegment(q, p1, p2) && DistSq(q, center) == radius * radius
    ensures q in Intersections(center, radius, p1, p2, sqrt)
  {
    var t :| 0.0 <= t <= 1.0 && q == Lerp(p1, p2, t);
    LineCircleComplete(center, radius, p1, p2, sqrt(Discriminant(center, radius, p1, p2)), t);
  }

  /** |Lerp(t) - center|^2 - radius^2 is the quadratic a t^2 + b t + c. */
  lemma QuadraticExpansion(center: Point, radius: real, p1: Point, p2: Point, t: real)
    ensures DistSq(Lerp(p1, p2, t), center) - radius * radius
         == QuadA(p1, p2) * t * t + QuadB(center, p1, p2) * t + QuadC(center, radius, p1)
  {
    var fx, fy := p1.x - center.x, p1.y - center.y;
    var dx, dy := p2.x - p1.x, p2.y - p1.y;
    assert Sub(Lerp(p1, p2, t), center) == Point(fx + t * dx, fy + t * dy);
    assert (fx + t * dx) * (fx + t * dx) == fx * fx + 2.0 * t * (fx * dx) + t * t * (dx * dx);
    assert (fy + t * dy) * (fy + t * dy) == fy * fy + 2.0 * t * (fy * dy) + t * t * (dy * dy);
  }

  lemma ZeroProduct(p: real, q: real)
    requires p != 0.0 && p * q == 0.0
    ensures q == 0.0
  {
  }

  lemma QuotientTimes(x: real, y: real)
    requires y != 0.0
    ensures (x / y) * y == x
  {
  }

  /** t = (-b + s) / 2a with s^2 = b^2 - 4ac is a root of a t^2 + b t + c. */
  lemma QuadraticRoot(a: real, b: real, c: real, s: real, t: real)
    requires a != 0.0 && s * s == b * b - 4.0 * a * c
    requires t * (2.0 * a) == -b + s
    ensures a * t * t + b * t + c == 0.0
  {
    var u := 2.0 * a * t + b;
    assert u == s;
    assert u * u == 4.0 * a * (a * t * t + b * t + c) + (b * b - 4.0 * a * c);
    ZeroProduct(4.0 * a, a * t * t + b * t + c);
  }

  /** Both roots (-b -/+ root) / 2a solve a t^2 + b t + c = 0 when root^2 = b^2 - 4ac. */
  lemma QuadraticRoots(a: real, b: real, c: real, root: real, t: real)
    requires a > 0.0 && root * root == b * b - 4.0 * a * c
    requires t == (-b - root) / (2.0 * a) || t == (-b + root) / (2.0 * a)
    ensures a * t * t + b * t + c == 0.0
  {
    var s := if t == (-b - root) / (2.0 * a) then -root else root;
    NegSquare(root);
    QuotientTimes(-b + s, 2.0 * a);
    QuadraticRoot(a, b, c, s, t);
  }

  lemma RootIsOnCircle(center: Point, radius: real, p1: Point, p2: Point, root: real, t: real)
    requires QuadA(p1, p2) > 0.0 && Discriminant(center, radius, p1, p2) >= 0.0
    requires RootOfDiscriminant(center, radius, p1, p2, root)
    requires t == Roots(center, p1, p2, root).0 || t == Roots(center, p1, p2, root).1
    ensures DistSq(Lerp(p1, p2, t), center) == radius * radius
  {
    QuadraticRoots(QuadA(p1, p2), QuadB(center, p1, p2), QuadC(center, radius, p1), root, t);
    QuadraticExpansion(center, radius, p1, p2, t);
  }

  lemma NegSquare(x: real)
    ensures (-x) * (-x) == x * x
  {
  }

  lemma SquareRootUnique(s: real, t: real)
    requires s >= 0.0 && t >= 0.0 && s * s == t * t
    ensures s == t
  {
    assert (t - s) * (t + s) == 0.0;
    if t + s != 0.0 {
      ZeroProduct(t + s, t - s);
    }
  }

  /** An endpoint of the segment that lies on the circle is reported. */
  lemma {:induction false} EndpointOnCircleIsFound(center: Point, radius: real, p1: Point, p2: Point, root: real)
    requires RootOfDiscriminant(center, radius, p1, p2, root)
    ensures DistSq(p1, center) == radius * radius ==> p1 in LineCircleIntersections(center, radius, p1, p2, root)
    ensures DistSq(p2, center) == radius * radius ==> p2 in LineCircleIntersections(center, radius, p1, p2, root)
  {
    assert Lerp(p1, p2, 0.0) == p1 && Lerp(p1, p2, 1.0) == p2;
    if DistSq(p1, center) == radius * radius {
      LineCircleComplete(center, radius, p1, p2, root, 0.0);
    }
    if DistSq(p2, center) == radius * radius {
      LineCircleComplete(center, radius, p1, p2, root, 1.0);
    }
  }

  lemma RootBelow(root: real, a: real)
    requires root >= 0.0 && a > 0.0 && root * root < a * a
    ensures root < a
  {
    assert (a - root) * (a + root) > 0.0;
  }

  /** The quadratic's coefficients for a circle centred on the segment's midpoint. */
  lemma MidpointCoefficients(radius: real, p1: Point, p2: Point)
    ensures var center := Point((p1.x + p2.x) / 2.0, (p1.y + p2.y) / 2.0);
      QuadB(center, p1, p2) == -QuadA(p1, p2) && QuadC(center, radius, p1) == QuadA(p1, p2) / 4.0 - radius * radius
  {
    var center := Point((p1.x + p2.x) / 2.0, (p1.y + p2.y) / 2.0);
    var dx, dy := p2.x - p1.x, p2.y - p1.y;
    assert Sub(p1, center) == Point(-dx / 2.0, -dy / 2.0);
  }

  lemma MidpointDiscriminant(a: real, r: real)
    ensures (-a) * (-a) - 4.0 * a * (a / 4.0 - r * r) == 4.0 * a * (r * r)
  {
  }

  /** With b = -a and discriminant 4 a r^2 < a^2, both roots lie in [0, 1]. */
  lemma MidpointRootsInUnit(a: real, r: real, root: real)
    requires r > 0.0 && a > 4.0 * r * r
    requires root >= 0.0 && root * root == 4.0 * a * (r * r)
    ensures 0.0 <= (a - root) / (2.0 * a) <= 1.0 && 0.0 <= (a + root) / (2.0 * a) <= 1.0
  {
    assert 4.0 * a * (r * r) < a * a by {
      assert a * (a - 4.0 * (r * r)) > 0.0;
    }
    RootBelow(root, a);
    UnitQuotient(a - root, 2.0 * a);
    UnitQuotient(a + root, 2.0 * a);
  }

  /**
   * A circle of radius r > 0 centred on the midpoint of a segment longer
   * than 2r meets it in exactly two points.
   */
  lemma {:induction false} MidpointCircleMeetsTwice(radius: real, p1: Point, p2: Point, root: real)
    requires radius > 0.0
    requires QuadA(p1, p2) > 4.0 * radius * radius
    requires RootOfDiscriminant(Point((p1.x + p2.x) / 2.0, (p1.y + p2.y) / 2.0), radius, p1, p2, root)
    ensures |LineCircleIntersections(Point((p1.x + p2.x) / 2.0, (p1.y + p2.y) / 2.0), radius, p1, p2, root)| == 2
  {
    var center := Point((p1.x + p2.x) / 2.0, (p1.y + p2.y) / 2.0);
    var a := QuadA(p1, p2);
    MidpointCoefficients(radius, p1, p2);
    MidpointDiscriminant(a, radius);
    assert Discriminant(center, radius, p1, p2) == 4.0 * a * (radius * radius);
    MidpointRootsInUnit(a, radius, root);
    assert Roots(center, p1, p2, root) == ((a - root) / (2.0 * a), (a + root) / (2.0 * a));
  }

  lemma UnitQuotient(x: real, y: real)
    requires y > 0.0 && 0.0 <= x <= y
    ensures 0.0 <= x / y <= 1.0
  {
  }
}
