/** Corner resolution between two walls (extend and addCorner): the axis-convention conversions
    between the building frame (z up) and the frame the ray and plane are built in, the ray cast
    from one wall's end point towards the other wall's axis, and the two half-spaces that miter
    the corner. */
module Corners {
  import opened Values
  import opened Vectors

  /** The conversion applied to the other wall's start point and normal: (x, y, z) to (x, z, -y). */
  function ToThree(v: Vec3): Vec3 {
    Vec3(v.x, v.z, -v.y)
  }

  /** The conversion applied to the hit point: (a, b, c) to (a, -c, b). */
  function FromThree(v: Vec3): Vec3 {
    Vec3(v.x, -v.z, v.y)
  }

  /** The two conversions are inverse to each other. */
  lemma ConversionRoundTrip(v: Vec3)
    ensures FromThree(ToThree(v)) == v && ToThree(FromThree(v)) == v
  {
  }

  /** The conversion is a rotation: it keeps dot products, and it is linear. */
  lemma ToThreeIsRotation(a: Vec3, b: Vec3, t: real)
    ensures Dot(ToThree(a), ToThree(b)) == Dot(a, b)
    ensures FromThree(Add(a, Scale(b, t))) == Add(FromThree(a), Scale(FromThree(b), t))
  {
  }

  /** The plan position of p lies on the line through s along d (the vertical plane through
      the axis of a wall starting at s with direction d). */
  predicate OnWallLine(s: Vec3, d: Vec3, p: Vec3) {
    d.y * (p.x - s.x) == d.x * (p.y - s.y)
  }

  /** The plane extend intersects: normal (otherDir x up) and point otherStart, both converted. */
  function ReferencePlane(otherStart: Vec3, otherDir: Vec3): Plane {
    PlaneThrough(ToThree(Cross(otherDir, Up)), ToThree(otherStart))
  }

  /** A converted point lies on the reference plane exactly when the point lies on the other
      wall's axis line. */
  lemma ReferencePlaneLine(otherStart: Vec3, otherDir: Vec3, p: Vec3)
    ensures OnPlane(ReferencePlane(otherStart, otherDir), ToThree(p)) <==> OnWallLine(otherStart, otherDir, p)
  {
    var normal := Cross(otherDir, Up);
    assert normal == Vec3(otherDir.y, -otherDir.x, 0.0);
    ToThreeIsRotation(normal, p, 0.0);
    ToThreeIsRotation(otherStart, normal, 0.0);
  }

  /** The ray origin: (x, z, y * sign) with sign -1 at the end point and 1 at the start point.
      Back in the building frame it is the end point itself, but the start point mirrored in y;
      it agrees with the conversion of the plane's point only at the end or when y is 0. */
  function RayOrigin(o: Vec3, isEnd: bool): (r: Vec3)
    ensures FromThree(r) == if isEnd then o else Vec3(o.x, -o.y, o.z)
    ensures r == ToThree(o) <==> isEnd || o.y == 0.0
  {
    var sign := if isEnd then -1.0 else 1.0;
    Vec3(o.x, o.z, o.y * sign)
  }

  /** The ray direction: (-x, z, y), negated at the end point. Back in the building frame it runs
      along the wall's plan direction outwards at the end and backwards at the start, with the
      vertical component mirrored. */
  function RayDirection(d: Vec3, isEnd: bool): (r: Vec3)
    ensures FromThree(r) == if isEnd then Vec3(d.x, d.y, -d.z) else Vec3(-d.x, -d.y, d.z)
    ensures r == (if isEnd then ToThree(d) else ToThree(Neg(d))) <==> d.z == 0.0
  {
    var c := Vec3(-d.x, d.z, d.y);
    if isEnd then Neg(c) else c
  }

  /** The ray extend casts from this wall's chosen end point. */
  function CastRay(start: Vec3, end: Vec3, dir: Vec3, isEnd: bool): Ray {
    Ray(RayOrigin(if isEnd then end else start, isEnd), RayDirection(dir, isEnd))
  }

  /** The point of the cast ray at parameter t, back in the building frame: the end point moved
      along (dx, dy, -dz), or the start point mirrored in y moved along (-dx, -dy, dz). */
  function CastPoint(start: Vec3, end: Vec3, dir: Vec3, isEnd: bool, t: real): Vec3 {
    if isEnd then Add(end, Scale(Vec3(dir.x, dir.y, -dir.z), t))
    else Add(Vec3(start.x, -start.y, start.z), Scale(Vec3(-dir.x, -dir.y, dir.z), t))
  }

  /** CastPoint is the converted-back point of the ray extend builds. */
  lemma CastPointIsRayPoint(start: Vec3, end: Vec3, dir: Vec3, isEnd: bool, t: real)
    ensures FromThree(At(CastRay(start, end, dir, isEnd), t)) == CastPoint(start, end, dir, isEnd, t)
  {
    var ray := CastRay(start, end, dir, isEnd);
    ToThreeIsRotation(ray.origin, ray.direction, t);
  }

  /** What extend computes: the converted hit point of the cast ray with the reference plane, or
      None (null) when the ray misses it. */
  function Intersection(m: Math, start: Vec3, end: Vec3, dir: Vec3, otherStart: Vec3, otherDir: Vec3, isEnd: bool): Option<Vec3> {
    match m.distanceToPlane(CastRay(start, end, dir, isEnd), ReferencePlane(otherStart, otherDir))
    case None => None
    case Some(t) => Some(CastPoint(start, end, dir, isEnd, t))
  }

  /** A hit is a point of the cast ray, ahead of its origin, on the other wall's axis line. */
  lemma IntersectionOnOtherWall(m: Math, start: Vec3, end: Vec3, dir: Vec3, otherStart: Vec3, otherDir: Vec3, isEnd: bool)
    requires m.Lawful()
    ensures var r := Intersection(m, start, end, dir, otherStart, otherDir, isEnd);
            r.Some? ==>
              && OnWallLine(otherStart, otherDir, r.value)
              && var t := m.distanceToPlane(CastRay(start, end, dir, isEnd), ReferencePlane(otherStart, otherDir)).value;
                 0.0 <= t && r.value == CastPoint(start, end, dir, isEnd, t)
  {
    var ray, plane := CastRay(start, end, dir, isEnd), ReferencePlane(otherStart, otherDir);
    var h := m.distanceToPlane(ray, plane);
    if h.Some? {
      var p := At(ray, h.value);
      assert OnPlane(plane, p);
      ConversionRoundTrip(p);
      ReferencePlaneLine(otherStart, otherDir, FromThree(p));
      CastPointIsRayPoint(start, end, dir, isEnd, h.value);
    }
  }

  /** extend reports a miss exactly when no point of the cast ray ahead of its origin lies on the
      other wall's axis line. */
  lemma IntersectionMisses(m: Math, start: Vec3, end: Vec3, dir: Vec3, otherStart: Vec3, otherDir: Vec3, isEnd: bool)
    requires m.Lawful()
    ensures Intersection(m, start, end, dir, otherStart, otherDir, isEnd).None? <==>
            forall t :: 0.0 <= t ==> !OnWallLine(otherStart, otherDir, CastPoint(start, end, dir, isEnd, t))
  {
    var ray, plane := CastRay(start, end, dir, isEnd), ReferencePlane(otherStart, otherDir);
    if Intersection(m, start, end, dir, otherStart, otherDir, isEnd).None? {
      forall t | 0.0 <= t
        ensures !OnWallLine(otherStart, otherDir, CastPoint(start, end, dir, isEnd, t))
      {
        var p := At(ray, t);
        ConversionRoundTrip(p);
        ReferencePlaneLine(otherStart, otherDir, FromThree(p));
        CastPointIsRayPoint(start, end, dir, isEnd, t);
      }
    } else {
      IntersectionOnOtherWall(m, start, end, dir, otherStart, otherDir, isEnd);
    }
  }

  /** A wall whose end point already lies on the other wall's axis line is extended to that end
      point itself. */
  lemma IntersectionAtEndOnLine(m: Math, start: Vec3, end: Vec3, dir: Vec3, otherStart: Vec3, otherDir: Vec3)
    requires m.Lawful() && OnWallLine(otherStart, otherDir, end)
    ensures Intersection(m, start, end, dir, otherStart, otherDir, true) == Some(end)
  {
    var ray, plane := CastRay(start, end, dir, true), ReferencePlane(otherStart, otherDir);
    ConversionRoundTrip(end);
    assert ray.origin == ToThree(end);
    ReferencePlaneLine(otherStart, otherDir, end);
    assert OnPlane(plane, ray.origin);
    assert m.distanceToPlane(ray, plane) == Some(0.0);
    ScaleZero(Vec3(dir.x, dir.y, -dir.z));
  }

  lemma ScaleZero(v: Vec3)
    ensures Scale(v, 0.0) == Origin
  {
  }

  /** Wall A from (0, 0, 0) to (5, 0, 0) meets wall B through (5, 0, 0) and (5, 5, 0) at its end
      point (5, 0, 0). */
  lemma CornerExample(m: Math)
    requires m.Lawful()
    ensures Intersection(m, Origin, Vec3(5.0, 0.0, 0.0), Vec3(1.0, 0.0, 0.0),
                         Vec3(5.0, 0.0, 0.0), Vec3(0.0, 1.0, 0.0), true) == Some(Vec3(5.0, 0.0, 0.0))
  {
    IntersectionAtEndOnLine(m, Origin, Vec3(5.0, 0.0, 0.0), Vec3(1.0, 0.0, 0.0), Vec3(5.0, 0.0, 0.0), Vec3(0.0, 1.0, 0.0));
  }

  /** Extending the end of wall A from (0, 0, 0) to (4, 0, 0) towards wall B along x = 5 moves
      the end point to (5, 0, 0). */
  lemma ExtendEndExample(m: Math)
    requires m.Lawful()
    ensures Intersection(m, Origin, Vec3(4.0, 0.0, 0.0), Vec3(1.0, 0.0, 0.0),
                         Vec3(5.0, -1.0, 0.0), Vec3(0.0, 1.0, 0.0), true) == Some(Vec3(5.0, 0.0, 0.0))
  {
    var start, end, dir, os, od := Origin, Vec3(4.0, 0.0, 0.0), Vec3(1.0, 0.0, 0.0), Vec3(5.0, -1.0, 0.0), Vec3(0.0, 1.0, 0.0);
    EndExampleLine();
    HitsOnce(m, start, end, dir, os, od, true, 1.0, Vec3(5.0, 0.0, 0.0));
  }

  lemma EndExampleLine()
    ensures forall t :: OnWallLine(Vec3(5.0, -1.0, 0.0), Vec3(0.0, 1.0, 0.0), CastPoint(Origin, Vec3(4.0, 0.0, 0.0), Vec3(1.0, 0.0, 0.0), true, t)) <==> t == 1.0
  {
  }

  /** Extending the START of wall A from (0, 2, 0) to (4, 2, 0) towards wall B along x = -1 casts
      from the start point mirrored in y, so the new start point is (-1, -2, 0), off A's axis. */
  lemma ExtendStartExample(m: Math)
    requires m.Lawful()
    ensures Intersection(m, Vec3(0.0, 2.0, 0.0), Vec3(4.0, 2.0, 0.0), Vec3(1.0, 0.0, 0.0),
                         Vec3(-1.0, -5.0, 0.0), Vec3(0.0, 1.0, 0.0), false) == Some(Vec3(-1.0, -2.0, 0.0))
  {
    var start, end, dir, os, od := Vec3(0.0, 2.0, 0.0), Vec3(4.0, 2.0, 0.0), Vec3(1.0, 0.0, 0.0), Vec3(-1.0, -5.0, 0.0), Vec3(0.0, 1.0, 0.0);
    StartExampleLine();
    HitsOnce(m, start, end, dir, os, od, false, 1.0, Vec3(-1.0, -2.0, 0.0));
  }

  lemma StartExampleLine()
    ensures forall t :: OnWallLine(Vec3(-1.0, -5.0, 0.0), Vec3(0.0, 1.0, 0.0), CastPoint(Vec3(0.0, 2.0, 0.0), Vec3(4.0, 2.0, 0.0), Vec3(1.0, 0.0, 0.0), false, t)) <==> t == 1.0
  {
  }

  /** A cast ray that reaches the other wall's axis line at exactly one parameter t0 >= 0 is
      extended to the point it reaches there. */
  lemma HitsOnce(m: Math, start: Vec3, end: Vec3, dir: Vec3, otherStart: Vec3, otherDir: Vec3, isEnd: bool, t0: real, p: Vec3)
    requires m.Lawful() && 0.0 <= t0 && p == CastPoint(start, end, dir, isEnd, t0)
    requires forall t :: OnWallLine(otherStart, otherDir, CastPoint(start, end, dir, isEnd, t)) <==> t == t0
    ensures Intersection(m, start, end, dir, otherStart, otherDir, isEnd) == Some(p)
  {
    IntersectionMisses(m, start, end, dir, otherStart, otherDir, isEnd);
    assert OnWallLine(otherStart, otherDir, CastPoint(start, end, dir, isEnd, t0));
    IntersectionOnOtherWall(m, start, end, dir, otherStart, otherDir, isEnd);
  }

  /** Extending the end point of wall A from (0, 0, 0) to (5, 0, 0) towards the parallel axis
      y = 3 finds no point. */
  lemma ParallelExample(m: Math)
    requires m.Lawful()
    ensures Intersection(m, Origin, Vec3(5.0, 0.0, 0.0), Vec3(1.0, 0.0, 0.0),
                         Vec3(0.0, 3.0, 0.0), Vec3(1.0, 0.0, 0.0), true).None?
  {
    IntersectionMisses(m, Origin, Vec3(5.0, 0.0, 0.0), Vec3(1.0, 0.0, 0.0), Vec3(0.0, 3.0, 0.0), Vec3(1.0, 0.0, 0.0), true);
  }

  /** A wall whose start point, mirrored in y, lies on the other wall's axis line is extended at
      its start to that mirrored point, whatever the two directions are. */
  lemma IntersectionAtMirroredStartOnLine(m: Math, start: Vec3, end: Vec3, dir: Vec3, otherStart: Vec3, otherDir: Vec3)
    requires m.Lawful() && OnWallLine(otherStart, otherDir, Vec3(start.x, -start.y, start.z))
    ensures Intersection(m, start, end, dir, otherStart, otherDir, false) == Some(Vec3(start.x, -start.y, start.z))
  {
    var mirrored := Vec3(start.x, -start.y, start.z);
    var ray, plane := CastRay(start, end, dir, false), ReferencePlane(otherStart, otherDir);
    ConversionRoundTrip(mirrored);
    assert ray.origin == ToThree(mirrored);
    ReferencePlaneLine(otherStart, otherDir, mirrored);
    assert OnPlane(plane, ray.origin);
    assert m.distanceToPlane(ray, plane) == Some(0.0);
    ScaleZero(Vec3(-dir.x, -dir.y, dir.z));
  }

  /** Parallel walls can still meet: extending the START of wall A from (0, 2, 0) to (4, 2, 0)
      towards the parallel axis y = -2 returns (0, -2, 0), A's start point mirrored in y. */
  lemma ParallelStartExample(m: Math)
    requires m.Lawful()
    ensures Intersection(m, Vec3(0.0, 2.0, 0.0), Vec3(4.0, 2.0, 0.0), Vec3(1.0, 0.0, 0.0),
                         Vec3(0.0, -2.0, 0.0), Vec3(1.0, 0.0, 0.0), false) == Some(Vec3(0.0, -2.0, 0.0))
  {
    IntersectionAtMirroredStartOnLine(m, Vec3(0.0, 2.0, 0.0), Vec3(4.0, 2.0, 0.0), Vec3(1.0, 0.0, 0.0),
                                      Vec3(0.0, -2.0, 0.0), Vec3(1.0, 0.0, 0.0));
  }

  /** angle2 = asin(dot(d1, d2) / (|d1| |d2|)); when a length is 0 the quotient is NaN or
      infinite and so is the arcsine. */
  function Angle2(m: Math, d1: Vec3, d2: Vec3): Number {
    var lengths := Length(m, d1) * Length(m, d2);
    if lengths == 0.0 then NonFinite else Finite(m.asin(Dot(d1, d2) / lengths))
  }

  /** angle2 is a number exactly when neither direction is the zero vector. */
  lemma Angle2Defined(m: Math, d1: Vec3, d2: Vec3)
    requires m.Lawful()
    ensures Angle2(m, d1, d2).Finite? <==> d1 != Origin && d2 != Origin
  {
    LengthFacts(m, d1);
    LengthFacts(m, d2);
    NonNegativeProduct(Length(m, d1), Length(m, d2));
  }

  /** For the unit directions of two walls angle2 is the arcsine of their dot product. */
  lemma Angle2OfUnits(m: Math, d1: Vec3, d2: Vec3)
    requires m.Lawful() && LengthSq(d1) == 1.0 && LengthSq(d2) == 1.0
    ensures Angle2(m, d1, d2) == Finite(m.asin(Dot(d1, d2)))
  {
    SqrtOfSquare(m, 1.0);
    assert Length(m, d1) == 1.0 && Length(m, d2) == 1.0;
  }

  lemma NonNegativeProduct(a: real, b: real)
    requires 0.0 <= a && 0.0 <= b
    ensures a * b == 0.0 <==> a == 0.0 || b == 0.0
  {
    if a * b == 0.0 {
      ZeroProduct(a, b);
    }
  }

  /** The corner sign: -1 when angle2 < 0 joining at the end point, or angle2 > 0 joining at the
      start point, and 1 otherwise (also when angle2 is 0 or NaN). */
  function CornerSign(angle2: Number, atEnd: bool): (r: int)
    ensures r == 1 || r == -1
  {
    if angle2.Finite? && ((angle2.value < 0.0 && atEnd) || (angle2.value > 0.0 && !atEnd)) then -1 else 1
  }

  /** The sign is -1 exactly under the rule, and joining at the other end point flips it exactly
      when angle2 is a non-zero number. */
  lemma CornerSignRule(angle2: Number)
    ensures CornerSign(angle2, true) == -1 <==> angle2.Finite? && angle2.value < 0.0
    ensures CornerSign(angle2, false) == -1 <==> angle2.Finite? && angle2.value > 0.0
    ensures CornerSign(angle2, true) == -CornerSign(angle2, false) <==> angle2.Finite? && angle2.value != 0.0
  {
  }

  /** A half-space subtraction operand: its position along x (not a number when the offset
      divides by zero) and its rotations about y and x. */
  datatype HalfSpace = HalfSpace(positionX: Number, rotationY: real, rotationX: real)

  /** width / (2 sin(angle)): infinite or NaN when sin(angle) is 0. */
  function MiterOffset(m: Math, width: real, angle: real): Number {
    var s := m.sin(angle);
    if s == 0.0 then NonFinite else Finite(width / (2.0 * s))
  }

  /** The offset exists exactly when sin(angle) is non-zero, and then solves
      2 sin(angle) * offset = width. */
  lemma MiterOffsetSolves(m: Math, width: real, angle: real)
    ensures MiterOffset(m, width, angle).Finite? <==> m.sin(angle) != 0.0
    ensures MiterOffset(m, width, angle).Finite? ==> 2.0 * m.sin(angle) * MiterOffset(m, width, angle).value == width
  {
  }

  /** The half-space cut from this wall: distance1 - width / (2 sin(angle)), rotated by angle
      about y and by pi/2 about x. */
  function FirstHalfSpace(m: Math, distance1: real, width: real, angle: real): HalfSpace {
    var offset := MiterOffset(m, width, angle);
    var x := if offset.Finite? then Finite(distance1 - offset.value) else NonFinite;
    HalfSpace(x, angle, m.pi / 2.0)
  }

  /** The first cut has a position exactly when sin(angle) is non-zero; it then lies
      width / (2 sin(angle)) before distance1, and the cut is turned by angle and by pi/2. */
  lemma FirstHalfSpaceSolves(m: Math, distance1: real, width: real, angle: real)
    ensures var h := FirstHalfSpace(m, distance1, width, angle);
            && (h.positionX.Finite? <==> m.sin(angle) != 0.0)
            && (h.positionX.Finite? ==> 2.0 * m.sin(angle) * (distance1 - h.positionX.value) == width)
            && h.rotationY == angle && h.rotationX == m.pi / 2.0
  {
    MiterOffsetSolves(m, width, angle);
  }

  /** The half-space cut from the other wall: sign * distance2 + width / (2 sin(angle)), rotated
      by angle about y and by -pi/2 about x. */
  function SecondHalfSpace(m: Math, sign: int, distance2: real, width: real, angle: real): HalfSpace {
    var offset := MiterOffset(m, width, angle);
    var x := if offset.Finite? then Finite(sign as real * distance2 + offset.value) else NonFinite;
    HalfSpace(x, angle, -m.pi / 2.0)
  }

  /** The second cut has a position exactly when sin(angle) is non-zero; it then lies
      width / (2 sin(angle)) beyond sign * distance2, and the cut is turned by angle and by
      -pi/2. */
  lemma SecondHalfSpaceSolves(m: Math, sign: int, distance2: real, width: real, angle: real)
    ensures var h := SecondHalfSpace(m, sign, distance2, width, angle);
            && (h.positionX.Finite? <==> m.sin(angle) != 0.0)
            && (h.positionX.Finite? ==> 2.0 * m.sin(angle) * (h.positionX.value - sign as real * distance2) == width)
            && h.rotationY == angle && h.rotationX == -m.pi / 2.0
  {
    MiterOffsetSolves(m, width, angle);
  }

  /** The two half-spaces addCorner cuts at the corner point ip, from the end points and yaws of
      this wall (1) and the other wall (2): the angle is the difference of the yaws, the sign
      comes from angle2 of the two directions, the distances run from each wall's midpoint to ip,
      and both use the one width given (addCorner passes this wall's width for both). */
  function CornerCuts(m: Math, atEnd: bool, ip: Vec3, start1: Vec3, end1: Vec3, yaw1: real,
                      start2: Vec3, end2: Vec3, yaw2: real, width: real): (HalfSpace, HalfSpace)
  {
    var angle := yaw2 - yaw1;
    var angle2 := Angle2(m, Normalize(m, Sub(end1, start1)), Normalize(m, Sub(end2, start2)));
    var sign := CornerSign(angle2, atEnd);
    (FirstHalfSpace(m, Distance(m, MidPoint(start1, end1), ip), width, angle),
     SecondHalfSpace(m, sign, Distance(m, MidPoint(start2, end2), ip), width, angle))
  }

  /** At a right angle (sin(angle) = 1) the cuts sit half a width from the corner distances. */
  lemma RightAngleCuts(m: Math, sign: int, distance1: real, distance2: real, width: real, angle: real)
    requires m.sin(angle) == 1.0
    ensures FirstHalfSpace(m, distance1, width, angle).positionX == Finite(distance1 - width / 2.0)
    ensures SecondHalfSpace(m, sign, distance2, width, angle).positionX == Finite(sign as real * distance2 + width / 2.0)
  {
  }
}
