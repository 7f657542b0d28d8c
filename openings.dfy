/** How a wall binds an opening (setOpening) and puts it back on its axis (updateAllOpenings):
    the opening is stored with a signed distance from the wall's start point, and placed again
    at start + direction * distance, keeping its own height. */
module Openings {
  import opened Vectors

  function Abs(a: real): real { if a < 0.0 then -a else a }

  /** The plane setOpening projects onto: through start + (0, 0, 1), start and end. It is
      vertical and contains the wall's axis. */
  function WallPlane(m: Math, start: Vec3, end: Vec3): (p: Plane)
    ensures OnPlane(p, start) && OnPlane(p, end) && OnPlane(p, Add(start, Up))
    ensures p.normal.z == 0.0
  {
    var w := Cross(Sub(end, start), Sub(Add(start, Up), start));
    var k := Length(m, w);
    assert Normalize(m, w) == Scale(w, 1.0 / (if k == 0.0 then 1.0 else k));
    PlaneFromCoplanarPoints(m, Add(start, Up), start, end)
  }

  /** The distance setOpening stores: the distance from start to p, negated unless p lies
      strictly ahead of start along dir (so also when the dot product is exactly 0). */
  function SignedDistance(m: Math, start: Vec3, dir: Vec3, p: Vec3): real {
    Distance(m, p, start) * (if Dot(Sub(p, start), dir) > 0.0 then 1.0 else -1.0)
  }

  /** The stored distance has the magnitude of the distance from start to p, is positive
      exactly when p lies ahead along dir, and negative exactly when p is elsewhere off start. */
  lemma SignedDistanceSign(m: Math, start: Vec3, dir: Vec3, p: Vec3)
    requires m.Lawful()
    ensures Abs(SignedDistance(m, start, dir, p)) == Distance(m, p, start)
    ensures 0.0 < SignedDistance(m, start, dir, p) <==> 0.0 < Dot(Sub(p, start), dir)
    ensures SignedDistance(m, start, dir, p) < 0.0 <==> Dot(Sub(p, start), dir) <= 0.0 && p != start
  {
    var d, dot := Distance(m, p, start), Dot(Sub(p, start), dir);
    DistanceFacts(m, p, start);
    assert 0.0 <= d && (d == 0.0 <==> p == start);
    if p == start {
      assert Sub(p, start) == Origin;
      DotOrigin(dir);
      assert dot == 0.0;
    }
    assert SignedDistance(m, start, dir, p) == d * (if dot > 0.0 then 1.0 else -1.0);
    SignRule(d, dot, SignedDistance(m, start, dir, p), p == start);
  }

  lemma DotOrigin(v: Vec3) ensures Dot(Origin, v) == 0.0 {}
  lemma SignRule(d: real, dot: real, r: real, same: bool)
    requires 0.0 <= d && (d == 0.0 <==> same) && (same ==> dot == 0.0)
    requires r == d * (if dot > 0.0 then 1.0 else -1.0)
    ensures Abs(r) == d
    ensures 0.0 < r <==> 0.0 < dot
    ensures r < 0.0 <==> dot <= 0.0 && !same
  {
  }

  /** updateAllOpenings: x and y from start + dir * distance, z kept from the opening. */
  function PlaceOpening(position: Vec3, start: Vec3, dir: Vec3, distance: real): Vec3 {
    var pos := Add(Scale(dir, distance), start);
    Vec3(pos.x, pos.y, position.z)
  }

  /** An opening whose position lies on the wall's axis is put back exactly where it was:
      binding then re-placing is the identity, for sloped walls too. */
  lemma PlacementRoundTrip(m: Math, start: Vec3, end: Vec3, t: real)
    requires m.Lawful() && start != end
    ensures var dir := Normalize(m, Sub(end, start));
            var p := Add(start, Scale(dir, t));
            PlaceOpening(p, start, dir, SignedDistance(m, start, dir, p)) == p
  {
    var v := Sub(end, start);
    assert v != Origin;
    var dir := Normalize(m, v);
    var p := Add(start, Scale(dir, t));
    NormalizeFacts(m, v);
    assert LengthSq(dir) == 1.0;
    assert Sub(p, start) == Scale(dir, t);
    var a := Abs(t);
    AxisDistance(m, dir, t, a);
    assert Distance(m, p, start) == a;
    DotScale(dir, dir, t);
    assert Dot(Sub(p, start), dir) == t * 1.0;
    var r := SignedDistance(m, start, dir, p);
    assert r == a * (if t * 1.0 > 0.0 then 1.0 else -1.0);
    assert r == t;
    assert PlaceOpening(p, start, dir, r) == p;
  }

  /** The direction of a wall whose end points are at one height is a horizontal unit vector. */
  lemma HorizontalDirection(m: Math, v: Vec3)
    requires m.Lawful() && v != Origin && v.z == 0.0
    ensures LengthSq(Normalize(m, v)) == 1.0 && Normalize(m, v).z == 0.0
  {
    NormalizeFacts(m, v);
    var k := 1.0 / Length(m, v);
    assert Normalize(m, v) == Scale(v, k);
    assert Normalize(m, v).z == 0.0 * k;
  }

  lemma AxisDistance(m: Math, dir: Vec3, t: real, a: real)
    requires m.Lawful() && LengthSq(dir) == 1.0 && a == Abs(t)
    ensures Length(m, Scale(dir, t)) == a
  {
    LengthSqScale(dir, t);
    assert LengthSq(Scale(dir, t)) == t * t;
    assert a * a == t * t;
    SqrtOfSquare(m, a);
  }

  /** For a horizontal wall, the plane setOpening projects onto has a horizontal unit normal. */
  lemma WallPlaneNormal(m: Math, start: Vec3, end: Vec3)
    requires m.Lawful() && start != end && start.z == end.z
    ensures var w := Cross(Sub(end, start), Up);
            w != Origin && WallPlane(m, start, end).normal == Normalize(m, w)
    ensures LengthSq(WallPlane(m, start, end).normal) == 1.0
  {
    var v := Sub(end, start);
    var w := Cross(v, Up);
    HorizontalNormal(v);
    assert Sub(Add(start, Up), start) == Up;
    assert WallPlane(m, start, end).normal == Normalize(m, w);
    NormalizeFacts(m, w);
  }

  lemma HorizontalNormal(v: Vec3)
    requires v != Origin && v.z == 0.0
    ensures Cross(v, Up) == Vec3(v.y, -v.x, 0.0) && Cross(v, Up) != Origin
  {
  }

  /** A point at the wall's height on that plane lies, in plan, on the wall's axis line. */
  lemma OnWallPlane(m: Math, start: Vec3, end: Vec3, p: Vec3)
    requires m.Lawful() && start != end && start.z == end.z && p.z == start.z
    requires OnPlane(WallPlane(m, start, end), p)
    ensures var v := Sub(end, start);
            v.y * (p.x - start.x) == v.x * (p.y - start.y)
  {
    var v := Sub(end, start);
    var w := Cross(v, Up);
    WallPlaneNormal(m, start, end);
    NormalizeFacts(m, w);
    var k := 1.0 / Length(m, w);
    var n := Normalize(m, w);
    assert n == Scale(w, k) && 0.0 < k;
    var a := Add(start, Up);
    assert WallPlane(m, start, end) == PlaneThrough(n, a);
    assert Dot(n, p) - Dot(a, n) == 0.0;
    assert Dot(n, p) - Dot(a, n) == k * (v.y * (p.x - start.x) - v.x * (p.y - start.y));
    ZeroProduct(k, v.y * (p.x - start.x) - v.x * (p.y - start.y));
  }

  /** A point at the wall's height whose plan position is on the wall's axis line is the start
      point moved along the direction by its dot product with the direction. */
  lemma AxisPoint(m: Math, start: Vec3, end: Vec3, p: Vec3)
    requires m.Lawful() && start != end && start.z == end.z && p.z == start.z
    requires var v := Sub(end, start); v.y * (p.x - start.x) == v.x * (p.y - start.y)
    ensures var dir := Normalize(m, Sub(end, start));
            p == Add(start, Scale(dir, Dot(Sub(p, start), dir)))
  {
    var v := Sub(end, start);
    NormalizeFacts(m, v);
    LengthFacts(m, v);
    var n := Length(m, v);
    assert Normalize(m, v) == Scale(v, 1.0 / n);
    AlongAxis(start, v, p, n);
  }

  /** The arithmetic of AxisPoint, for a horizontal axis v of length n. */
  lemma AlongAxis(start: Vec3, v: Vec3, p: Vec3, n: real)
    requires 0.0 < n && n * n == LengthSq(v) && v.z == 0.0 && p.z == start.z
    requires v.y * (p.x - start.x) == v.x * (p.y - start.y)
    ensures var dir := Scale(v, 1.0 / n);
            p == Add(start, Scale(dir, Dot(Sub(p, start), dir)))
  {
    var d := Sub(p, start);
    var k := 1.0 / n;
    var dir := Scale(v, k);
    assert dir == Vec3(v.x * k, v.y * k, 0.0);
    var l2 := v.x * v.x + v.y * v.y;
    assert n * n == l2;
    Reciprocal(n);
    assert k * k * l2 == 1.0 by { UnitAfterScaling(k, n, l2); }
    var s := d.x * v.x + d.y * v.y;
    var t := Dot(d, dir);
    assert t == k * s;
    Parallel(v.x, v.y, d.x, d.y);
    OnAxisComponent(v.x, d.x, k, s, l2, t);
    OnAxisComponent(v.y, d.y, k, s, l2, t);
    ScaleBack(dir, t, d);
  }

  lemma Parallel(vx: real, vy: real, dx: real, dy: real)
    requires vy * dx == vx * dy
    ensures vx * (dx * vx + dy * vy) == dx * (vx * vx + vy * vy)
    ensures vy * (dx * vx + dy * vy) == dy * (vx * vx + vy * vy)
  {
    assert vx * (dy * vy) == vy * (vx * dy);
    assert vy * (dx * vx) == vx * (vy * dx);
  }

  lemma OnAxisComponent(vc: real, dc: real, k: real, s: real, l2: real, t: real)
    requires vc * s == dc * l2 && k * k * l2 == 1.0 && t == k * s
    ensures (vc * k) * t == dc
  {
    assert (vc * k) * (k * s) == k * k * (vc * s);
    assert k * k * (dc * l2) == dc * (k * k * l2);
  }

  lemma ScaleBack(dir: Vec3, t: real, d: Vec3)
    requires dir.x * t == d.x && dir.y * t == d.y && dir.z == 0.0 && d.z == 0.0
    ensures Scale(dir, t) == d
  {
  }

  /** setOpening followed by updateAllOpenings on an unchanged horizontal wall leaves an opening
      that stands at the height of the start point exactly where the projection put it. */
  lemma BindThenPlace(m: Math, start: Vec3, end: Vec3, q: Vec3)
    requires m.Lawful() && start != end && start.z == end.z && q.z == start.z
    ensures var dir := Normalize(m, Sub(end, start));
            var p := m.projectPoint(WallPlane(m, start, end), q);
            PlaceOpening(p, start, dir, SignedDistance(m, start, dir, p)) == p
  {
    var plane := WallPlane(m, start, end);
    WallPlaneNormal(m, start, end);
    var p := m.projectPoint(plane, q);
    assert OnPlane(plane, p) && p.z == q.z;
    OnWallPlane(m, start, end, p);
    AxisPoint(m, start, end, p);
    var dir := Normalize(m, Sub(end, start));
    PlacementRoundTrip(m, start, end, Dot(Sub(p, start), dir));
  }

  /** The stored distance is measured in 3D, so an opening that is not at the height of the
      start point drifts along the wall when it is re-placed: on a wall from the origin along
      the x axis, an opening at (x, 0, h) with h != 0 comes back at (sqrt(x^2 + h^2), 0, h). */
  lemma PlacementIgnoresHeight(m: Math, a: real, x: real, h: real)
    requires m.Lawful() && 0.0 < a && 0.0 < x && h != 0.0
    ensures var dir := Normalize(m, Vec3(a, 0.0, 0.0));
            var p := Vec3(x, 0.0, h);
            var q := PlaceOpening(p, Origin, dir, SignedDistance(m, Origin, dir, p));
            q.y == 0.0 && q.z == h && q.x * q.x == x * x + h * h && x < q.x
  {
    var dir := Normalize(m, Vec3(a, 0.0, 0.0));
    NormalizeOnXAxis(m, a);
    var p := Vec3(x, 0.0, h);
    var d := SignedDistance(m, Origin, dir, p);
    DriftDistance(m, dir, p, d);
    var q := PlaceOpening(p, Origin, dir, d);
    assert q == Vec3(d, 0.0, h);
  }

  lemma DriftDistance(m: Math, dir: Vec3, p: Vec3, d: real)
    requires m.Lawful() && dir == Vec3(1.0, 0.0, 0.0) && p.y == 0.0 && 0.0 < p.x && p.z != 0.0
    requires d == SignedDistance(m, Origin, dir, p)
    ensures d * d == p.x * p.x + p.z * p.z && p.x < d
  {
    assert Sub(p, Origin) == p;
    assert Dot(p, dir) == p.x;
    var l := Distance(m, p, Origin);
    assert d == l;
    DistanceFacts(m, p, Origin);
    assert l * l == p.x * p.x + p.z * p.z;
    Square(p.z);
    if l <= p.x {
      Monotone(l, p.x);
    }
  }

  lemma Monotone(a: real, b: real)
    requires 0.0 <= a <= b
    ensures a * a <= b * b
  {
    if a < b {
      SquareMonotonic(a, b);
    }
  }

  lemma NormalizeOnXAxis(m: Math, a: real)
    requires m.Lawful() && 0.0 < a
    ensures Normalize(m, Vec3(a, 0.0, 0.0)) == Vec3(1.0, 0.0, 0.0)
  {
    var v := Vec3(a, 0.0, 0.0);
    assert LengthSq(v) == a * a;
    SqrtOfSquare(m, a);
    assert Length(m, v) == a;
    assert Normalize(m, v) == Scale(v, 1.0 / a);
    assert a * (1.0 / a) == 1.0;
  }
}
