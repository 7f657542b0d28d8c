/** Three-dimensional vectors over the reals, the planes and rays built from them, and the
    numeric primitives (square root, trigonometry, projection, ray casting) the wall relies on,
    kept uninterpreted apart from the facts stated in Math.Lawful. */
module Vectors {
  import opened Values

  datatype Vec3 = Vec3(x: real, y: real, z: real)

  const Origin := Vec3(0.0, 0.0, 0.0)

  /** The vertical axis of the building convention (z up). */
  const Up := Vec3(0.0, 0.0, 1.0)

  function Add(a: Vec3, b: Vec3): Vec3 { Vec3(a.x + b.x, a.y + b.y, a.z + b.z) }

  function Sub(a: Vec3, b: Vec3): Vec3 { Vec3(a.x - b.x, a.y - b.y, a.z - b.z) }

  function Scale(v: Vec3, k: real): Vec3 { Vec3(v.x * k, v.y * k, v.z * k) }

  function Neg(v: Vec3): Vec3 { Vec3(-v.x, -v.y, -v.z) }

  function Dot(a: Vec3, b: Vec3): real { a.x * b.x + a.y * b.y + a.z * b.z }

  function Cross(a: Vec3, b: Vec3): Vec3 {
    Vec3(a.y * b.z - a.z * b.y, a.z * b.x - a.x * b.z, a.x * b.y - a.y * b.x)
  }

  /** The cross product is orthogonal to both factors. */
  lemma CrossOrthogonal(a: Vec3, b: Vec3)
    ensures Dot(Cross(a, b), a) == 0.0 && Dot(Cross(a, b), b) == 0.0
  {
  }

  /** Squared Euclidean length; zero exactly for the zero vector. */
  function LengthSq(v: Vec3): real {
    Dot(v, v)
  }

  lemma LengthSqFacts(v: Vec3)
    ensures 0.0 <= LengthSq(v)
    ensures LengthSq(v) == 0.0 <==> v == Origin
  {
    Square(v.x);
    Square(v.y);
    Square(v.z);
  }

  lemma Square(a: real)
    ensures 0.0 <= a * a
    ensures a * a == 0.0 <==> a == 0.0
  {
    NonNegativeSquare(a);
    if a * a == 0.0 {
      ZeroProduct(a, a);
    }
  }

  lemma NonNegativeSquare(a: real)
    ensures 0.0 <= a * a
  {
  }

  lemma ZeroProduct(a: real, b: real)
    requires a * b == 0.0
    ensures a == 0.0 || b == 0.0
  {
  }

  lemma PositiveProduct(a: real, b: real)
    requires 0.0 < a && 0.0 < b
    ensures 0.0 < a * b
  {
  }

  /** Among non-negative reals, squaring is strictly monotonic. */
  lemma SquareMonotonic(a: real, b: real)
    requires 0.0 <= a < b
    ensures a * a < b * b
  {
    PositiveProduct(b - a, b + a);
    assert (b - a) * (b + a) == b * b - a * a;
  }

  lemma DotScale(a: Vec3, b: Vec3, k: real)
    ensures Dot(Scale(a, k), b) == k * Dot(a, b)
  {
  }

  lemma LengthSqScale(v: Vec3, k: real)
    ensures LengthSq(Scale(v, k)) == k * k * LengthSq(v)
  {
  }

  /** The component-wise average of two points, as far from one as from the other. */
  function MidPoint(a: Vec3, b: Vec3): (r: Vec3)
    ensures Sub(r, a) == Sub(b, r)
  {
    Vec3((a.x + b.x) / 2.0, (a.y + b.y) / 2.0, (a.z + b.z) / 2.0)
  }

  /** A plane { p | Dot(normal, p) + constant == 0 }, as three.js stores it. */
  datatype Plane = Plane(normal: Vec3, constant: real)

  /** A half-line from origin along direction, as three.js stores it. */
  datatype Ray = Ray(origin: Vec3, direction: Vec3)

  predicate OnPlane(plane: Plane, p: Vec3) {
    Dot(plane.normal, p) + plane.constant == 0.0
  }

  /** The point of a ray at parameter t. */
  function At(ray: Ray, t: real): Vec3 {
    Add(ray.origin, Scale(ray.direction, t))
  }

  /** The numeric primitives of the platform and of three.js that are not modelled exactly:
      Math.sqrt, Math.atan2, Math.asin, Math.sin, Math.PI, Plane.projectPoint, and the ray
      parameter at which a ray meets a plane (null when it does not). */
  datatype Math = Math(
    sqrt: real -> real,
    atan2: (real, real) -> real,
    asin: real -> real,
    sin: real -> real,
    pi: real,
    projectPoint: (Plane, Vec3) -> Vec3,
    distanceToPlane: (Ray, Plane) -> Option<real>)
  {
    /** The only facts the wall relies on: a square root is a non-negative root; a ray meets a
        plane only ahead of its origin and on the plane, meets it at its origin when it starts on
        it, and does meet it whenever some point ahead of its origin lies on it; projecting onto
        a plane with a unit normal lands on the plane, and projecting onto a vertical plane keeps
        the height. */
    ghost predicate Lawful() {
      && (forall a :: 0.0 <= a ==> 0.0 <= sqrt(a) && sqrt(a) * sqrt(a) == a)
      && (forall ray: Ray, plane: Plane ::
            distanceToPlane(ray, plane).Some? ==>
              0.0 <= distanceToPlane(ray, plane).value
              && OnPlane(plane, At(ray, distanceToPlane(ray, plane).value)))
      && (forall ray: Ray, plane: Plane ::
            OnPlane(plane, ray.origin) ==> distanceToPlane(ray, plane) == Some(0.0))
      && (forall ray: Ray, plane: Plane, t: real ::
            0.0 <= t && OnPlane(plane, At(ray, t)) ==> distanceToPlane(ray, plane).Some?)
      && (forall plane: Plane, p: Vec3 ::
            LengthSq(plane.normal) == 1.0 ==> OnPlane(plane, projectPoint(plane, p)))
      && (forall plane: Plane, p: Vec3 ::
            plane.normal.z == 0.0 ==> projectPoint(plane, p).z == p.z)
    }
  }

  lemma SqrtOfSquare(m: Math, a: real)
    requires m.Lawful() && 0.0 <= a
    ensures m.sqrt(a * a) == a
  {
    var s := m.sqrt(a * a);
    Square(a);
    assert 0.0 <= s && s * s == a * a;
    if s < a {
      SquareMonotonic(s, a);
    } else if a < s {
      SquareMonotonic(a, s);
    }
  }

  /** The square root of a non-negative value is zero exactly when the value is. */
  lemma SqrtZero(m: Math, a: real)
    requires m.Lawful() && 0.0 <= a
    ensures 0.0 <= m.sqrt(a) && m.sqrt(a) * m.sqrt(a) == a
    ensures m.sqrt(a) == 0.0 <==> a == 0.0
  {
    Square(m.sqrt(a));
  }

  /** Vector3.length(). */
  function Length(m: Math, v: Vec3): real {
    m.sqrt(LengthSq(v))
  }

  /** A length is a non-negative root of the squared length, zero only for the zero vector. */
  lemma LengthFacts(m: Math, v: Vec3)
    requires m.Lawful()
    ensures 0.0 <= Length(m, v) && Length(m, v) * Length(m, v) == LengthSq(v)
    ensures Length(m, v) == 0.0 <==> v == Origin
  {
    var s := LengthSq(v);
    LengthSqFacts(v);
    SqrtZero(m, s);
    assert Length(m, v) == m.sqrt(s);
  }

  /** a.distanceTo(b). */
  function Distance(m: Math, a: Vec3, b: Vec3): real {
    Length(m, Sub(a, b))
  }

  /** A distance is non-negative and zero exactly between equal points. */
  lemma DistanceFacts(m: Math, a: Vec3, b: Vec3)
    requires m.Lawful()
    ensures 0.0 <= Distance(m, a, b) && Distance(m, a, b) * Distance(m, a, b) == LengthSq(Sub(a, b))
    ensures Distance(m, a, b) == 0.0 <==> a == b
  {
    var d := Sub(a, b);
    LengthFacts(m, d);
    assert Distance(m, a, b) == Length(m, d);
    if d == Origin {
      assert a == b;
    }
  }

  /** Vector3.normalize(): divide by the length, or by 1 when the length is 0. */
  function Normalize(m: Math, v: Vec3): Vec3 {
    var n := Length(m, v);
    Scale(v, 1.0 / (if n == 0.0 then 1.0 else n))
  }

  /** The zero vector normalises to itself whatever the square root does. */
  lemma NormalizeOrigin(m: Math)
    ensures Normalize(m, Origin) == Origin
  {
    var n := Length(m, Origin);
    ScaleOrigin(1.0 / (if n == 0.0 then 1.0 else n));
  }

  /** A non-zero vector normalises to a unit vector that its length scales back to it. */
  lemma NormalizeFacts(m: Math, v: Vec3)
    requires m.Lawful() && v != Origin
    ensures 0.0 < Length(m, v) && Normalize(m, v) == Scale(v, 1.0 / Length(m, v))
    ensures LengthSq(Normalize(m, v)) == 1.0 && Scale(Normalize(m, v), Length(m, v)) == v
  {
    var n := Length(m, v);
    LengthFacts(m, v);
    assert 0.0 < n && n * n == LengthSq(v);
    var r := Normalize(m, v);
    assert r == Scale(v, 1.0 / n);
    ScaledByReciprocal(v, n, r);
  }

  lemma ScaleOrigin(k: real)
    ensures Scale(Origin, k) == Origin
  {
  }

  lemma ScaledByReciprocal(v: Vec3, n: real, r: Vec3)
    requires 0.0 < n && n * n == LengthSq(v) && r == Scale(v, 1.0 / n)
    ensures LengthSq(r) == 1.0 && Scale(r, n) == v
  {
    var k := 1.0 / n;
    Reciprocal(n);
    LengthSqScale(v, k);
    UnitAfterScaling(k, n, LengthSq(v));
    ScaleScale(v, k, n);
  }

  lemma Reciprocal(n: real)
    requires 0.0 < n
    ensures 0.0 < 1.0 / n && (1.0 / n) * n == 1.0
  {
  }

  lemma UnitAfterScaling(k: real, n: real, l: real)
    requires k * n == 1.0 && n * n == l
    ensures k * k * l == 1.0
  {
    assert k * k * l == (k * n) * (k * n);
  }

  lemma ScaleScale(v: Vec3, k: real, n: real)
    ensures Scale(Scale(v, k), n) == Scale(v, k * n)
  {
    assert v.x * k * n == v.x * (k * n);
    assert v.y * k * n == v.y * (k * n);
    assert v.z * k * n == v.z * (k * n);
  }

  /** Plane.setFromNormalAndCoplanarPoint. */
  function PlaneThrough(normal: Vec3, point: Vec3): (r: Plane)
    ensures r.normal == normal && OnPlane(r, point)
  {
    Plane(normal, -Dot(point, normal))
  }

  /** Plane.setFromCoplanarPoints(a, b, c): normal ((c - b) x (a - b)) normalised, through a. */
  function PlaneFromCoplanarPoints(m: Math, a: Vec3, b: Vec3, c: Vec3): (r: Plane)
    ensures OnPlane(r, a) && OnPlane(r, b) && OnPlane(r, c)
  {
    var w := Cross(Sub(c, b), Sub(a, b));
    var n := Normalize(m, w);
    CoplanarFacts(m, w, a, b, c);
    PlaneThrough(n, a)
  }

  lemma CoplanarFacts(m: Math, w: Vec3, a: Vec3, b: Vec3, c: Vec3)
    requires w == Cross(Sub(c, b), Sub(a, b))
    ensures var p := PlaneThrough(Normalize(m, w), a);
            OnPlane(p, b) && OnPlane(p, c)
  {
    var ln := Length(m, w);
    var k := 1.0 / (if ln == 0.0 then 1.0 else ln);
    var n := Normalize(m, w);
    assert n == Scale(w, k);
    CrossOrthogonal(Sub(c, b), Sub(a, b));
    DotScale(w, Sub(b, a), k);
    DotScale(w, Sub(c, a), k);
    assert Dot(w, Sub(b, a)) == 0.0;
    assert Dot(w, Sub(c, a)) == Dot(w, Sub(c, b)) - Dot(w, Sub(a, b));
    assert Dot(n, b) - Dot(a, n) == Dot(n, Sub(b, a));
    assert Dot(n, c) - Dot(a, n) == Dot(n, Sub(c, a));
  }
}
