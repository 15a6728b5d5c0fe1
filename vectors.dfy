/**
 * Processing's PVector, as a value: three reals. Floats and doubles are
 * modelled as reals. Sine, cosine and the square root are not computed:
 * they are the fields of a `Maths` value that callers pass in, and the
 * only facts known about them are those `Sound` states.
 */
module Vectors {

  datatype PVec = PVec(x: real, y: real, z: real)

  const Zero := PVec(0.0, 0.0, 0.0)

  /** A Java reference that may be null. */
  datatype Option<T> = None | Some(value: T)

  /** Shapes3D's texture coordinate pair. */
  datatype UV = UV(u: real, v: real)

  function Add(a: PVec, b: PVec): PVec
  {
    PVec(a.x + b.x, a.y + b.y, a.z + b.z)
  }

  function Sub(a: PVec, b: PVec): PVec
  {
    PVec(a.x - b.x, a.y - b.y, a.z - b.z)
  }

  function Scale(a: PVec, s: real): PVec
  {
    PVec(a.x * s, a.y * s, a.z * s)
  }

  function Neg(a: PVec): PVec
  {
    PVec(-a.x, -a.y, -a.z)
  }

  function Dot(a: PVec, b: PVec): real
  {
    a.x * b.x + a.y * b.y + a.z * b.z
  }

  /** The cross product, as `PVector.cross` and `Vector3D.crossProduct`
    * compute it. */
  function Cross3(a: PVec, b: PVec): PVec
  {
    PVec(a.y * b.z - a.z * b.y, a.z * b.x - a.x * b.z, a.x * b.y - a.y * b.x)
  }

  /** The 2-D vector (x, y, 0), as `new PVector(x, y)` builds it. */
  function Of2(x: real, y: real): PVec
  {
    PVec(x, y, 0.0)
  }

  /** An Orientation: `applyRTto` (rotate, then translate) for coordinates
    * and `applyRto` (rotate only) for normals, or none at all (Java's null). */
  datatype Orientation = NoOrientation | Orientation(applyRT: PVec -> PVec, applyR: PVec -> PVec)

  /** Math.PI, and the constant ONE_DEG_T = PI / 180. */
  const Pi: real := 3.141592653589793
  const TwoPi: real := 2.0 * Pi
  const OneDegT: real := Pi / 180.0

  datatype Maths = Maths(sin: real -> real, cos: real -> real, sqrt: real -> real)

  /** The facts about sine, cosine and the square root that the proofs use. */
  ghost predicate Sound(mx: Maths)
  {
    mx.sin(0.0) == 0.0 && mx.cos(0.0) == 1.0 && mx.sqrt(0.0) == 0.0 &&
    (forall a :: -1.0 <= mx.sin(a) <= 1.0) &&
    (forall a :: -1.0 <= mx.cos(a) <= 1.0) &&
    (forall v :: 0.0 <= v ==> 0.0 <= mx.sqrt(v) && mx.sqrt(v) * mx.sqrt(v) == v)
  }

  /** `PVector.dist`: the length of the difference. */
  function Dist(mx: Maths, a: PVec, b: PVec): real
  {
    mx.sqrt(Dot(Sub(a, b), Sub(a, b)))
  }

  /** Distances are never negative. */
  lemma {:induction false} DistNonNegative(mx: Maths, a: PVec, b: PVec)
    requires Sound(mx)
    ensures 0.0 <= Dist(mx, a, b)
  {
    var d := Sub(a, b);
    var q := Dot(d, d);
    assert d.x * d.x >= 0.0 && d.y * d.y >= 0.0 && d.z * d.z >= 0.0;
    assert q >= 0.0;
    assert 0.0 <= mx.sqrt(q);
  }

  /** A point is at distance 0 from itself. */
  lemma {:induction false} DistToSelf(mx: Maths, a: PVec)
    requires Sound(mx)
    ensures Dist(mx, a, a) == 0.0
  {
    assert Sub(a, a) == Zero;
    assert Dot(Zero, Zero) == 0.0;
  }

  /** `PVector.normalize`: divide by the magnitude unless it is 0 or 1.
    * The result keeps the direction of `v`: it is `v` scaled by a positive
    * factor whenever the magnitude is positive. */
  function Normalize(mx: Maths, v: PVec): (r: PVec)
    ensures v == Zero ==> r == Zero
    ensures mx.sqrt(Dot(v, v)) == 0.0 ==> r == v
    ensures 0.0 < mx.sqrt(Dot(v, v)) ==> exists k :: 0.0 < k && r == Scale(v, k)
  {
    var m := mx.sqrt(Dot(v, v));
    if m != 0.0 && m != 1.0 then
      assert 0.0 < m ==> 0.0 < 1.0 / m;
      Scale(v, 1.0 / m)
    else
      assert Scale(v, 1.0) == v;
      v
  }

  /** Reversing a vector reverses its normalised direction. */
  lemma {:induction false} NormalizeNeg(mx: Maths, v: PVec)
    ensures Normalize(mx, Neg(v)) == Neg(Normalize(mx, v))
  {
    assert Dot(Neg(v), Neg(v)) == Dot(v, v);
    var m := mx.sqrt(Dot(v, v));
    if m != 0.0 && m != 1.0 {
      assert Scale(Neg(v), 1.0 / m) == Neg(Scale(v, 1.0 / m));
    }
  }

  /** k/n, computed as k·(1/n), lies in [0, 1] for 0 <= k <= n. */
  lemma {:induction false} FractionInUnit(k: int, n: int)
    requires 0 <= k <= n && 0 < n
    ensures 0.0 <= k as real * (1.0 / n as real) <= 1.0
  {
    var d := 1.0 / n as real;
    assert 0.0 < d;
    assert n as real * d == 1.0;
    assert (n - k) as real * d >= 0.0;
    assert k as real * d + (n - k) as real * d == n as real * d;
  }

  /** k/(n+1) lies in [0, 1) for 0 <= k <= n. */
  lemma {:induction false} FractionBelowOne(k: int, n: int)
    requires 0 <= k <= n
    ensures 0.0 <= k as real / (n as real + 1.0) < 1.0
  {
    var d := n as real + 1.0;
    var q := k as real / d;
    assert q * d == k as real;
    assert (q - 1.0) * d == k as real - d < 0.0;
  }
}
