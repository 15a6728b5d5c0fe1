/**
 * Shapes3D's Ring: a closed circular or elliptical path in the XZ plane,
 * point(t) = (radX·cos(2πt), 0, radZ·sin(2πt)).
 */
module RingPath {

  import opened Vectors
  import AbstractPath

  datatype Ring = Ring(radX: real, radZ: real, nbrSlices: int)

  /** `Ring(radius, nbrSlices)`: a circle, both radii equal. */
  function Circle(radius: real, nbrSlices: int): (r: Ring)
    ensures r.radX == radius && r.radZ == radius && r.nbrSlices == nbrSlices
  {
    Ring(radius, radius, nbrSlices)
  }

  /** A ring is a closed path. */
  function IsOpenPath(r: Ring): (open: bool)
    ensures !open
  {
    false
  }

  function Point(mx: Maths, r: Ring, t: real): (p: PVec)
    ensures p.y == 0.0
    ensures Sound(mx) ==> (-r.radX <= p.x <= r.radX || r.radX <= p.x <= -r.radX)
  {
    BoundedProduct(r.radX, mx.cos(t * TwoPi));
    PVec(r.radX * mx.cos(t * TwoPi), 0.0, r.radZ * mx.sin(t * TwoPi))
  }

  /** |c| <= 1 bounds r·c by ±r. */
  lemma BoundedProduct(r: real, c: real)
    ensures -1.0 <= c <= 1.0 ==> (-r <= r * c <= r || r <= r * c <= -r)
  {
    if -1.0 <= c <= 1.0 {
      if r >= 0.0 {
        assert r * c <= r * 1.0 && r * c >= r * -1.0;
      } else {
        assert r * c >= r * 1.0 && r * c <= r * -1.0;
      }
    }
  }

  /** The ring starts at (radX, 0, 0). */
  lemma {:induction false} PointAtStart(mx: Maths, r: Ring)
    requires Sound(mx)
    ensures Point(mx, r, 0.0) == PVec(r.radX, 0.0, 0.0)
  {
    assert 0.0 * TwoPi == 0.0;
    assert mx.cos(0.0) == 1.0 && mx.sin(0.0) == 0.0;
  }

  /** The default tangent: along the chord between the points one degree
    * of t either side. */
  function Tangent(mx: Maths, r: Ring, t: real): (tan: PVec)
    ensures var chord := Sub(Point(mx, r, t + OneDegT), Point(mx, r, t - OneDegT));
            (chord == Zero ==> tan == Zero) &&
            (0.0 < mx.sqrt(Dot(chord, chord)) ==> exists k :: 0.0 < k && tan == Scale(chord, k))
  {
    AbstractPath.Tangent(mx, s => Point(mx, r, s), t)
  }

  /** Every tangent of a ring lies in the XZ plane. */
  lemma {:induction false} TangentFlat(mx: Maths, r: Ring, t: real)
    ensures Tangent(mx, r, t).y == 0.0
  {
    var chord := Sub(Point(mx, r, t + OneDegT), Point(mx, r, t - OneDegT));
    assert chord.y == 0.0;
    var m := mx.sqrt(Dot(chord, chord));
    if m != 0.0 && m != 1.0 {
      assert Tangent(mx, r, t) == Scale(chord, 1.0 / m);
    }
  }

  /** `orthogonal`: perpendicular to the tangent, in the XZ plane, and as
    * long as the tangent. */
  lemma {:induction false} OrthogonalOfRing(mx: Maths, r: Ring, t: real)
    ensures var tan := Tangent(mx, r, t);
            var o := AbstractPath.Orthogonal(tan);
            o.y == 0.0 && Dot(o, tan) == 0.0 && Dot(o, o) == Dot(tan, tan)
  {
    TangentFlat(mx, r, t);
  }
}
