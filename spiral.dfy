/**
 * Shapes3D's Spiral: an open helical path about the y axis, centred on
 * y = 0. The constructor derives the start height, the total angle and the
 * total rise from the number of twirls and the pitch between them.
 */
module SpiralPath {

  import opened Vectors
  import AbstractPath
  import RingPath

  datatype Spiral = Spiral(radX: real, radZ: real, nbrTwirls: real, twirlPitch: real,
                           nbrSlices: int, startY: real, spiralAngle: real, spiralPitch: real)

  /** `Spiral(radiusX, radiusZ, nbrTwirls, twirlPitch, nbrSlices)`. */
  function Make(radX: real, radZ: real, nbrTwirls: real, twirlPitch: real, nbrSlices: int): (s: Spiral)
    ensures s.startY == -s.spiralPitch / 2.0
    ensures s.spiralPitch == nbrTwirls * twirlPitch
    ensures s.radX == radX && s.radZ == radZ && s.nbrSlices == nbrSlices
  {
    Spiral(radX, radZ, nbrTwirls, twirlPitch, nbrSlices,
           -nbrTwirls * twirlPitch / 2.0, nbrTwirls * TwoPi, nbrTwirls * twirlPitch)
  }

  /** `Spiral(radius, nbrTwirls, twirlPitch, nbrSlices)`: both radii equal. */
  function Circular(radius: real, nbrTwirls: real, twirlPitch: real, nbrSlices: int): (s: Spiral)
    ensures s == Make(radius, radius, nbrTwirls, twirlPitch, nbrSlices)
    ensures s.radX == s.radZ
  {
    Make(radius, radius, nbrTwirls, twirlPitch, nbrSlices)
  }

  /** A spiral is an open path. */
  function IsOpenPath(s: Spiral): (open: bool)
    ensures open
  {
    true
  }

  /** Seen from above, the spiral stays inside the box of its radii. */
  function Point(mx: Maths, s: Spiral, t: real): (p: PVec)
    ensures Sound(mx) ==> (-s.radX <= p.x <= s.radX || s.radX <= p.x <= -s.radX)
    ensures Sound(mx) ==> (-s.radZ <= p.z <= s.radZ || s.radZ <= p.z <= -s.radZ)
  {
    RingPath.BoundedProduct(s.radX, mx.cos(t * s.spiralAngle));
    RingPath.BoundedProduct(s.radZ, mx.sin(t * s.spiralAngle));
    PVec(s.radX * mx.cos(t * s.spiralAngle), t * s.spiralPitch + s.startY,
         s.radZ * mx.sin(t * s.spiralAngle))
  }

  /** The height is affine in t: it rises by the same amount per unit of t. */
  lemma {:induction false} HeightAffine(mx: Maths, s: Spiral, t1: real, t2: real)
    ensures Point(mx, s, t2).y - Point(mx, s, t1).y == (t2 - t1) * s.spiralPitch
  {
    assert t2 * s.spiralPitch - t1 * s.spiralPitch == (t2 - t1) * s.spiralPitch;
  }

  /** A spiral built by the constructor runs from height startY at t = 0
    * to -startY at t = 1, symmetric about y = 0. */
  lemma {:induction false} EndsSymmetric(mx: Maths, radX: real, radZ: real, nbrTwirls: real,
                                         twirlPitch: real, nbrSlices: int)
    ensures var s := Make(radX, radZ, nbrTwirls, twirlPitch, nbrSlices);
            Point(mx, s, 0.0).y == s.startY && Point(mx, s, 1.0).y == -s.startY
  {
    var s := Make(radX, radZ, nbrTwirls, twirlPitch, nbrSlices);
    assert 0.0 * s.spiralPitch == 0.0;
    assert 1.0 * s.spiralPitch == s.spiralPitch;
  }

  /** The default tangent: along the chord between the points one degree
    * of t either side. */
  function Tangent(mx: Maths, s: Spiral, t: real): (tan: PVec)
    ensures var chord := Sub(Point(mx, s, t + OneDegT), Point(mx, s, t - OneDegT));
            (chord == Zero ==> tan == Zero) &&
            (0.0 < mx.sqrt(Dot(chord, chord)) ==> exists k :: 0.0 < k && tan == Scale(chord, k))
  {
    AbstractPath.Tangent(mx, u => Point(mx, s, u), t)
  }

  /** `orthogonal`: perpendicular to the tangent and horizontal. */
  lemma OrthogonalOfSpiral(mx: Maths, s: Spiral, t: real)
    ensures var tan := Tangent(mx, s, t);
            var o := AbstractPath.Orthogonal(tan);
            o.y == 0.0 && Dot(o, tan) == 0.0
  {
  }
}
