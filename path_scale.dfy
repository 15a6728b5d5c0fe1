/**
 * Shapes3D's PathScale: the x and y scale factors are read off two curves
 * (the y coordinate of each curve's point), with t clamped to [0, 1].
 * A curve is any path, passed as its point function.
 */
module PathScale {

  import opened Vectors

  datatype Scale = Scale(xCurve: real -> PVec, yCurve: real -> PVec)

  /** `PApplet.constrain(t, 0, 1)`. */
  function Constrain(t: real): (c: real)
    ensures 0.0 <= c <= 1.0
    ensures 0.0 <= t <= 1.0 ==> c == t
  {
    if t < 0.0 then 0.0 else if t > 1.0 then 1.0 else t
  }

  /** `scaleX`: the height of the x curve at the clamped t. Before the
    * start it is the start value and past the end the end value. */
  function ScaleX(s: Scale, t: real): (r: real)
    ensures t <= 0.0 ==> r == s.xCurve(0.0).y
    ensures t >= 1.0 ==> r == s.xCurve(1.0).y
    ensures 0.0 <= t <= 1.0 ==> r == s.xCurve(t).y
  {
    s.xCurve(Constrain(t)).y
  }

  /** `scaleY`: the height of the y curve at the clamped t. */
  function ScaleY(s: Scale, t: real): (r: real)
    ensures t <= 0.0 ==> r == s.yCurve(0.0).y
    ensures t >= 1.0 ==> r == s.yCurve(1.0).y
    ensures 0.0 <= t <= 1.0 ==> r == s.yCurve(t).y
  {
    s.yCurve(Constrain(t)).y
  }
}
