/**
 * Shapes3D's LinearScale: scale factors for an extrusion's cross-section
 * that change linearly from t = 0 to t = 1 along the path.
 */
module LinearScale {

  /** The stored start values and ranges. */
  datatype Scale = Scale(sx0: real, sy0: real, rangeX: real, rangeY: real)

  /** `LinearScale(sx0, sx1, sy0, sy1)`. */
  function Make(sx0: real, sx1: real, sy0: real, sy1: real): (s: Scale)
    ensures s.sx0 == sx0 && s.sx0 + s.rangeX == sx1
    ensures s.sy0 == sy0 && s.sy0 + s.rangeY == sy1
  {
    Scale(sx0, sy0, sx1 - sx0, sy1 - sy0)
  }

  /** `LinearScale()`: 1:1 on both axes. */
  function Identity(): (s: Scale)
    ensures s.sx0 == 1.0 && s.sy0 == 1.0 && s.rangeX == 0.0 && s.rangeY == 0.0
  {
    Make(1.0, 1.0, 1.0, 1.0)
  }

  /** Between t = 0 and t = 1 the x scale stays between its end values. */
  function ScaleX(s: Scale, t: real): (r: real)
    ensures 0.0 <= t <= 1.0 && 0.0 <= s.rangeX ==> s.sx0 <= r <= s.sx0 + s.rangeX
    ensures 0.0 <= t <= 1.0 && s.rangeX <= 0.0 ==> s.sx0 + s.rangeX <= r <= s.sx0
  {
    s.sx0 + t * s.rangeX
  }

  /** Between t = 0 and t = 1 the y scale stays between its end values. */
  function ScaleY(s: Scale, t: real): (r: real)
    ensures 0.0 <= t <= 1.0 && 0.0 <= s.rangeY ==> s.sy0 <= r <= s.sy0 + s.rangeY
    ensures 0.0 <= t <= 1.0 && s.rangeY <= 0.0 ==> s.sy0 + s.rangeY <= r <= s.sy0
  {
    s.sy0 + t * s.rangeY
  }

  /** The scale interpolates its end values: sx0 and sy0 at t = 0, sx1 and
    * sy1 at t = 1. */
  lemma {:induction false} Endpoints(sx0: real, sx1: real, sy0: real, sy1: real)
    ensures var s := Make(sx0, sx1, sy0, sy1);
            ScaleX(s, 0.0) == sx0 && ScaleX(s, 1.0) == sx1 &&
            ScaleY(s, 0.0) == sy0 && ScaleY(s, 1.0) == sy1
  {
    var s := Make(sx0, sx1, sy0, sy1);
    assert 0.0 * s.rangeX == 0.0 && 1.0 * s.rangeX == s.rangeX;
    assert 0.0 * s.rangeY == 0.0 && 1.0 * s.rangeY == s.rangeY;
  }

  /** The no-argument scale leaves the cross-section unscaled everywhere. */
  lemma {:induction false} IdentityIsOne(t: real)
    ensures ScaleX(Identity(), t) == 1.0 && ScaleY(Identity(), t) == 1.0
  {
    assert t * 0.0 == 0.0;
  }

  /** With sx1 >= sx0 the x scale never decreases along the path. */
  lemma {:induction false} MonotoneX(sx0: real, sx1: real, sy0: real, sy1: real, t1: real, t2: real)
    requires sx1 >= sx0 && t1 <= t2
    ensures ScaleX(Make(sx0, sx1, sy0, sy1), t1) <= ScaleX(Make(sx0, sx1, sy0, sy1), t2)
  {
    var r := sx1 - sx0;
    assert t2 * r - t1 * r == (t2 - t1) * r >= 0.0;
  }
}
