/**
 * Shapes3D's Oval: a circular or elliptical cross-section of nbrSegs
 * segments. `calcSection` places vertex s at angle -s·2π/nbrSegs (clockwise
 * from the x axis), repeats vertex 0 at the end to close the loop, and
 * gives every vertex texture coordinates inside the unit square, with the
 * centre (0.5, 0.5) in front of them. `mirror` builds the same oval with
 * every u flipped to 1 - u.
 *
 * Sine and cosine come from the `Maths` the oval is made with.
 */
module Oval {

  import opened Vectors

  /** The angle of vertex s. */
  function Angle(nbrSegs: int, s: int): real
    requires nbrSegs > 0
  {
    -(s as real) * (TwoPi / nbrSegs as real)
  }

  /** The vertex `calcSection` computes for segment s. */
  function Coord(mx: Maths, radiusX: real, radiusY: real, nbrSegs: int, s: int): PVec
    requires nbrSegs > 0
  {
    PVec(radiusX * mx.cos(Angle(nbrSegs, s)), radiusY * mx.sin(Angle(nbrSegs, s)), 0.0)
  }

  /** The texture coordinates `calcSection` computes for segment s. */
  function SegmentUV(mx: Maths, nbrSegs: int, s: int): (t: UV)
    requires nbrSegs > 0
    ensures Sound(mx) ==> 0.0 <= t.u <= 1.0 && 0.0 <= t.v <= 1.0
  {
    UV((1.0 - mx.cos(Angle(nbrSegs, s))) / 2.0, (1.0 + mx.sin(Angle(nbrSegs, s))) / 2.0)
  }

  /** The texture coordinates of the mirrored oval. */
  function Mirrored(t: UV): (m: UV)
    ensures m.v == t.v && m.u + t.u == 1.0
  {
    UV(1.0 - t.u, t.v)
  }

  /** Mirroring twice restores the texture coordinates. */
  lemma {:induction false} MirroredTwice(t: UV)
    ensures Mirrored(Mirrored(t)) == t
  {
    assert 1.0 - (1.0 - t.u) == t.u;
  }

  /** A mirrored coordinate stays inside the unit square. */
  lemma {:induction false} MirroredInSquare(t: UV)
    requires 0.0 <= t.u <= 1.0 && 0.0 <= t.v <= 1.0
    ensures 0.0 <= Mirrored(t).u <= 1.0 && 0.0 <= Mirrored(t).v <= 1.0
  {
    assert Mirrored(t).u == 1.0 - t.u;
  }

  class Oval {
    const mx: Maths
    const radiusX: real
    const radiusY: real
    const nbrSegs: int
    var coords: array<PVec>
    var uvNorm: array<UV>

    /** `coords` has a vertex per segment and the first one again at the
      * end; `uvNorm` has the centre and then one entry per vertex. */
    ghost predicate Valid()
      reads this, coords
    {
      nbrSegs > 0 && coords.Length == nbrSegs + 1 && uvNorm.Length == nbrSegs + 2 &&
      coords != uvNorm as object &&
      (forall s :: 0 <= s < nbrSegs ==> coords[s] == Coord(mx, radiusX, radiusY, nbrSegs, s)) &&
      coords[nbrSegs] == coords[0]
    }

    /** The texture coordinates are those `calcSection` computes. */
    ghost predicate Computed()
      requires Valid()
      reads this, coords, uvNorm
    {
      uvNorm[0] == UV(0.5, 0.5) &&
      (forall s :: 0 <= s < nbrSegs ==> uvNorm[s + 1] == SegmentUV(mx, nbrSegs, s)) &&
      uvNorm[nbrSegs + 1] == uvNorm[1]
    }

    /** `Oval(radiusX, radiusY, nbrSegs)`. */
    constructor (mx: Maths, radiusX: real, radiusY: real, nbrSegs: int)
      requires nbrSegs > 0
      ensures this.mx == mx && this.radiusX == radiusX && this.radiusY == radiusY && this.nbrSegs == nbrSegs
      ensures Valid() && Computed()
      ensures fresh(coords) && fresh(uvNorm)
    {
      this.mx := mx;
      this.radiusX := radiusX;
      this.radiusY := radiusY;
      this.nbrSegs := nbrSegs;
      coords := new PVec[0];
      uvNorm := new UV[0];
      new;
      CalcSection();
    }

    /** `calcSection`. */
    method CalcSection()
      requires nbrSegs > 0
      modifies this`coords, this`uvNorm
      ensures Valid() && Computed()
      ensures fresh(coords) && fresh(uvNorm)
    {
      var c := new PVec[nbrSegs + 1];
      var uvTemp := new UV[nbrSegs + 1];
      var s := 0;
      while s < nbrSegs
        invariant 0 <= s <= nbrSegs
        invariant forall k :: 0 <= k < s ==> c[k] == Coord(mx, radiusX, radiusY, nbrSegs, k)
        invariant forall k :: 0 <= k < s ==> uvTemp[k] == SegmentUV(mx, nbrSegs, k)
      {
        c[s] := Coord(mx, radiusX, radiusY, nbrSegs, s);
        uvTemp[s] := SegmentUV(mx, nbrSegs, s);
        s := s + 1;
      }
      c[nbrSegs] := c[0];
      uvTemp[nbrSegs] := uvTemp[0];
      var uv := new UV[uvTemp.Length + 1];
      forall k | 0 <= k < uvTemp.Length {
        uv[k + 1] := uvTemp[k];
      }
      uv[0] := UV(0.5, 0.5);
      coords := c;
      uvNorm := uv;
    }

    /** `uv()`: with the centre, every texture coordinate lies in the unit
      * square. */
    lemma {:induction false} UVInSquare(i: int)
      requires Valid() && Computed() && Sound(mx) && 0 <= i < uvNorm.Length
      ensures 0.0 <= uvNorm[i].u <= 1.0 && 0.0 <= uvNorm[i].v <= 1.0
    {
      if 0 < i <= nbrSegs {
        assert uvNorm[i] == SegmentUV(mx, nbrSegs, i - 1);
      } else if i == nbrSegs + 1 {
        assert uvNorm[i] == SegmentUV(mx, nbrSegs, 0);
      }
    }

    /** `mirror()`: a new oval of the same shape whose u coordinates are
      * flipped; this oval is unchanged. */
    method Mirror() returns (m: Oval)
      requires Valid() && Computed()
      ensures fresh(m) && fresh(m.uvNorm) && m.Valid()
      ensures m.mx == mx && m.radiusX == radiusX && m.radiusY == radiusY && m.nbrSegs == nbrSegs
      ensures m.coords[..] == coords[..]
      ensures m.uvNorm.Length == uvNorm.Length
      ensures forall i :: 0 <= i < uvNorm.Length ==> m.uvNorm[i] == Mirrored(uvNorm[i])
    {
      m := new Oval(mx, radiusX, radiusY, nbrSegs);
      forall k | 0 <= k < uvNorm.Length
        ensures m.uvNorm[k] == uvNorm[k]
      {
        if 0 < k <= nbrSegs {
          assert m.uvNorm[k] == SegmentUV(mx, nbrSegs, k - 1) == uvNorm[k];
        } else if k == nbrSegs + 1 {
          assert m.uvNorm[k] == SegmentUV(mx, nbrSegs, 0) == uvNorm[k];
        }
      }
      var i := 0;
      while i < m.uvNorm.Length
        invariant 0 <= i <= m.uvNorm.Length
        invariant fresh(m.uvNorm) && m.Valid()
        invariant forall k :: 0 <= k < i ==> m.uvNorm[k] == Mirrored(uvNorm[k])
        invariant forall k :: i <= k < m.uvNorm.Length ==> m.uvNorm[k] == uvNorm[k]
      {
        m.uvNorm[i] := UV(1.0 - m.uvNorm[i].u, m.uvNorm[i].v);
        i := i + 1;
      }
    }
  }
}
