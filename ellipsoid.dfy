/**
 * Shapes3D's Ellipsoid: an axis-aligned ellipsoid (a sphere when the three
 * radii agree) as a grid of (nbrSegs + 1) columns round the y axis and
 * (nbrSlices + 1) rows from pole to pole.
 *
 * Column col is at east-west angle col·(-2π/nbrSegs) and row row at
 * north-south angle row·(π/nbrSlices), so column nbrSegs closes the seam on
 * column 0 and rows 0 and nbrSlices are the two poles. The pole normals are
 * fixed (-j at row 0, +j at row nbrSlices); every other normal is the cross
 * product of the step between the neighbouring columns and the step between
 * the neighbouring rows, where the columns either side of the seam are
 * nbrSegs - 1 and 1. Texture coordinates are col/(nbrSegs + 1) and
 * row/(nbrSlices + 1), so they never reach 1.
 *
 * Sine, cosine and square root come from the `Maths` the shape is made
 * with.
 */
module Ellipsoid {

  import opened Vectors
  import opened ShapeParts

  datatype Dims = Dims(radX: real, radY: real, radZ: real, nbrSegs: int, nbrSlices: int)

  /** At least one segment and one slice: the angle steps divide by both. */
  predicate Fits(d: Dims)
  {
    d.nbrSegs >= 1 && d.nbrSlices >= 1
  }

  /** The east-west angle of column col. */
  function AngleEW(d: Dims, col: int): real
    requires Fits(d)
  {
    col as real * (-TwoPi / d.nbrSegs as real)
  }

  /** The north-south angle of row row. */
  function AngleNS(d: Dims, row: int): real
    requires Fits(d)
  {
    row as real * (Pi / d.nbrSlices as real)
  }

  /** The ellipsoid point with the given sines and cosines of its two angles. */
  function Surface(d: Dims, sinNS: real, cosNS: real, sinEW: real, cosEW: real): PVec
  {
    PVec(d.radX * sinNS * cosEW, -d.radY * cosNS, d.radZ * sinNS * sinEW)
  }

  /** The vertex at column col and row row. */
  function Vertex(mx: Maths, d: Dims, col: int, row: int): PVec
    requires Fits(d)
  {
    Surface(d, mx.sin(AngleNS(d, row)), mx.cos(AngleNS(d, row)),
            mx.sin(AngleEW(d, col)), mx.cos(AngleEW(d, col)))
  }

  /** The texture coordinates of column col and row row: in [0, 1), growing
    * with the column and with the row. */
  function TexCoord(d: Dims, col: int, row: int): (t: UV)
    requires Fits(d) && 0 <= col <= d.nbrSegs && 0 <= row <= d.nbrSlices
    ensures 0.0 <= t.u < 1.0 && 0.0 <= t.v < 1.0
    ensures col == 0 ==> t.u == 0.0
    ensures row == 0 ==> t.v == 0.0
  {
    FractionBelowOne(col, d.nbrSegs);
    FractionBelowOne(row, d.nbrSlices);
    UV(col as real / (d.nbrSegs as real + 1.0), row as real / (d.nbrSlices as real + 1.0))
  }

  /** Texture coordinates grow strictly along a row and down a column. */
  lemma {:induction false} TexCoordIncreasing(d: Dims, col: int, row: int)
    requires Fits(d) && 0 <= col < d.nbrSegs && 0 <= row < d.nbrSlices
    ensures TexCoord(d, col, row).u < TexCoord(d, col + 1, row).u
    ensures TexCoord(d, col, row).v < TexCoord(d, col, row + 1).v
  {
    var m := d.nbrSegs as real + 1.0;
    var k := d.nbrSlices as real + 1.0;
    assert (col + 1) as real / m - col as real / m == 1.0 / m;
    assert (row + 1) as real / k - row as real / k == 1.0 / k;
  }

  /** The column before col round the ellipsoid: column 0 shares its
    * position with column nbrSegs, so the one before it is nbrSegs - 1. */
  function ColPrev(d: Dims, col: int): (c: int)
    requires Fits(d) && 0 <= col <= d.nbrSegs
    ensures 0 <= c < d.nbrSegs
    ensures col > 0 ==> c == col - 1
  {
    if col == 0 then d.nbrSegs - 1 else col - 1
  }

  /** The column after col round the ellipsoid: after the seam column
    * nbrSegs comes column 1. */
  function ColNext(d: Dims, col: int): (c: int)
    requires Fits(d) && 0 <= col <= d.nbrSegs
    ensures 0 < c <= d.nbrSegs
    ensures col < d.nbrSegs ==> c == col + 1
  {
    if col == d.nbrSegs then 1 else col + 1
  }

  /** `Vector3D.minusJ` and `Vector3D.plusJ`. */
  const MinusJ := PVec(0.0, -1.0, 0.0)
  const PlusJ := PVec(0.0, 1.0, 0.0)

  /** The normal from the steps across (between the neighbouring columns)
    * and down (between the neighbouring rows). */
  function SurfaceNormal(mx: Maths, next: PVec, prev: PVec, below: PVec, above: PVec): PVec
  {
    Normalize(mx, Cross3(Sub(next, prev), Sub(below, above)))
  }

  /** The normal `calcShape` computes at column col and row row, before any
    * orientation: fixed at the poles, and from the neighbours elsewhere. */
  function GridNormal(mx: Maths, d: Dims, col: int, row: int): (r: PVec)
    requires Fits(d) && 0 <= col <= d.nbrSegs && 0 <= row <= d.nbrSlices
    ensures row == 0 ==> r == MinusJ
    ensures row == d.nbrSlices ==> r == PlusJ
  {
    if row == 0 then MinusJ
    else if row == d.nbrSlices then PlusJ
    else SurfaceNormal(mx, Vertex(mx, d, ColNext(d, col), row), Vertex(mx, d, ColPrev(d, col), row),
                       Vertex(mx, d, col, row + 1), Vertex(mx, d, col, row - 1))
  }

  /** Sine and cosine take the same value a full turn back as at 0. */
  ghost predicate Periodic(mx: Maths)
  {
    mx.sin(-TwoPi) == mx.sin(0.0) && mx.cos(-TwoPi) == mx.cos(0.0)
  }

  /** The last column lies a full turn back from the first. */
  lemma {:induction false} LastColumnTurn(d: Dims)
    requires Fits(d)
    ensures AngleEW(d, d.nbrSegs) == -TwoPi
  {
    var n := d.nbrSegs as real;
    assert n * (-TwoPi / n) == -TwoPi;
  }

  /** With periodic sine and cosine the grid closes: the last column has
    * the vertices and the normals of the first. */
  lemma {:induction false} SeamCloses(mx: Maths, d: Dims, row: int)
    requires Fits(d) && Periodic(mx) && 0 <= row <= d.nbrSlices
    ensures Vertex(mx, d, d.nbrSegs, row) == Vertex(mx, d, 0, row)
    ensures GridNormal(mx, d, d.nbrSegs, row) == GridNormal(mx, d, 0, row)
  {
    LastColumnTurn(d);
    assert AngleEW(d, 0) == 0.0;
    forall j | 0 <= j <= d.nbrSlices
      ensures Vertex(mx, d, d.nbrSegs, j) == Vertex(mx, d, 0, j)
    {
    }
  }

  /** Every column meets at the north pole (row 0), on the y axis. */
  lemma {:induction false} NorthPole(mx: Maths, d: Dims, col: int)
    requires Fits(d) && Sound(mx)
    ensures Vertex(mx, d, col, 0) == PVec(0.0, -d.radY, 0.0)
  {
    assert AngleNS(d, 0) == 0.0;
  }

  /** A sphere's vertices are all at its radius from the centre, when sine
    * and cosine of the vertex's angles satisfy Pythagoras. */
  lemma {:induction false} OnSphere(mx: Maths, d: Dims, col: int, row: int)
    requires Fits(d) && d.radX == d.radY == d.radZ
    requires var a := AngleNS(d, row); mx.sin(a) * mx.sin(a) + mx.cos(a) * mx.cos(a) == 1.0
    requires var a := AngleEW(d, col); mx.sin(a) * mx.sin(a) + mx.cos(a) * mx.cos(a) == 1.0
    ensures var v := Vertex(mx, d, col, row); Dot(v, v) == d.radX * d.radX
  {
    var r := d.radX;
    var s, c := mx.sin(AngleNS(d, row)), mx.cos(AngleNS(d, row));
    var se, ce := mx.sin(AngleEW(d, col)), mx.cos(AngleEW(d, col));
    var v := Vertex(mx, d, col, row);
    assert v == PVec(r * s * ce, -r * c, r * s * se);
    calc {
      Dot(v, v);
      (r * s * ce) * (r * s * ce) + (-r * c) * (-r * c) + (r * s * se) * (r * s * se);
      { assert (r * s * ce) * (r * s * ce) + (r * s * se) * (r * s * se) == (r * r) * (s * s) * (ce * ce + se * se); }
      (r * r) * (s * s) * (ce * ce + se * se) + (r * r) * (c * c);
      (r * r) * (s * s) + (r * r) * (c * c);
      (r * r) * (s * s + c * c);
      r * r;
    }
  }

  /** Row row of the coordinate and texture grids. */
  method FillRow(mx: Maths, c: array2<PVec>, uv: array2<UV>, d: Dims, row: int)
    requires Fits(d) && 0 <= row <= d.nbrSlices
    requires c.Length0 == uv.Length0 == d.nbrSegs + 1 && c.Length1 == uv.Length1 == d.nbrSlices + 1
    modifies c, uv
    ensures forall i, j :: 0 <= i < c.Length0 && 0 <= j < c.Length1 && j != row ==>
              c[i, j] == old(c[i, j]) && uv[i, j] == old(uv[i, j])
    ensures forall i :: 0 <= i <= d.nbrSegs ==> c[i, row] == Vertex(mx, d, i, row) && uv[i, row] == TexCoord(d, i, row)
  {
    for col := 0 to d.nbrSegs + 1
      invariant forall i, j :: 0 <= i < c.Length0 && 0 <= j < c.Length1 && j != row ==>
                  c[i, j] == old(c[i, j]) && uv[i, j] == old(uv[i, j])
      invariant forall i :: 0 <= i < col ==> c[i, row] == Vertex(mx, d, i, row) && uv[i, row] == TexCoord(d, i, row)
    {
      c[col, row] := Vertex(mx, d, col, row);
      uv[col, row] := TexCoord(d, col, row);
    }
  }

  /** The coordinate and texture grids of `calcShape`, row by row. */
  method CalcCoords(mx: Maths, d: Dims) returns (c: array2<PVec>, uv: array2<UV>)
    requires Fits(d)
    ensures fresh(c) && fresh(uv)
    ensures c.Length0 == uv.Length0 == d.nbrSegs + 1 && c.Length1 == uv.Length1 == d.nbrSlices + 1
    ensures forall i, j :: 0 <= i <= d.nbrSegs && 0 <= j <= d.nbrSlices ==>
              c[i, j] == Vertex(mx, d, i, j) && uv[i, j] == TexCoord(d, i, j)
  {
    c := new PVec[d.nbrSegs + 1, d.nbrSlices + 1];
    uv := new UV[d.nbrSegs + 1, d.nbrSlices + 1];
    for row := 0 to d.nbrSlices + 1
      invariant forall i, j :: 0 <= i <= d.nbrSegs && 0 <= j < row ==>
                  c[i, j] == Vertex(mx, d, i, j) && uv[i, j] == TexCoord(d, i, j)
    {
      FillRow(mx, c, uv, d, row);
    }
  }

  /** The fixed normals at the two poles, for every column. */
  method PoleNormals(n: array2<PVec>)
    requires n.Length1 >= 2
    modifies n
    ensures forall i, j :: 0 <= i < n.Length0 && 0 < j < n.Length1 - 1 ==> n[i, j] == old(n[i, j])
    ensures forall i :: 0 <= i < n.Length0 ==> n[i, 0] == MinusJ && n[i, n.Length1 - 1] == PlusJ
  {
    var last := n.Length1 - 1;
    for col := 0 to n.Length0
      invariant forall i, j :: 0 <= i < n.Length0 && 0 < j < last ==> n[i, j] == old(n[i, j])
      invariant forall i :: 0 <= i < col ==> n[i, 0] == MinusJ && n[i, last] == PlusJ
    {
      n[col, 0] := MinusJ;
      n[col, last] := PlusJ;
    }
  }

  /** Row row of the normals between the poles, from the coordinate grid. */
  method InteriorRow(mx: Maths, d: Dims, c: array2<PVec>, n: array2<PVec>, row: int)
    requires Fits(d) && 0 < row < d.nbrSlices
    requires c != n && c.Length0 == n.Length0 == d.nbrSegs + 1 && c.Length1 == n.Length1 == d.nbrSlices + 1
    modifies n
    ensures forall i, j :: 0 <= i < n.Length0 && 0 <= j < n.Length1 && j != row ==> n[i, j] == old(n[i, j])
    ensures forall i :: 0 <= i <= d.nbrSegs ==>
              n[i, row] == SurfaceNormal(mx, c[ColNext(d, i), row], c[ColPrev(d, i), row], c[i, row + 1], c[i, row - 1])
  {
    for col := 0 to d.nbrSegs + 1
      invariant forall i, j :: 0 <= i < n.Length0 && 0 <= j < n.Length1 && j != row ==> n[i, j] == old(n[i, j])
      invariant forall i :: 0 <= i < col ==>
                  n[i, row] == SurfaceNormal(mx, c[ColNext(d, i), row], c[ColPrev(d, i), row], c[i, row + 1], c[i, row - 1])
    {
      var colPrev := ColPrev(d, col);
      var colNext := ColNext(d, col);
      n[col, row] := SurfaceNormal(mx, c[colNext, row], c[colPrev, row], c[col, row + 1], c[col, row - 1]);
    }
  }

  /** The normal grid of `calcShape`: the poles, then the rows between. */
  method CalcNormals(mx: Maths, d: Dims, c: array2<PVec>) returns (n: array2<PVec>)
    requires Fits(d) && c.Length0 == d.nbrSegs + 1 && c.Length1 == d.nbrSlices + 1
    ensures fresh(n) && n.Length0 == c.Length0 && n.Length1 == c.Length1
    ensures forall i :: 0 <= i <= d.nbrSegs ==> n[i, 0] == MinusJ && n[i, d.nbrSlices] == PlusJ
    ensures forall i, j :: 0 <= i <= d.nbrSegs && 0 < j < d.nbrSlices ==>
              n[i, j] == SurfaceNormal(mx, c[ColNext(d, i), j], c[ColPrev(d, i), j], c[i, j + 1], c[i, j - 1])
  {
    n := new PVec[c.Length0, c.Length1];
    PoleNormals(n);
    for row := 1 to d.nbrSlices
      invariant forall i :: 0 <= i <= d.nbrSegs ==> n[i, 0] == MinusJ && n[i, d.nbrSlices] == PlusJ
      invariant forall i, j :: 0 <= i <= d.nbrSegs && 0 < j < row ==>
                  n[i, j] == SurfaceNormal(mx, c[ColNext(d, i), j], c[ColPrev(d, i), j], c[i, j + 1], c[i, j - 1])
    {
      InteriorRow(mx, d, c, n, row);
    }
  }

  /** `calcShape`: the coordinate, normal and texture grids, each
    * (nbrSegs + 1) × (nbrSlices + 1); without an orientation they hold the
    * ellipsoid's vertices and normals, with one those moved by it. */
  method CalcShape(mx: Maths, d: Dims, o: Orientation)
    returns (c: array2<PVec>, n: array2<PVec>, uv: array2<UV>)
    requires Fits(d)
    ensures fresh(c) && fresh(n) && fresh(uv)
    ensures c.Length0 == n.Length0 == uv.Length0 == d.nbrSegs + 1
    ensures c.Length1 == n.Length1 == uv.Length1 == d.nbrSlices + 1
    ensures forall i, j :: 0 <= i <= d.nbrSegs && 0 <= j <= d.nbrSlices ==> uv[i, j] == TexCoord(d, i, j)
    ensures o.NoOrientation? ==>
              forall i, j :: 0 <= i <= d.nbrSegs && 0 <= j <= d.nbrSlices ==>
                c[i, j] == Vertex(mx, d, i, j) && n[i, j] == GridNormal(mx, d, i, j)
    ensures o.Orientation? ==>
              forall i, j :: 0 <= i <= d.nbrSegs && 0 <= j <= d.nbrSlices ==>
                c[i, j] == o.applyRT(Vertex(mx, d, i, j)) &&
                n[i, j] == Normalize(mx, o.applyR(GridNormal(mx, d, i, j)))
  {
    c, uv := CalcCoords(mx, d);
    n := CalcNormals(mx, d, c);
    forall i, j | 0 <= i <= d.nbrSegs && 0 <= j <= d.nbrSlices
      ensures n[i, j] == GridNormal(mx, d, i, j)
    {
    }
    Orient(mx, o, c, n);
  }

  class Ellipsoid {
    const mx: Maths
    const dims: Dims
    const orientation: Orientation
    const pickColor: bv32
    var coord: array2<PVec>
    var normals: array2<PVec>
    var uv01: array2<UV>
    var parts: seq<Part>

    /** `Ellipsoid(radX, radY, radZ, nbrSegs, nbrSlices, orientation)`: the
      * grids of `calcShape` and the single surface part of `makeParts`. */
    constructor (mx: Maths, dims: Dims, orientation: Orientation, pickColor: bv32)
      requires Fits(dims)
      ensures this.mx == mx && this.dims == dims && this.orientation == orientation && this.pickColor == pickColor
      ensures coord.Length0 == normals.Length0 == uv01.Length0 == dims.nbrSegs + 1
      ensures coord.Length1 == normals.Length1 == uv01.Length1 == dims.nbrSlices + 1
      ensures forall i, j :: 0 <= i <= dims.nbrSegs && 0 <= j <= dims.nbrSlices ==> uv01[i, j] == TexCoord(dims, i, j)
      ensures orientation.NoOrientation? ==>
                forall i, j :: 0 <= i <= dims.nbrSegs && 0 <= j <= dims.nbrSlices ==>
                  coord[i, j] == Vertex(mx, dims, i, j) && normals[i, j] == GridNormal(mx, dims, i, j)
      ensures orientation.Orientation? ==>
                forall i, j :: 0 <= i <= dims.nbrSegs && 0 <= j <= dims.nbrSlices ==>
                  coord[i, j] == orientation.applyRT(Vertex(mx, dims, i, j)) &&
                  normals[i, j] == Normalize(mx, orientation.applyR(GridNormal(mx, dims, i, j)))
      ensures parts == [Mesh(pickColor)]
    {
      this.mx := mx;
      this.dims := dims;
      this.orientation := orientation;
      this.pickColor := pickColor;
      var c, n, uv := CalcShape(mx, dims, orientation);
      coord := c;
      normals := n;
      uv01 := uv;
      parts := [Mesh(pickColor)];
    }

    /** `Ellipsoid(rad, nbrSegs, nbrSlices)`: a sphere with no orientation. */
    constructor Sphere(mx: Maths, rad: real, nbrSegs: int, nbrSlices: int, pickColor: bv32)
      requires nbrSegs >= 1 && nbrSlices >= 1
      ensures this.mx == mx && dims == Dims(rad, rad, rad, nbrSegs, nbrSlices)
      ensures orientation == NoOrientation && this.pickColor == pickColor
      ensures coord.Length0 == normals.Length0 == nbrSegs + 1 && coord.Length1 == normals.Length1 == nbrSlices + 1
      ensures forall i, j :: 0 <= i <= nbrSegs && 0 <= j <= nbrSlices ==>
                coord[i, j] == Vertex(mx, dims, i, j) && normals[i, j] == GridNormal(mx, dims, i, j)
      ensures parts == [Mesh(pickColor)]
    {
      this.mx := mx;
      dims := Dims(rad, rad, rad, nbrSegs, nbrSlices);
      orientation := NoOrientation;
      this.pickColor := pickColor;
      var c, n, uv := CalcShape(mx, Dims(rad, rad, rad, nbrSegs, nbrSlices), NoOrientation);
      coord := c;
      normals := n;
      uv01 := uv;
      parts := [Mesh(pickColor)];
    }
  }
}
