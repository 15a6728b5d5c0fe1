/**
 * Shapes3D's Extrusion: a cross-section polygon swept along a path.
 *
 * Column col of the grid samples the path at t = col·(1/nbrSlices); row row
 * is vertex row of the cross-section, scaled by the two scale factors at t,
 * turned by the rotation the path's tangent and orthogonal give at t and
 * moved to the path's point at t. Each normal is the cross product of the
 * step back along the path and the step to the next cross-section vertex;
 * the last row wraps round to vertex 1 and the last column, which has no
 * column after it, looks back and flips its normal.
 *
 * The path, the scale and the rotation built from the path's frame are
 * parameters (`Sweep`); the cross-section polygon is its coordinates and v
 * texture coordinates (`Section`).
 */
module Extrusion {

  import opened Vectors
  import opened ShapeParts

  datatype Sweep = Sweep(point: real -> PVec, rotation: (real, PVec) -> PVec,
                         scaleX: real -> real, scaleY: real -> real,
                         nbrSlices: int, open: bool)

  datatype Section = Section(coords: seq<PVec>, v: seq<real>, nbrSegs: int)

  /** The grid dimensions the source indexes without going out of bounds. */
  predicate Fits(sw: Sweep, xs: Section)
  {
    sw.nbrSlices >= 1 && xs.nbrSegs >= 1 && |xs.coords| > xs.nbrSegs && |xs.v| > xs.nbrSegs
  }

  /** The path parameter of column col. */
  function T(col: int, nbrSlices: int): real
    requires nbrSlices >= 1
  {
    col as real * (1.0 / nbrSlices as real)
  }

  /** A section vertex scaled by the two factors, in the z = 0 plane. */
  function Scaled(cv: PVec, sx: real, sy: real): PVec
  {
    PVec(cv.x * sx, cv.y * sy, 0.0)
  }

  /** The vertex at column col and row row. */
  function Vertex(sw: Sweep, xs: Section, col: int, row: int): PVec
    requires Fits(sw, xs) && 0 <= row <= xs.nbrSegs
  {
    var t := T(col, sw.nbrSlices);
    Add(sw.rotation(t, Scaled(xs.coords[row], sw.scaleX(t), sw.scaleY(t))), sw.point(t))
  }

  /** Texture coordinates: u runs along the path, v is the section's. */
  function TexCoord(sw: Sweep, xs: Section, col: int, row: int): (t: UV)
    requires Fits(sw, xs) && 0 <= col <= sw.nbrSlices && 0 <= row <= xs.nbrSegs
    ensures 0.0 <= t.u <= 1.0 && t.v == xs.v[row]
    ensures col == 0 ==> t.u == 0.0
    ensures col == sw.nbrSlices ==> t.u == 1.0
  {
    FractionInUnit(col, sw.nbrSlices);
    UV(T(col, sw.nbrSlices), xs.v[row])
  }

  /** The row whose vertex is the next one round the section: after the
    * last row (a repeat of row 0) comes row 1. */
  function RowNext(row: int, nbrSegs: int): (r: int)
    requires 1 <= nbrSegs && 0 <= row <= nbrSegs
    ensures 0 <= r <= nbrSegs
    ensures row < nbrSegs ==> r == row + 1
    ensures row == nbrSegs ==> r == 1
  {
    if row < nbrSegs then row + 1 else 1
  }

  /** The neighbouring column: the next one, or the previous one for the
    * last column. */
  function ColNext(col: int, nbrSlices: int): (c: int)
    requires 1 <= nbrSlices && 0 <= col <= nbrSlices
    ensures 0 <= c <= nbrSlices && c != col
    ensures c == col + 1 || (col == nbrSlices && c == col - 1)
  {
    if col < nbrSlices then col + 1 else col - 1
  }

  /** The normal from a vertex, its neighbour along the path and its
    * neighbour round the section, flipped for the last column. */
  function SurfaceNormal(mx: Maths, here: PVec, along: PVec, across: PVec, last: bool): PVec
  {
    var x := Cross3(Sub(here, along), Sub(across, here));
    Normalize(mx, if last then Neg(x) else x)
  }

  /** The normal `calcShape` computes at column col and row row, before any
    * orientation. */
  function GridNormal(mx: Maths, sw: Sweep, xs: Section, col: int, row: int): PVec
    requires Fits(sw, xs) && 0 <= col <= sw.nbrSlices && 0 <= row <= xs.nbrSegs
  {
    SurfaceNormal(mx, Vertex(sw, xs, col, row),
                  Vertex(sw, xs, ColNext(col, sw.nbrSlices), row),
                  Vertex(sw, xs, col, RowNext(row, xs.nbrSegs)),
                  col == sw.nbrSlices)
  }

  /** Flipping the last column makes every normal the same construction:
    * the step back along the path from the column pair (lo, lo + 1),
    * crossed with the step round the section. */
  lemma {:induction false} NormalsFaceOneWay(mx: Maths, sw: Sweep, xs: Section, col: int, row: int)
    requires Fits(sw, xs) && 0 <= col <= sw.nbrSlices && 0 <= row <= xs.nbrSegs
    ensures var lo := if col < sw.nbrSlices then col else col - 1;
            var here := Vertex(sw, xs, col, row);
            GridNormal(mx, sw, xs, col, row) ==
              Normalize(mx, Cross3(Sub(Vertex(sw, xs, lo, row), Vertex(sw, xs, lo + 1, row)),
                                   Sub(Vertex(sw, xs, col, RowNext(row, xs.nbrSegs)), here)))
  {
    if col == sw.nbrSlices {
      var a := Sub(Vertex(sw, xs, col, row), Vertex(sw, xs, col - 1, row));
      var b := Sub(Vertex(sw, xs, col, RowNext(row, xs.nbrSegs)), Vertex(sw, xs, col, row));
      assert Neg(Cross3(a, b)) == Cross3(Neg(a), b);
      assert Neg(a) == Sub(Vertex(sw, xs, col - 1, row), Vertex(sw, xs, col, row));
    }
  }

  /** A closed section (last vertex a repeat of the first) gives the same
    * vertices and normals along the seam. */
  lemma {:induction false} SeamMatches(mx: Maths, sw: Sweep, xs: Section, col: int)
    requires Fits(sw, xs) && 0 <= col <= sw.nbrSlices
    requires xs.coords[xs.nbrSegs] == xs.coords[0]
    ensures Vertex(sw, xs, col, xs.nbrSegs) == Vertex(sw, xs, col, 0)
    ensures GridNormal(mx, sw, xs, col, xs.nbrSegs) == GridNormal(mx, sw, xs, col, 0)
  {
    assert Vertex(sw, xs, ColNext(col, sw.nbrSlices), xs.nbrSegs) == Vertex(sw, xs, ColNext(col, sw.nbrSlices), 0);
  }

  /** Column col of the coordinate and texture grids. */
  method FillColumn(c: array2<PVec>, uv: array2<UV>, sw: Sweep, xs: Section, col: int)
    requires Fits(sw, xs) && 0 <= col <= sw.nbrSlices
    requires c.Length0 == uv.Length0 == sw.nbrSlices + 1 && c.Length1 == uv.Length1 == xs.nbrSegs + 1
    modifies c, uv
    ensures forall i, j :: 0 <= i < c.Length0 && 0 <= j < c.Length1 && i != col ==>
              c[i, j] == old(c[i, j]) && uv[i, j] == old(uv[i, j])
    ensures forall j :: 0 <= j <= xs.nbrSegs ==> c[col, j] == Vertex(sw, xs, col, j) && uv[col, j] == TexCoord(sw, xs, col, j)
  {
    var row := 0;
    while row <= xs.nbrSegs
      invariant 0 <= row <= xs.nbrSegs + 1
      invariant forall i, j :: 0 <= i < c.Length0 && 0 <= j < c.Length1 && i != col ==>
                  c[i, j] == old(c[i, j]) && uv[i, j] == old(uv[i, j])
      invariant forall j :: 0 <= j < row ==> c[col, j] == Vertex(sw, xs, col, j) && uv[col, j] == TexCoord(sw, xs, col, j)
    {
      c[col, row] := Vertex(sw, xs, col, row);
      uv[col, row] := TexCoord(sw, xs, col, row);
      row := row + 1;
    }
  }

  /** The coordinate and texture grids of `calcShape`. */
  method CalcCoords(sw: Sweep, xs: Section) returns (c: array2<PVec>, uv: array2<UV>)
    requires Fits(sw, xs)
    ensures fresh(c) && fresh(uv)
    ensures c.Length0 == uv.Length0 == sw.nbrSlices + 1 && c.Length1 == uv.Length1 == xs.nbrSegs + 1
    ensures forall i, j :: 0 <= i <= sw.nbrSlices && 0 <= j <= xs.nbrSegs ==>
              c[i, j] == Vertex(sw, xs, i, j) && uv[i, j] == TexCoord(sw, xs, i, j)
  {
    c := new PVec[sw.nbrSlices + 1, xs.nbrSegs + 1];
    uv := new UV[sw.nbrSlices + 1, xs.nbrSegs + 1];
    var col := 0;
    while col <= sw.nbrSlices
      invariant 0 <= col <= sw.nbrSlices + 1
      invariant forall i, j :: 0 <= i < col && 0 <= j <= xs.nbrSegs ==>
                  c[i, j] == Vertex(sw, xs, i, j) && uv[i, j] == TexCoord(sw, xs, i, j)
    {
      FillColumn(c, uv, sw, xs, col);
      col := col + 1;
    }
  }

  /** Row row of the normal grid. */
  method NormalRow(mx: Maths, c: array2<PVec>, n: array2<PVec>, row: int)
    requires c != n && c.Length0 == n.Length0 && c.Length1 == n.Length1
    requires c.Length0 >= 2 && c.Length1 >= 2
    requires 0 <= row < c.Length1
    modifies n
    ensures forall i, j :: 0 <= i < n.Length0 && 0 <= j < n.Length1 && j != row ==> n[i, j] == old(n[i, j])
    ensures forall i :: 0 <= i < c.Length0 ==>
              n[i, row] == SurfaceNormal(mx, c[i, row], c[ColNext(i, c.Length0 - 1), row],
                                         c[i, RowNext(row, c.Length1 - 1)], i == c.Length0 - 1)
  {
    var rowNext := RowNext(row, c.Length1 - 1);
    for col := 0 to c.Length0
      invariant forall i, j :: 0 <= i < n.Length0 && 0 <= j < n.Length1 && j != row ==> n[i, j] == old(n[i, j])
      invariant forall i :: 0 <= i < col ==>
                  n[i, row] == SurfaceNormal(mx, c[i, row], c[ColNext(i, c.Length0 - 1), row],
                                             c[i, rowNext], i == c.Length0 - 1)
    {
      var colNext := ColNext(col, c.Length0 - 1);
      n[col, row] := SurfaceNormal(mx, c[col, row], c[colNext, row], c[col, rowNext], col == c.Length0 - 1);
    }
  }

  /** The normal grid of `calcShape`, one row at a time. */
  method CalcNormals(mx: Maths, c: array2<PVec>) returns (n: array2<PVec>)
    requires c.Length0 >= 2 && c.Length1 >= 2
    ensures fresh(n) && n.Length0 == c.Length0 && n.Length1 == c.Length1
    ensures forall i, j :: 0 <= i < c.Length0 && 0 <= j < c.Length1 ==>
              n[i, j] == SurfaceNormal(mx, c[i, j], c[ColNext(i, c.Length0 - 1), j],
                                       c[i, RowNext(j, c.Length1 - 1)], i == c.Length0 - 1)
  {
    n := new PVec[c.Length0, c.Length1];
    var row := 0;
    while row < c.Length1
      invariant 0 <= row <= c.Length1
      invariant forall i, j :: 0 <= i < c.Length0 && 0 <= j < row ==>
                  n[i, j] == SurfaceNormal(mx, c[i, j], c[ColNext(i, c.Length0 - 1), j],
                                           c[i, RowNext(j, c.Length1 - 1)], i == c.Length0 - 1)
    {
      NormalRow(mx, c, n, row);
      row := row + 1;
    }
  }

  /** The start cap's normal. */
  function StartCapNormal(mx: Maths, s: seq<PVec>): PVec
    requires |s| >= 3
  {
    Normalize(mx, Cross3(Sub(s[0], s[1]), Sub(s[2], s[0])))
  }

  /** The end cap's normal. */
  function EndCapNormal(mx: Maths, e: seq<PVec>): PVec
    requires |e| >= 3
  {
    Normalize(mx, Cross3(Sub(e[1], e[0]), Sub(e[2], e[0])))
  }

  /** The two caps face opposite ways: an end outline that is the start
    * outline moved by d has the opposite normal. */
  lemma {:induction false} CapsFaceApart(mx: Maths, s: seq<PVec>, e: seq<PVec>, d: PVec)
    requires |s| >= 3 && |e| >= 3
    requires forall i :: 0 <= i < 3 ==> e[i] == Add(s[i], d)
    ensures EndCapNormal(mx, e) == Neg(StartCapNormal(mx, s))
  {
    var a := Sub(s[0], s[1]);
    var b := Sub(s[2], s[0]);
    assert Sub(e[1], e[0]) == Neg(a);
    assert Sub(e[2], e[0]) == b;
    assert Cross3(Neg(a), b) == Neg(Cross3(a, b));
    NormalizeNeg(mx, Cross3(a, b));
  }

  /** Column col of a grid as a sequence. */
  ghost function ColumnOf(c: array2<PVec>, col: int): (r: seq<PVec>)
    requires 0 <= col < c.Length0
    reads c
    ensures |r| == c.Length1
  {
    seq(c.Length1, j requires 0 <= j < c.Length1 reads c => c[col, j])
  }

  /** The two end caps of an open path: the start cap on the first column
    * of the grid, the end cap, mirrored, on the last; pick colours
    * pickColor + 1 and pickColor + 2. */
  ghost function EndCaps(mx: Maths, c: array2<PVec>, pickColor: bv32): seq<Part>
    requires c.Length0 >= 1 && c.Length1 >= 3
    reads c
  {
    [Cap(pickColor + 1, ColumnOf(c, 0), StartCapNormal(mx, ColumnOf(c, 0)), false),
     Cap(pickColor + 2, ColumnOf(c, c.Length0 - 1), EndCapNormal(mx, ColumnOf(c, c.Length0 - 1)), true)]
  }

  /** Copies column col of the grid, as the caps do. */
  method CopyColumn(c: array2<PVec>, col: int) returns (r: seq<PVec>)
    requires 0 <= col < c.Length0
    ensures r == ColumnOf(c, col)
  {
    r := [];
    var seg := 0;
    while seg < c.Length1
      invariant 0 <= seg <= c.Length1 && |r| == seg
      invariant forall j :: 0 <= j < seg ==> r[j] == c[col, j]
    {
      r := r + [c[col, seg]];
      seg := seg + 1;
    }
  }

  /** `makeParts`: an open path gets the body and both end caps, the end
    * cap with the mirrored polygon; a closed path gets only the body. Part
    * i has pick colour pickColor + i. */
  method MakeParts(mx: Maths, coord: array2<PVec>, open: bool, pickColor: bv32) returns (parts: seq<Part>)
    requires coord.Length0 >= 1 && (open ==> coord.Length1 >= 3)
    ensures !open ==> parts == [Mesh(pickColor)]
    ensures open ==> |parts| == 3 && parts[0] == Mesh(pickColor)
    ensures open ==> parts[1] == Cap(pickColor + 1, ColumnOf(coord, 0), StartCapNormal(mx, ColumnOf(coord, 0)), false)
    ensures open ==> parts[2] == Cap(pickColor + 2, ColumnOf(coord, coord.Length0 - 1),
                                     EndCapNormal(mx, ColumnOf(coord, coord.Length0 - 1)), true)
    ensures open ==> parts == [Mesh(pickColor)] + EndCaps(mx, coord, pickColor)
  {
    if open {
      var startCoords := CopyColumn(coord, 0);
      var startCap := Cap(pickColor + 1, startCoords, StartCapNormal(mx, startCoords), false);
      var endCoords := CopyColumn(coord, coord.Length0 - 1);
      var endCap := Cap(pickColor + 2, endCoords, EndCapNormal(mx, endCoords), true);
      parts := [Mesh(pickColor), startCap, endCap];
    } else {
      parts := [Mesh(pickColor)];
    }
  }

  /** `calcShape`: the coordinate, normal and texture grids, each
    * (nbrSlices + 1) × (nbrSegs + 1); without an orientation they hold the
    * swept vertices and their normals, with one they hold those moved by it. */
  method CalcShape(mx: Maths, sw: Sweep, xs: Section, o: Orientation)
    returns (c: array2<PVec>, n: array2<PVec>, uv: array2<UV>)
    requires Fits(sw, xs)
    ensures fresh(c) && fresh(n) && fresh(uv)
    ensures c.Length0 == n.Length0 == uv.Length0 == sw.nbrSlices + 1
    ensures c.Length1 == n.Length1 == uv.Length1 == xs.nbrSegs + 1
    ensures forall i, j :: 0 <= i <= sw.nbrSlices && 0 <= j <= xs.nbrSegs ==>
              uv[i, j] == TexCoord(sw, xs, i, j)
    ensures o.NoOrientation? ==>
              forall i, j :: 0 <= i <= sw.nbrSlices && 0 <= j <= xs.nbrSegs ==>
                c[i, j] == Vertex(sw, xs, i, j) && n[i, j] == GridNormal(mx, sw, xs, i, j)
    ensures o.Orientation? ==>
              forall i, j :: 0 <= i <= sw.nbrSlices && 0 <= j <= xs.nbrSegs ==>
                c[i, j] == o.applyRT(Vertex(sw, xs, i, j)) &&
                n[i, j] == Normalize(mx, o.applyR(GridNormal(mx, sw, xs, i, j)))
  {
    c, uv := CalcCoords(sw, xs);
    n := CalcNormals(mx, c);
    forall i, j | 0 <= i <= sw.nbrSlices && 0 <= j <= xs.nbrSegs
      ensures n[i, j] == GridNormal(mx, sw, xs, i, j)
    {
    }
    Orient(mx, o, c, n);
  }

  class Extrusion {
    const mx: Maths
    const sweep: Sweep
    const section: Section
    const orientation: Orientation
    const pickColor: bv32
    var coord: array2<PVec>
    var normals: array2<PVec>
    var uv01: array2<UV>
    var parts: seq<Part>

    /** `Extrusion(path, xsection, scale, orientation)`: the grids of
      * `calcShape` and the parts of `makeParts`. */
    constructor (mx: Maths, sweep: Sweep, section: Section, orientation: Orientation, pickColor: bv32)
      requires Fits(sweep, section) && (sweep.open ==> section.nbrSegs >= 2)
      ensures this.mx == mx && this.sweep == sweep && this.section == section
      ensures this.orientation == orientation && this.pickColor == pickColor
      ensures coord.Length0 == normals.Length0 == uv01.Length0 == sweep.nbrSlices + 1
      ensures coord.Length1 == normals.Length1 == uv01.Length1 == section.nbrSegs + 1
      ensures forall i, j :: 0 <= i <= sweep.nbrSlices && 0 <= j <= section.nbrSegs ==>
                uv01[i, j] == TexCoord(sweep, section, i, j)
      ensures orientation.NoOrientation? ==>
                forall i, j :: 0 <= i <= sweep.nbrSlices && 0 <= j <= section.nbrSegs ==>
                  coord[i, j] == Vertex(sweep, section, i, j) &&
                  normals[i, j] == GridNormal(mx, sweep, section, i, j)
      ensures orientation.Orientation? ==>
                forall i, j :: 0 <= i <= sweep.nbrSlices && 0 <= j <= section.nbrSegs ==>
                  coord[i, j] == orientation.applyRT(Vertex(sweep, section, i, j)) &&
                  normals[i, j] == Normalize(mx, orientation.applyR(GridNormal(mx, sweep, section, i, j)))
      ensures |parts| == (if sweep.open then 3 else 1) && parts[0] == Mesh(pickColor)
      ensures sweep.open ==> parts == [Mesh(pickColor)] + EndCaps(mx, coord, pickColor)
    {
      this.mx := mx;
      this.sweep := sweep;
      this.section := section;
      this.orientation := orientation;
      this.pickColor := pickColor;
      var c, n, uv := CalcShape(mx, sweep, section, orientation);
      var ps := MakeParts(mx, c, sweep.open, pickColor);
      coord, normals, uv01, parts := c, n, uv, ps;
    }
  }
}
