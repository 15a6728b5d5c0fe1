/**
 * What the Shapes3D shapes have in common: the parts a shape is made of,
 * each with its own pick colour, and the orientation step that moves a
 * computed grid of coordinates and normals.
 */
module ShapeParts {

  import opened Vectors

  /** A part of a shape: a mesh over a grid, an extrusion's end cap with its
    * outline, its normal and whether it uses the mirrored polygon's
    * triangles and texture coordinates, or a flat four-cornered face given
    * as its 2 × 2 corner grid and normal. */
  datatype Part =
    | Mesh(colour: bv32)
    | Cap(colour: bv32, outline: seq<PVec>, normal: PVec, mirrored: bool)
    | Face(colour: bv32, corners: seq<seq<PVec>>, normal: PVec)

  /** Column col under an orientation: coordinates rotated and moved,
    * normals rotated and normalised. */
  method OrientColumn(mx: Maths, o: Orientation, c: array2<PVec>, n: array2<PVec>, col: int)
    requires o.Orientation? && c != n && c.Length0 == n.Length0 && c.Length1 == n.Length1
    requires 0 <= col < c.Length0
    modifies c, n
    ensures forall i, j :: 0 <= i < c.Length0 && 0 <= j < c.Length1 && i != col ==>
              c[i, j] == old(c[i, j]) && n[i, j] == old(n[i, j])
    ensures forall j :: 0 <= j < c.Length1 ==>
              c[col, j] == o.applyRT(old(c[col, j])) && n[col, j] == Normalize(mx, o.applyR(old(n[col, j])))
  {
    var row := 0;
    while row < c.Length1
      invariant 0 <= row <= c.Length1
      invariant forall i, j :: 0 <= i < c.Length0 && 0 <= j < c.Length1 && (i != col || row <= j) ==>
                  c[i, j] == old(c[i, j]) && n[i, j] == old(n[i, j])
      invariant forall j :: 0 <= j < row ==>
                  c[col, j] == o.applyRT(old(c[col, j])) && n[col, j] == Normalize(mx, o.applyR(old(n[col, j])))
    {
      c[col, row] := o.applyRT(c[col, row]);
      n[col, row] := Normalize(mx, o.applyR(n[col, row]));
      row := row + 1;
    }
  }

  /** The orientation step of `calcShape`: nothing happens without an
    * orientation. */
  method Orient(mx: Maths, o: Orientation, c: array2<PVec>, n: array2<PVec>)
    requires c != n && c.Length0 == n.Length0 && c.Length1 == n.Length1
    modifies c, n
    ensures o.NoOrientation? ==> forall i, j :: 0 <= i < c.Length0 && 0 <= j < c.Length1 ==>
              c[i, j] == old(c[i, j]) && n[i, j] == old(n[i, j])
    ensures o.Orientation? ==> forall i, j :: 0 <= i < c.Length0 && 0 <= j < c.Length1 ==>
              c[i, j] == o.applyRT(old(c[i, j])) && n[i, j] == Normalize(mx, o.applyR(old(n[i, j])))
  {
    if o.Orientation? {
      var col := 0;
      while col < c.Length0
        invariant 0 <= col <= c.Length0
        invariant forall i, j :: 0 <= i < c.Length0 && 0 <= j < c.Length1 && col <= i ==>
                    c[i, j] == old(c[i, j]) && n[i, j] == old(n[i, j])
        invariant forall i, j :: 0 <= i < col && 0 <= j < c.Length1 ==>
                    c[i, j] == o.applyRT(old(c[i, j])) && n[i, j] == Normalize(mx, o.applyR(old(n[i, j])))
      {
        OrientColumn(mx, o, c, n, col);
        col := col + 1;
      }
    }
  }
}
