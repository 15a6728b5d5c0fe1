/**
 * Shapes3D's Terrain: a square height map of mapSize × mapSize samples
 * spread over worldSize × worldSize world units, one sample every
 * mapScale = worldSize / (mapSize - 1) units.
 *
 * `calcShape` places sample (x, z) at (x·mapScale, height, z·mapScale)
 * with texture coordinates (x, z)/(mapSize - 1). Each normal is the cross
 * product of the steps to the next column and from the next row, turned to
 * point up (+y) and normalised. The map tiles: its last row and column
 * repeat its first, so the step after the last index goes to index 1.
 *
 * `height` looks a position up: it splits its cell along the diagonal and
 * interpolates on the plane through the three corners of the half it is
 * in. Java's float arithmetic is modelled by reals and `(int)` by
 * truncation toward zero; an index outside the map, which raises Java's
 * ArrayIndexOutOfBoundsException, is `None`.
 */
module Terrains {

  import opened Vectors
  import opened ShapeParts

  /** Java's `(int)` cast of a float: truncation toward zero. */
  function Trunc(r: real): (i: int)
    ensures 0.0 <= r ==> i as real <= r < i as real + 1.0
    ensures r < 0.0 ==> i as real - 1.0 < r <= i as real
  {
    if 0.0 <= r then r.Floor else -((-r).Floor)
  }

  /** The index after i along a tiled axis of m samples. */
  function NextIndex(i: int, m: int): int
  {
    if i < m - 1 then i + 1 else 1
  }

  /** The step after any index of the map stays inside the map. */
  lemma {:induction false} NextIndexInside(i: int, m: int)
    requires m >= 2 && 0 <= i < m
    ensures 0 <= NextIndex(i, m) < m
  {
  }

  /** The sample (x, z) of `calcShape`. */
  function Sample(grid: seq<seq<real>>, mapScale: real, x: int, z: int): PVec
    requires 0 <= x < |grid| && 0 <= z < |grid[x]|
  {
    PVec(x as real * mapScale, grid[x][z], z as real * mapScale)
  }

  /** The texture coordinates of sample (x, z). */
  function SampleUV(mapSize: int, x: int, z: int): UV
    requires mapSize >= 2
  {
    var deltaUV := 1.0 / (mapSize - 1) as real;
    UV(x as real * deltaUV, z as real * deltaUV)
  }

  /** Every sample's texture coordinates lie in the unit square, and the
    * map's far corner has (1, 1). */
  lemma {:induction false} SampleUVInUnit(mapSize: int, x: int, z: int)
    requires mapSize >= 2 && 0 <= x < mapSize && 0 <= z < mapSize
    ensures var t := SampleUV(mapSize, x, z);
            0.0 <= t.u <= 1.0 && 0.0 <= t.v <= 1.0
    ensures x == mapSize - 1 ==> SampleUV(mapSize, x, z).u == 1.0
  {
    FractionInUnit(x, mapSize - 1);
    FractionInUnit(z, mapSize - 1);
  }

  /** The normal at a sample from the sample, the next one along x and the
    * next one along z: turned to point up, then normalised. */
  function UpNormal(mx: Maths, here: PVec, nextX: PVec, nextZ: PVec): PVec
  {
    var n := Cross3(Sub(nextX, here), Sub(here, nextZ));
    Normalize(mx, if n.y < 0.0 then Neg(n) else n)
  }

  /** A vector's dot product with itself is never negative. */
  lemma {:induction false} SelfDotNonNegative(v: PVec)
    ensures Dot(v, v) >= 0.0
  {
    assert v.x * v.x >= 0.0 && v.y * v.y >= 0.0 && v.z * v.z >= 0.0;
  }

  /** Normalising keeps a vector pointing up. */
  lemma {:induction false} NormalizeKeepsUp(mx: Maths, v: PVec)
    requires Sound(mx) && v.y >= 0.0
    ensures Normalize(mx, v).y >= 0.0
  {
    SelfDotNonNegative(v);
    var m := mx.sqrt(Dot(v, v));
    assert 0.0 <= m;
    if m != 0.0 && m != 1.0 {
      var k := 1.0 / m;
      assert 0.0 < k;
      assert Normalize(mx, v).y == v.y * k;
    }
  }

  /** Every normal of the terrain points up or sideways, never down. */
  lemma {:induction false} UpNormalPointsUp(mx: Maths, here: PVec, nextX: PVec, nextZ: PVec)
    requires Sound(mx)
    ensures UpNormal(mx, here, nextX, nextZ).y >= 0.0
  {
    var n := Cross3(Sub(nextX, here), Sub(here, nextZ));
    NormalizeKeepsUp(mx, if n.y < 0.0 then Neg(n) else n);
  }

  /** `calcBounds`: the part of the box with corners (bx0, by0) and
    * (bx1, by1) that lies over the terrain [0, worldSize]², as
    * [left, top, right, bottom], or nothing when they do not overlap with
    * positive area. */
  function CalcBounds(worldSize: real, bx0: real, by0: real, bx1: real, by1: real): (r: seq<real>)
    requires worldSize > 0.0
    ensures var left, top := if bx0 < bx1 then bx0 else bx1, if by0 < by1 then by0 else by1;
            var right, bottom := if bx0 < bx1 then bx1 else bx0, if by0 < by1 then by1 else by0;
            (r == [] <==> (worldSize <= top || bottom <= 0.0 || worldSize <= left || right <= 0.0)) &&
            (r != [] ==>
               |r| == 4 && r[0] <= r[2] && r[1] <= r[3] &&
               0.0 <= r[0] && r[2] <= worldSize && 0.0 <= r[1] && r[3] <= worldSize &&
               left <= r[0] && r[2] <= right && top <= r[1] && r[3] <= bottom)
  {
    var topA, botA, leftA, rightA := 0.0, worldSize, 0.0, worldSize;
    var topB := if by0 < by1 then by0 else by1;
    var botB := if by0 > by1 then by0 else by1;
    var leftB := if bx0 < bx1 then bx0 else bx1;
    var rightB := if bx0 > bx1 then bx0 else bx1;
    if botA <= topB || botB <= topA || rightA <= leftB || rightB <= leftA then
      []
    else
      var leftO := if leftA < leftB then leftB else leftA;
      var rightO := if rightA > rightB then rightB else rightA;
      var botO := if botA > botB then botB else botA;
      var topO := if topA < topB then topB else topA;
      [leftO, topO, rightO, botO]
  }

  /** A query box of positive area gives bounds of positive area. */
  lemma {:induction false} BoundsHaveArea(worldSize: real, bx0: real, by0: real, bx1: real, by1: real)
    requires worldSize > 0.0 && bx0 != bx1 && by0 != by1
    ensures var r := CalcBounds(worldSize, bx0, by0, bx1, by1);
            r != [] ==> r[0] < r[2] && r[1] < r[3]
  {
  }

  /** A box wholly over the terrain is its own bounds. */
  lemma {:induction false} BoundsOfInnerBox(worldSize: real, x0: real, z0: real, x1: real, z1: real)
    requires 0.0 <= x0 < x1 <= worldSize && 0.0 <= z0 < z1 <= worldSize
    ensures CalcBounds(worldSize, x0, z0, x1, z1) == [x0, z0, x1, z1]
  {
  }

  /** The height `height` gives inside a cell from its four corner heights
    * and the position (tx, tz) in the cell: the corner opposite the
    * position's half of the cell is moved onto the plane of the other
    * three, then the square is interpolated bilinearly. */
  function CellHeight(h00: real, h01: real, h10: real, h11: real, tx: real, tz: real): (h: real)
    ensures tx == 0.0 && tz == 0.0 ==> h == h00
    ensures tx == 1.0 && tz == 0.0 ==> h == h10
    ensures tx == 0.0 && tz == 1.0 ==> h == h01
    ensures tx == 1.0 && tz == 1.0 ==> h == h11
  {
    var txtz := tx * tz;
    var c00 := if tz < 1.0 - tx then h00 else h11 + 2.0 * ((h10 + h01) / 2.0 - h11);
    var c11 := if tz < 1.0 - tx then h00 + 2.0 * ((h10 + h01) / 2.0 - h00) else h11;
    c00 * (1.0 - tz - tx + txtz) + h10 * (tx - txtz) + c11 * txtz + h01 * (tz - txtz)
  }

  /** Inside a cell, the height lies on the plane through the three
    * corners of the half the position is in. */
  lemma {:induction false} CellHeightIsPlanar(h00: real, h01: real, h10: real, h11: real, tx: real, tz: real)
    ensures tz < 1.0 - tx ==>
              CellHeight(h00, h01, h10, h11, tx, tz) == h00 + tx * (h10 - h00) + tz * (h01 - h00)
    ensures 1.0 - tx <= tz ==>
              CellHeight(h00, h01, h10, h11, tx, tz) == h11 + (1.0 - tx) * (h01 - h11) + (1.0 - tz) * (h10 - h11)
  {
    var txtz := tx * tz;
    if tz < 1.0 - tx {
      var c11 := h10 + h01 - h00;
      assert h00 + 2.0 * ((h10 + h01) / 2.0 - h00) == c11;
      calc {
        h00 * (1.0 - tz - tx + txtz) + h10 * (tx - txtz) + c11 * txtz + h01 * (tz - txtz);
        h00 + tx * (h10 - h00) + tz * (h01 - h00) + (h00 - h10 + c11 - h01) * txtz;
      }
    } else {
      var c00 := h10 + h01 - h11;
      assert h11 + 2.0 * ((h10 + h01) / 2.0 - h11) == c00;
      calc {
        c00 * (1.0 - tz - tx + txtz) + h10 * (tx - txtz) + h11 * txtz + h01 * (tz - txtz);
        h11 + (1.0 - tx) * (h01 - h11) + (1.0 - tz) * (h10 - h11) + (c00 - h10 + h11 - h01) * txtz;
      }
    }
  }

  /** The coordinates and texture coordinates of row z of the map. */
  method FillRow(grid: seq<seq<real>>, mapSize: int, mapScale: real, c: array2<PVec>, uv: array2<UV>, z: int)
    requires mapSize >= 2 && |grid| == mapSize && (forall x :: 0 <= x < mapSize ==> |grid[x]| == mapSize)
    requires c.Length0 == c.Length1 == uv.Length0 == uv.Length1 == mapSize && 0 <= z < mapSize
    modifies c, uv
    ensures forall i, j :: 0 <= i < mapSize && 0 <= j < mapSize && j != z ==>
              c[i, j] == old(c[i, j]) && uv[i, j] == old(uv[i, j])
    ensures forall i :: 0 <= i < mapSize ==> c[i, z] == Sample(grid, mapScale, i, z) && uv[i, z] == SampleUV(mapSize, i, z)
  {
    var deltaUV := 1.0 / (mapSize - 1) as real;
    var mapZ := z as real * mapScale;
    var uvZ := z as real * deltaUV;
    for x := 0 to mapSize
      invariant forall i, j :: 0 <= i < mapSize && 0 <= j < mapSize && j != z ==>
                  c[i, j] == old(c[i, j]) && uv[i, j] == old(uv[i, j])
      invariant forall i :: 0 <= i < x ==> c[i, z] == Sample(grid, mapScale, i, z) && uv[i, z] == SampleUV(mapSize, i, z)
    {
      c[x, z] := PVec(x as real * mapScale, grid[x][z], mapZ);
      uv[x, z] := UV(x as real * deltaUV, uvZ);
    }
  }

  /** The coordinate and texture grids of `calcShape`. */
  method CalcCoords(grid: seq<seq<real>>, mapSize: int, mapScale: real) returns (c: array2<PVec>, uv: array2<UV>)
    requires mapSize >= 2 && |grid| == mapSize && (forall x :: 0 <= x < mapSize ==> |grid[x]| == mapSize)
    ensures fresh(c) && fresh(uv)
    ensures c.Length0 == c.Length1 == uv.Length0 == uv.Length1 == mapSize
    ensures forall i, j :: 0 <= i < mapSize && 0 <= j < mapSize ==>
              c[i, j] == Sample(grid, mapScale, i, j) && uv[i, j] == SampleUV(mapSize, i, j)
  {
    c := new PVec[mapSize, mapSize];
    uv := new UV[mapSize, mapSize];
    for z := 0 to mapSize
      invariant forall i, j :: 0 <= i < mapSize && 0 <= j < z ==>
                  c[i, j] == Sample(grid, mapScale, i, j) && uv[i, j] == SampleUV(mapSize, i, j)
    {
      FillRow(grid, mapSize, mapScale, c, uv, z);
    }
  }

  /** The normal `calcShape` gives sample (col, row) of the grid c. */
  function GridNormal(mx: Maths, c: array2<PVec>, col: int, row: int): PVec
    requires c.Length0 == c.Length1 >= 2 && 0 <= col < c.Length0 && 0 <= row < c.Length0
    reads c
  {
    var m := c.Length0;
    NextIndexInside(col, m);
    NextIndexInside(row, m);
    UpNormal(mx, c[col, row], c[NextIndex(col, m), row], c[col, NextIndex(row, m)])
  }

  /** Row row of the normals. */
  method NormalRow(mx: Maths, c: array2<PVec>, n: array2<PVec>, row: int)
    requires c != n && c.Length0 == c.Length1 == n.Length0 == n.Length1 >= 2 && 0 <= row < c.Length0
    modifies n
    ensures forall i, j :: 0 <= i < n.Length0 && 0 <= j < n.Length1 && j != row ==> n[i, j] == old(n[i, j])
    ensures forall i :: 0 <= i < n.Length0 ==> n[i, row] == GridNormal(mx, c, i, row)
  {
    var m := c.Length0;
    var rowNext := if row < m - 1 then row + 1 else 1;
    for col := 0 to m
      invariant forall i, j :: 0 <= i < m && 0 <= j < m && j != row ==> n[i, j] == old(n[i, j])
      invariant forall i :: 0 <= i < col ==> n[i, row] == GridNormal(mx, c, i, row)
    {
      var colNext := if col < m - 1 then col + 1 else 1;
      var v0 := Sub(c[colNext, row], c[col, row]);
      var v1 := Sub(c[col, row], c[col, rowNext]);
      var nv := Cross3(v0, v1);
      if nv.y < 0.0 {
        nv := Neg(nv);
      }
      n[col, row] := Normalize(mx, nv);
    }
  }

  /** The normal grid of `calcShape`. */
  method CalcNormals(mx: Maths, c: array2<PVec>) returns (n: array2<PVec>)
    requires c.Length0 == c.Length1 >= 2
    ensures fresh(n) && n.Length0 == n.Length1 == c.Length0
    ensures forall i, j :: 0 <= i < n.Length0 && 0 <= j < n.Length1 ==> n[i, j] == GridNormal(mx, c, i, j)
  {
    var m := c.Length0;
    n := new PVec[m, m];
    for row := 0 to m
      invariant forall i, j :: 0 <= i < m && 0 <= j < row ==> n[i, j] == GridNormal(mx, c, i, j)
    {
      NormalRow(mx, c, n, row);
    }
  }

  class Terrain {
    const mx: Maths
    const worldSize: real
    const mapSize: int
    const mapScale: real
    const pickColor: bv32
    var worldX: real
    var worldZ: real
    var worldHorizon: real
    var coord: array2<PVec>
    var normals: array2<PVec>
    var uv01: array2<UV>
    var parts: seq<Part>

    /** The grids are mapSize square and the coordinate grid is the one
      * `calcShape` made from the height map. */
    ghost predicate Valid()
      reads this
    {
      mapSize >= 2 && 0.0 < mapScale &&
      coord.Length0 == coord.Length1 == normals.Length0 == normals.Length1 == mapSize
    }

    /** `Terrain(hm, worldSize)`: the grids of `calcShape` from the height
      * map, a single mesh part, the view centred on the origin with a
      * horizon a quarter of the world away. */
    constructor (mx: Maths, grid: seq<seq<real>>, worldSize: real, pickColor: bv32)
      requires |grid| >= 2 && (forall x :: 0 <= x < |grid| ==> |grid[x]| == |grid|) && worldSize > 0.0
      ensures Valid() && this.mx == mx && this.worldSize == worldSize && this.pickColor == pickColor
      ensures mapSize == |grid| && mapScale == worldSize / (mapSize - 1) as real
      ensures worldX == 0.0 && worldZ == 0.0 && worldHorizon == worldSize / 4.0
      ensures uv01.Length0 == uv01.Length1 == mapSize
      ensures forall i, j :: 0 <= i < mapSize && 0 <= j < mapSize ==>
                coord[i, j] == Sample(grid, mapScale, i, j) && uv01[i, j] == SampleUV(mapSize, i, j) &&
                normals[i, j] == GridNormal(mx, coord, i, j)
      ensures parts == [Mesh(pickColor)]
    {
      this.mx := mx;
      this.worldSize := worldSize;
      this.pickColor := pickColor;
      worldX := 0.0;
      worldZ := 0.0;
      worldHorizon := worldSize / 4.0;
      var size := |grid|;
      mapSize := size;
      var scale := worldSize / (size - 1) as real;
      mapScale := scale;
      var c, uv := CalcCoords(grid, size, scale);
      var n := CalcNormals(mx, c);
      coord := c;
      normals := n;
      uv01 := uv;
      parts := [Mesh(pickColor)];
    }

    /** `height(x, z)`: the terrain height under world position (x, z), or
      * None where the position's cell is outside the map. */
    function Height(x: real, z: real): (r: Option<real>)
      requires Valid()
      reads this, coord
      ensures r.Some? <==> 0 <= Trunc(x / mapScale) < mapSize && 0 <= Trunc(z / mapScale) < mapSize
    {
      var px, pz := x / mapScale, z / mapScale;
      var col0, row0 := Trunc(px), Trunc(pz);
      if 0 <= col0 < mapSize && 0 <= row0 < mapSize then
        var col1, row1 := (col0 + 1) % mapSize, (row0 + 1) % mapSize;
        Some(CellHeight(coord[col0, row0].y, coord[col0, row1].y, coord[col1, row0].y, coord[col1, row1].y,
                        px - col0 as real, pz - row0 as real))
      else
        None
    }

    /** At a sample of the map the height is the sample's own. */
    lemma {:induction false} HeightAtSample(col: int, row: int)
      requires Valid() && 0 <= col < mapSize && 0 <= row < mapSize
      ensures Height(col as real * mapScale, row as real * mapScale) == Some(coord[col, row].y)
    {
      assert col as real * mapScale / mapScale == col as real;
      assert row as real * mapScale / mapScale == row as real;
      assert Trunc(col as real) == col && Trunc(row as real) == row;
    }

    /** `worldPosition(x, z)`: only the centre of the view moves. */
    method WorldPosition(x: real, z: real)
      modifies this`worldX, this`worldZ
      ensures worldX == x && worldZ == z
    {
      worldX := x;
      worldZ := z;
    }

    /** `worldPosition(pos)`: the vector's y is taken as the z position. */
    method WorldPositionVec(pos: PVec)
      modifies this`worldX, this`worldZ
      ensures worldX == pos.x && worldZ == pos.y
    {
      WorldPosition(pos.x, pos.y);
    }

    /** `worldHorizon(h)`. */
    method WorldHorizon(h: real)
      modifies this`worldHorizon
      ensures worldHorizon == h
    {
      worldHorizon := h;
    }
  }
}
