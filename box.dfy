/**
 * Shapes3D's Box: an axis-aligned box of width w, height h and depth d,
 * centred on the origin, made of six flat faces.
 *
 * `calcShape` writes the eight corners out one by one; corner i has +x when
 * bit 2 of i is set, +y for bit 1 and +z for bit 0. The six face normals
 * are +j (bottom: Processing's y axis points down), -j (top), +k (front),
 * -k (back), -i (left) and +i (right). Each face is a 2 × 2 grid of four of
 * the corners, with pick colour pickColor + its index.
 *
 * The model proves that the corner table matches the bit rule, that every
 * face holds exactly the four corners on the side its normal points to,
 * and that every face's grid winds so that its cross product points along
 * its normal.
 */
module Box {

  import opened Vectors
  import opened ShapeParts

  /** Corner i of a w × h × d box centred on the origin. */
  function Corner(w: real, h: real, d: real, i: int): PVec
  {
    PVec(if (i / 4) % 2 == 1 then w / 2.0 else -(w / 2.0),
         if (i / 2) % 2 == 1 then h / 2.0 else -(h / 2.0),
         if i % 2 == 1 then d / 2.0 else -(d / 2.0))
  }

  /** `Vector3D.plusI` … `Vector3D.minusK`. */
  const PlusI := PVec(1.0, 0.0, 0.0)
  const MinusI := PVec(-1.0, 0.0, 0.0)
  const PlusJ := PVec(0.0, 1.0, 0.0)
  const MinusJ := PVec(0.0, -1.0, 0.0)
  const PlusK := PVec(0.0, 0.0, 1.0)
  const MinusK := PVec(0.0, 0.0, -1.0)

  /** The face normals in face order: bottom, top, front, back, left, right. */
  const FaceNormals: seq<PVec> := [PlusJ, MinusJ, PlusK, MinusK, MinusI, PlusI]

  /** The tags `makeParts` gives the six faces, in face order. */
  const FaceTags: seq<string> :=
    ["Bottom Face", "Top Face", "Front Face", "Back Face", "Left Face", "Right Face"]

  /** The corners of each face, in the order of its 2 × 2 grid: [a, b] is
    * the first row and [c, e] the second. */
  const FaceCorners: seq<seq<int>> :=
    [[3, 2, 7, 6], [0, 1, 4, 5], [1, 3, 5, 7], [4, 6, 0, 2], [0, 2, 1, 3], [5, 7, 4, 6]]

  /** The 2 × 2 grid of face f taken from the corner list cs. */
  function Quad(cs: seq<PVec>, f: int): (q: seq<seq<PVec>>)
    requires |cs| == 8 && 0 <= f < 6
    ensures |q| == 2 && |q[0]| == 2 && |q[1]| == 2
  {
    var k := FaceCorners[f];
    [[cs[k[0]], cs[k[1]]], [cs[k[2]], cs[k[3]]]]
  }

  /** Half the box's extent along the axis of face f's normal. */
  function HalfExtent(w: real, h: real, d: real, f: int): real
    requires 0 <= f < 6
  {
    if f < 2 then h / 2.0 else if f < 4 then d / 2.0 else w / 2.0
  }

  /** Every face holds exactly the corners that lie on the side its normal
    * points to: a corner is in face f if and only if its component along
    * the normal is the half extent. */
  lemma {:induction false} FaceIsItsSide(w: real, h: real, d: real, f: int, i: int)
    requires w > 0.0 && h > 0.0 && d > 0.0 && 0 <= f < 6 && 0 <= i < 8
    ensures i in FaceCorners[f] <==> Dot(Corner(w, h, d, i), FaceNormals[f]) == HalfExtent(w, h, d, f)
  {
  }

  /** The box's volume shrunk to a face: the product of the two extents
    * that face spans. */
  function FaceSpan(w: real, h: real, d: real, f: int): real
    requires 0 <= f < 6
  {
    if f < 2 then w * d else if f < 4 then w * h else h * d
  }

  /** Each face's grid winds outwards: the step down its first column
    * crossed with the step along its first row is its normal times the area
    * of the face. */
  lemma {:induction false} FacesWindOutward(w: real, h: real, d: real, f: int)
    requires 0 <= f < 6
    ensures var q := Quad(seq(8, i => Corner(w, h, d, i)), f);
            Cross3(Sub(q[1][0], q[0][0]), Sub(q[0][1], q[0][0])) == Scale(FaceNormals[f], FaceSpan(w, h, d, f))
  {
    var cs := seq(8, i => Corner(w, h, d, i));
    var q := Quad(cs, f);
    var k := FaceCorners[f];
    assert q[0][0] == Corner(w, h, d, k[0]) && q[0][1] == Corner(w, h, d, k[1]) && q[1][0] == Corner(w, h, d, k[2]);
  }

  /** With no extent zero, the eight corners are distinct, so every face
    * has four different corners. */
  lemma {:induction false} CornersDistinct(w: real, h: real, d: real, i: int, j: int)
    requires w != 0.0 && h != 0.0 && d != 0.0 && 0 <= i < 8 && 0 <= j < 8 && i != j
    ensures Corner(w, h, d, i) != Corner(w, h, d, j)
  {
  }

  /** Each corner lies on exactly one face of each opposite pair (bottom
    * and top, front and back, left and right), so it belongs to exactly
    * three faces. */
  lemma {:induction false} CornerInThreeFaces(i: int, a: int)
    requires 0 <= i < 8 && 0 <= a < 3
    ensures (i in FaceCorners[2 * a]) != (i in FaceCorners[2 * a + 1])
  {
  }

  /** The corner list of `calcShape`, written out corner by corner. */
  method CornerArray(w: real, h: real, d: real) returns (c: array<PVec>)
    ensures fresh(c) && c.Length == 8
    ensures forall i :: 0 <= i < 8 ==> c[i] == Corner(w, h, d, i)
  {
    var w2, h2, d2 := w / 2.0, h / 2.0, d / 2.0;
    c := new PVec[8];
    c[0] := PVec(-w2, -h2, -d2);
    c[1] := PVec(-w2, -h2, d2);
    c[2] := PVec(-w2, h2, -d2);
    c[3] := PVec(-w2, h2, d2);
    c[4] := PVec(w2, -h2, -d2);
    c[5] := PVec(w2, -h2, d2);
    c[6] := PVec(w2, h2, -d2);
    c[7] := PVec(w2, h2, d2);
    assert c[..] == seq(8, i => Corner(w, h, d, i));
  }

  /** The normal list of `calcShape`. */
  method NormalArray() returns (n: array<PVec>)
    ensures fresh(n) && n[..] == FaceNormals
  {
    n := new PVec[6];
    n[0] := PlusJ;
    n[1] := MinusJ;
    n[2] := PlusK;
    n[3] := MinusK;
    n[4] := MinusI;
    n[5] := PlusI;
  }

  /** The orientation step of `calcShape` for a list of points. */
  method OrientAll(a: array<PVec>, g: PVec -> PVec)
    modifies a
    ensures forall k :: 0 <= k < a.Length ==> a[k] == g(old(a[k]))
  {
    for i := 0 to a.Length
      invariant forall k :: 0 <= k < i ==> a[k] == g(old(a[k]))
      invariant forall k :: i <= k < a.Length ==> a[k] == old(a[k])
    {
      a[i] := g(a[i]);
    }
  }

  /** `calcShape`: the corners and normals, moved by the orientation if
    * there is one. Unlike the curved shapes, the box does not normalise the
    * turned normals. */
  method CalcShape(w: real, h: real, d: real, o: Orientation) returns (c: array<PVec>, n: array<PVec>)
    ensures fresh(c) && fresh(n) && c.Length == 8 && n.Length == 6
    ensures forall i :: 0 <= i < 8 ==>
              c[i] == if o.NoOrientation? then Corner(w, h, d, i) else o.applyRT(Corner(w, h, d, i))
    ensures forall f :: 0 <= f < 6 ==>
              n[f] == if o.NoOrientation? then FaceNormals[f] else o.applyR(FaceNormals[f])
  {
    c := CornerArray(w, h, d);
    n := NormalArray();
    if o.Orientation? {
      OrientAll(c, o.applyRT);
      OrientAll(n, o.applyR);
    }
  }

  /** The pick colour of part f. */
  function PartColour(pickColor: bv32, f: int): bv32
    requires 0 <= f < 6
  {
    pickColor + f as bv32
  }

  /** Face f of a box with the given corners and normals. */
  function FacePart(cs: seq<PVec>, ns: seq<PVec>, pickColor: bv32, f: int): Part
    requires |cs| == 8 && |ns| == 6 && 0 <= f < 6
  {
    Face(PartColour(pickColor, f), Quad(cs, f), ns[f])
  }

  /** `makeParts`: the six faces, face f with pick colour pickColor + f, the
    * grid of its corners and its normal. */
  method MakeParts(coord: array<PVec>, normals: array<PVec>, pickColor: bv32) returns (parts: seq<Part>)
    requires coord.Length == 8 && normals.Length == 6
    ensures |parts| == 6 && forall f :: 0 <= f < 6 ==> parts[f] == FacePart(coord[..], normals[..], pickColor, f)
  {
    var p0 := Face(pickColor + 0, [[coord[3], coord[2]], [coord[7], coord[6]]], normals[0]);
    var p1 := Face(pickColor + 1, [[coord[0], coord[1]], [coord[4], coord[5]]], normals[1]);
    var p2 := Face(pickColor + 2, [[coord[1], coord[3]], [coord[5], coord[7]]], normals[2]);
    var p3 := Face(pickColor + 3, [[coord[4], coord[6]], [coord[0], coord[2]]], normals[3]);
    var p4 := Face(pickColor + 4, [[coord[0], coord[2]], [coord[1], coord[3]]], normals[4]);
    var p5 := Face(pickColor + 5, [[coord[5], coord[7]], [coord[4], coord[6]]], normals[5]);
    parts := [p0, p1, p2, p3, p4, p5];
    ghost var cs, ns := coord[..], normals[..];
    assert p0 == FacePart(cs, ns, pickColor, 0);
    assert p1 == FacePart(cs, ns, pickColor, 1);
    assert p2 == FacePart(cs, ns, pickColor, 2);
    assert p3 == FacePart(cs, ns, pickColor, 3);
    assert p4 == FacePart(cs, ns, pickColor, 4);
    assert p5 == FacePart(cs, ns, pickColor, 5);
  }

  class Box {
    const w: real
    const h: real
    const d: real
    const orientation: Orientation
    const pickColor: bv32
    var coord: array<PVec>
    var normals: array<PVec>
    var parts: seq<Part>

    /** `Box(w, h, d, orientation)`: the corners and normals of `calcShape`
      * and the six faces of `makeParts`. */
    constructor (w: real, h: real, d: real, orientation: Orientation, pickColor: bv32)
      ensures this.w == w && this.h == h && this.d == d
      ensures this.orientation == orientation && this.pickColor == pickColor
      ensures coord.Length == 8 && normals.Length == 6 && |parts| == 6
      ensures forall i :: 0 <= i < 8 ==>
                coord[i] == if orientation.NoOrientation? then Corner(w, h, d, i) else orientation.applyRT(Corner(w, h, d, i))
      ensures forall f :: 0 <= f < 6 ==>
                normals[f] == if orientation.NoOrientation? then FaceNormals[f] else orientation.applyR(FaceNormals[f])
      ensures |parts| == 6 && forall f :: 0 <= f < 6 ==> parts[f] == FacePart(coord[..], normals[..], pickColor, f)
    {
      this.w := w;
      this.h := h;
      this.d := d;
      this.orientation := orientation;
      this.pickColor := pickColor;
      var c, n := CalcShape(w, h, d, orientation);
      coord := c;
      normals := n;
      var ps := MakeParts(c, n, pickColor);
      parts := ps;
    }
  }
}
