/**
 * Shapes3D's MD2_Data: the model read from an MD2 file (the points of every
 * key frame, their bounding box, the OpenGL strip and fan commands and the
 * animation states), shared by every shape that shows the model.
 *
 * `centreModel`, `scaleModel` and `orientModel` change the point array in
 * place. The bounding box is the one `MD2.getPointList` and `orientModel`
 * keep while they walk the points: minima start at Float.MAX_VALUE, maxima
 * at -Float.MAX_VALUE, and each point lowers a minimum or raises a maximum.
 * The model proves that this running box is the smallest box holding the
 * points, that centring on its centre leaves the model centred on the
 * origin, and that scaling by a non-negative factor scales its extent.
 */
module Md2Models {

  import opened Vectors

  /** Java's Float.MAX_VALUE. */
  const FloatMax: real := 340282346638528859811704183484516925440.0

  /** `MD2_Vertex`: texture coordinates and the index of a point. */
  datatype Vertex = Vertex(s: real, t: real, idx: int)

  /** `MD2_AnimState`: a named run of consecutive frames. */
  datatype AnimState = AnimState(name: string, startFrame: int, endFrame: int)

  /** A box given by its lowest and highest corner. */
  datatype BBox = BBox(lo: PVec, hi: PVec)

  /** The box the walks start from, before any point is seen. */
  const NoBox := BBox(PVec(FloatMax, FloatMax, FloatMax), PVec(-FloatMax, -FloatMax, -FloatMax))

  /** One step of the walk: each of the six independent comparisons. */
  function Grow(b: BBox, p: PVec): BBox
  {
    BBox(PVec(if p.x < b.lo.x then p.x else b.lo.x,
              if p.y < b.lo.y then p.y else b.lo.y,
              if p.z < b.lo.z then p.z else b.lo.z),
         PVec(if p.x > b.hi.x then p.x else b.hi.x,
              if p.y > b.hi.y then p.y else b.hi.y,
              if p.z > b.hi.z then p.z else b.hi.z))
  }

  /** The box after walking the points in order. */
  function BoxOf(ps: seq<PVec>): BBox
    decreases |ps|
  {
    if ps == [] then NoBox else Grow(BoxOf(ps[..|ps| - 1]), ps[|ps| - 1])
  }

  /** The centre of a box: `modOffset`. */
  function Centre(b: BBox): PVec
  {
    PVec((b.lo.x + b.hi.x) / 2.0, (b.lo.y + b.hi.y) / 2.0, (b.lo.z + b.hi.z) / 2.0)
  }

  /** The size of a box along each axis: `modSize`. */
  function Extent(b: BBox): PVec
  {
    Sub(b.hi, b.lo)
  }

  predicate Holds(b: BBox, p: PVec)
  {
    b.lo.x <= p.x <= b.hi.x && b.lo.y <= p.y <= b.hi.y && b.lo.z <= p.z <= b.hi.z
  }

  /** Every point lies in the box of the walk. */
  lemma {:induction false} BoxHoldsAll(ps: seq<PVec>, k: int)
    requires 0 <= k < |ps|
    ensures Holds(BoxOf(ps), ps[k])
    decreases |ps|
  {
    if k < |ps| - 1 {
      BoxHoldsAll(ps[..|ps| - 1], k);
    }
  }

  /** Points a Java float can hold. */
  ghost predicate InFloatRange(ps: seq<PVec>)
  {
    forall k :: 0 <= k < |ps| ==>
      -FloatMax <= ps[k].x <= FloatMax && -FloatMax <= ps[k].y <= FloatMax && -FloatMax <= ps[k].z <= FloatMax
  }

  /** The box of a non-empty list, grown from its first point. */
  function Hull(ps: seq<PVec>): BBox
    requires ps != []
    decreases |ps|
  {
    if |ps| == 1 then BBox(ps[0], ps[0]) else Grow(Hull(ps[..|ps| - 1]), ps[|ps| - 1])
  }

  /** For points a float can hold the starting values never survive: the
    * walk's box is the hull of the points. */
  lemma {:induction false} BoxIsHull(ps: seq<PVec>)
    requires ps != [] && InFloatRange(ps)
    ensures BoxOf(ps) == Hull(ps)
    decreases |ps|
  {
    if |ps| > 1 {
      var init := ps[..|ps| - 1];
      assert InFloatRange(init) by {
        forall k | 0 <= k < |init| ensures init[k] == ps[k] { }
      }
      BoxIsHull(init);
    } else {
      assert BoxOf(ps[..0]) == NoBox;
    }
  }

  /** Coordinate a of a point: x, y or z. */
  function Axis(p: PVec, a: int): real
    requires 0 <= a < 3
  {
    if a == 0 then p.x else if a == 1 then p.y else p.z
  }

  /** Along every axis both faces of the hull touch a point: no smaller box
    * holds the points. */
  lemma {:induction false} HullIsTight(ps: seq<PVec>, a: int)
    requires ps != [] && 0 <= a < 3
    ensures exists k :: 0 <= k < |ps| && Axis(Hull(ps).lo, a) == Axis(ps[k], a)
    ensures exists k :: 0 <= k < |ps| && Axis(Hull(ps).hi, a) == Axis(ps[k], a)
    decreases |ps|
  {
    var n := |ps| - 1;
    if n == 0 {
      assert Axis(Hull(ps).lo, a) == Axis(ps[0], a) && Axis(Hull(ps).hi, a) == Axis(ps[0], a);
    } else {
      var init := ps[..n];
      HullIsTight(init, a);
      var h, p := Hull(init), ps[n];
      var i :| 0 <= i < |init| && Axis(h.lo, a) == Axis(init[i], a);
      var j :| 0 <= j < |init| && Axis(h.hi, a) == Axis(init[j], a);
      assert init[i] == ps[i] && init[j] == ps[j];
      if Axis(p, a) < Axis(h.lo, a) {
        assert Axis(Hull(ps).lo, a) == Axis(ps[n], a);
      } else {
        assert Axis(Hull(ps).lo, a) == Axis(ps[i], a);
      }
      if Axis(p, a) > Axis(h.hi, a) {
        assert Axis(Hull(ps).hi, a) == Axis(ps[n], a);
      } else {
        assert Axis(Hull(ps).hi, a) == Axis(ps[j], a);
      }
    }
  }

  /** The points moved by -o, as `PVector.sub` moves each one. */
  function Moved(ps: seq<PVec>, o: PVec): (r: seq<PVec>)
    ensures |r| == |ps|
  {
    seq(|ps|, k requires 0 <= k < |ps| => Sub(ps[k], o))
  }

  /** The points multiplied by s, as `PVector.mult` multiplies each one. */
  function Scaled(ps: seq<PVec>, s: real): (r: seq<PVec>)
    ensures |r| == |ps|
  {
    seq(|ps|, k requires 0 <= k < |ps| => Scale(ps[k], s))
  }

  /** Moving the points moves their hull. */
  lemma {:induction false} HullMoves(ps: seq<PVec>, o: PVec)
    requires ps != []
    ensures Hull(Moved(ps, o)) == BBox(Sub(Hull(ps).lo, o), Sub(Hull(ps).hi, o))
    decreases |ps|
  {
    if |ps| > 1 {
      var init := ps[..|ps| - 1];
      assert Moved(ps, o)[..|ps| - 1] == Moved(init, o);
      HullMoves(init, o);
    }
  }

  /** Centring on the hull's centre leaves the model centred on the origin
    * with its size unchanged. */
  lemma {:induction false} CentringCentres(ps: seq<PVec>)
    requires ps != []
    ensures Centre(Hull(Moved(ps, Centre(Hull(ps))))) == Zero
    ensures Extent(Hull(Moved(ps, Centre(Hull(ps))))) == Extent(Hull(ps))
  {
    HullMoves(ps, Centre(Hull(ps)));
  }

  /** A map on coordinates that never reverses their order. */
  ghost predicate Monotone(f: real -> real)
  {
    forall a: real, b: real :: a < b ==> f(a) <= f(b)
  }

  /** A point with f applied to each of its coordinates. */
  function MapPoint(p: PVec, f: real -> real): PVec
  {
    PVec(f(p.x), f(p.y), f(p.z))
  }

  /** The points with f applied to each coordinate. */
  function MapPoints(ps: seq<PVec>, f: real -> real): (r: seq<PVec>)
    ensures |r| == |ps|
  {
    seq(|ps|, k requires 0 <= k < |ps| => MapPoint(ps[k], f))
  }

  /** The smaller and the larger of two values commute with a monotone map. */
  lemma ChoiceMaps(u: real, v: real, f: real -> real)
    requires Monotone(f)
    ensures (if f(u) < f(v) then f(u) else f(v)) == f(if u < v then u else v)
    ensures (if f(u) > f(v) then f(u) else f(v)) == f(if u > v then u else v)
  {
    if u < v {
      assert f(u) <= f(v);
    } else if v < u {
      assert f(v) <= f(u);
    }
  }

  /** One step of the walk commutes with a monotone map. */
  lemma GrowMaps(b: BBox, p: PVec, f: real -> real)
    requires Monotone(f)
    ensures Grow(BBox(MapPoint(b.lo, f), MapPoint(b.hi, f)), MapPoint(p, f))
         == BBox(MapPoint(Grow(b, p).lo, f), MapPoint(Grow(b, p).hi, f))
  {
    ChoiceMaps(p.x, b.lo.x, f);
    ChoiceMaps(p.y, b.lo.y, f);
    ChoiceMaps(p.z, b.lo.z, f);
    ChoiceMaps(p.x, b.hi.x, f);
    ChoiceMaps(p.y, b.hi.y, f);
    ChoiceMaps(p.z, b.hi.z, f);
  }

  /** A monotone map of the coordinates maps the hull's corners. */
  lemma {:induction false} HullMaps(ps: seq<PVec>, f: real -> real)
    requires ps != [] && Monotone(f)
    ensures Hull(MapPoints(ps, f)) == BBox(MapPoint(Hull(ps).lo, f), MapPoint(Hull(ps).hi, f))
    decreases |ps|
  {
    if |ps| > 1 {
      var init := ps[..|ps| - 1];
      assert MapPoints(ps, f)[..|ps| - 1] == MapPoints(init, f);
      HullMaps(init, f);
      GrowMaps(Hull(init), ps[|ps| - 1], f);
    }
  }

  /** Multiplication by s, as a map on coordinates. */
  function Times(s: real): real -> real
  {
    x => x * s
  }

  /** Multiplying by a non-negative factor is monotone. */
  lemma ScalingIsMonotone(s: real)
    requires 0.0 <= s
    ensures Monotone(Times(s))
  {
    var f := Times(s);
    forall a: real, b: real | a < b
      ensures f(a) <= f(b)
    {
      assert f(a) == a * s && f(b) == b * s;
    }
  }

  /** Scaling the points is mapping their coordinates by `Times`. */
  lemma ScaledIsMapped(ps: seq<PVec>, s: real)
    ensures Scaled(ps, s) == MapPoints(ps, Times(s))
  {
    forall k | 0 <= k < |ps|
      ensures Scaled(ps, s)[k] == MapPoints(ps, Times(s))[k]
    {
    }
  }

  /** Scaling by a non-negative factor scales the hull. */
  lemma {:induction false} HullScales(ps: seq<PVec>, s: real)
    requires ps != [] && 0.0 <= s
    ensures Hull(Scaled(ps, s)) == BBox(Scale(Hull(ps).lo, s), Scale(Hull(ps).hi, s))
  {
    HullTimes(ps, s);
    ScaledIsMapped(ps, s);
    PointTimes(Hull(ps).lo, s);
    PointTimes(Hull(ps).hi, s);
  }

  /** `HullMaps` for multiplication by a non-negative factor. */
  lemma HullTimes(ps: seq<PVec>, s: real)
    requires ps != [] && 0.0 <= s
    ensures Hull(MapPoints(ps, Times(s))) == BBox(MapPoint(Hull(ps).lo, Times(s)), MapPoint(Hull(ps).hi, Times(s)))
  {
    ScalingIsMonotone(s);
    HullMaps(ps, Times(s));
  }

  /** Mapping a point by `Times` scales it. */
  lemma PointTimes(p: PVec, s: real)
    ensures MapPoint(p, Times(s)) == Scale(p, s)
  {
  }

  /** Scaling distributes over the difference of two points. */
  lemma SubScales(a: PVec, b: PVec, s: real)
    ensures Sub(Scale(a, s), Scale(b, s)) == Scale(Sub(a, b), s)
  {
    assert a.x * s - b.x * s == (a.x - b.x) * s;
    assert a.y * s - b.y * s == (a.y - b.y) * s;
    assert a.z * s - b.z * s == (a.z - b.z) * s;
  }

  /** After `scaleModel(s)` with s >= 0, `modSize` is still the size of the
    * model when it was the size before. */
  lemma {:induction false} ScalingKeepsSize(ps: seq<PVec>, s: real)
    requires ps != [] && 0.0 <= s
    ensures Extent(Hull(Scaled(ps, s))) == Scale(Extent(Hull(ps)), s)
  {
    HullScales(ps, s);
    SubScales(Hull(ps).hi, Hull(ps).lo, s);
  }

  class Md2Data {
    var numFrames: int
    var numXYZ: int
    var point: array<PVec>
    var modOffset: PVec
    var modSize: PVec
    var glCommand: seq<int>
    var glVertex: seq<Vertex>
    var animState: seq<AnimState>
    /** The skin image, by identity. */
    var skin: nat

    /** Every argument stored as given, except the frame size, which the
      * model keeps nothing of. */
    constructor (numFrames: int, numXYZ: int, frameSize: int, points: array<PVec>, modOffset: PVec,
                 modSize: PVec, glCommand: seq<int>, glVertex: seq<Vertex>, skin: nat, state: seq<AnimState>)
      ensures this.numFrames == numFrames && this.numXYZ == numXYZ && point == points
      ensures this.modOffset == modOffset && this.modSize == modSize
      ensures this.glCommand == glCommand && this.glVertex == glVertex
      ensures this.skin == skin && animState == state
    {
      this.numFrames := numFrames;
      this.numXYZ := numXYZ;
      point := points;
      this.modOffset := modOffset;
      this.modSize := modSize;
      this.glCommand := glCommand;
      this.glVertex := glVertex;
      this.skin := skin;
      animState := state;
    }

    /** `centreModel(offset)`: every point moved by -offset, and the stored
      * offset reset to the zero vector. */
    method CentreModelBy(offset: PVec)
      modifies point, this`modOffset
      ensures point[..] == Moved(old(point[..]), offset)
      ensures modOffset == Zero
    {
      for i := 0 to point.Length
        invariant forall k :: 0 <= k < i ==> point[k] == Sub(old(point[k]), offset)
        invariant forall k :: i <= k < point.Length ==> point[k] == old(point[k])
      {
        point[i] := Sub(point[i], offset);
      }
      assert point[..] == Moved(old(point[..]), offset);
      modOffset := Zero;
    }

    /** `centreModel()`: centring on the stored offset. */
    method CentreModel()
      modifies point, this`modOffset
      ensures point[..] == Moved(old(point[..]), old(modOffset))
      ensures modOffset == Zero
    {
      CentreModelBy(modOffset);
    }

    /** `scaleModel(scale)`: every point and the stored size multiplied. */
    method ScaleModel(scale: real)
      modifies point, this`modSize
      ensures point[..] == Scaled(old(point[..]), scale)
      ensures modSize == Scale(old(modSize), scale)
    {
      for i := 0 to point.Length
        invariant forall k :: 0 <= k < i ==> point[k] == Scale(old(point[k]), scale)
        invariant modSize == old(modSize)
        invariant forall k :: i <= k < point.Length ==> point[k] == old(point[k])
      {
        point[i] := Scale(point[i], scale);
      }
      assert point[..] == Scaled(old(point[..]), scale);
      modSize := Scale(modSize, scale);
    }

    /** `orientModel(orientation)`: every point turned and moved by the
      * orientation, then the stored offset and size recomputed from the box
      * of the new points. */
    method OrientModel(applyTR: PVec -> PVec)
      modifies point, this`modOffset, this`modSize
      ensures forall k :: 0 <= k < point.Length ==> point[k] == applyTR(old(point[k]))
      ensures modOffset == Centre(BoxOf(point[..])) && modSize == Extent(BoxOf(point[..]))
    {
      var box := NoBox;
      for i := 0 to point.Length
        invariant forall k :: 0 <= k < i ==> point[k] == applyTR(old(point[k]))
        invariant forall k :: i <= k < point.Length ==> point[k] == old(point[k])
        invariant box == BoxOf(point[..i])
      {
        point[i] := applyTR(point[i]);
        assert point[..i + 1][..i] == point[..i];
        box := Grow(box, point[i]);
      }
      assert point[..point.Length] == point[..];
      modOffset := Centre(box);
      modSize := Extent(box);
    }
  }
}
