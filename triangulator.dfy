/**
 * Shapes3D's Triangulator: ear clipping of a simple polygon without holes.
 *
 * The vertex list `vList` starts counter-clockwise (the identity order if
 * the signed area is positive, reversed otherwise). Round and round it, an
 * ear u, v, w whose corner turns left by at least EPSILON and contains no
 * other remaining vertex is cut off: its three vertices are output and v is
 * shifted out of the list. A counter of 2·nv tries without an ear stops a
 * polygon that is not simple, and the triangulation then fails.
 */
module Triangulator {

  import opened Vectors

  const Epsilon: real := 0.000000000000000000000000000001

  /** The 2-D cross product of two position vectors. */
  function Cross(a: PVec, b: PVec): real
  {
    a.x * b.y - b.x * a.y
  }

  /** The index before q on a closed contour of n vertices. */
  function Prev(n: int, q: int): int
  {
    if q == 0 then n - 1 else q - 1
  }

  /** The shoelace sum of the first q edges ending at vertices 0..q-1. */
  function Shoelace(c: seq<PVec>, q: int): real
    requires 0 <= q <= |c|
  {
    if q == 0 then 0.0 else Shoelace(c, q - 1) + Cross(c[Prev(|c|, q - 1)], c[q - 1])
  }

  /** Twice the signed area of the triangle a, b, c: positive when it turns
    * counter-clockwise. */
  function Orientation(a: PVec, b: PVec, c: PVec): real
  {
    (b.x - a.x) * (c.y - a.y) - (b.y - a.y) * (c.x - a.x)
  }

  /** For a triangle, the shoelace sum is the orientation: `area` is
    * positive exactly for counter-clockwise triangles. */
  lemma {:induction false} ShoelaceOfTriangle(a: PVec, b: PVec, c: PVec)
    ensures Shoelace([a, b, c], 3) == Orientation(a, b, c)
  {
    var s := [a, b, c];
    assert Shoelace(s, 1) == Cross(c, a);
    assert Shoelace(s, 2) == Cross(c, a) + Cross(a, b);
    assert Shoelace(s, 3) == Cross(c, a) + Cross(a, b) + Cross(b, c);
  }

  /** `area`: half the shoelace sum over the closed contour. */
  method Area(contour: array<PVec>) returns (area: real)
    ensures area == Shoelace(contour[..], contour.Length) * 0.5
  {
    var n := contour.Length;
    var areaX2 := 0.0;
    var p := n - 1;
    var q := 0;
    while q < n
      invariant 0 <= q <= n
      invariant p == Prev(n, q)
      invariant areaX2 == Shoelace(contour[..], q)
    {
      areaX2 := areaX2 + (contour[p].x * contour[q].y - contour[q].x * contour[p].y);
      p := q;
      q := q + 1;
    }
    area := areaX2 * 0.5;
  }

  /** `isInsideTriangle`: p is on the inner side of (or on) all three edges
    * of the triangle a, b, c. */
  predicate IsInsideTriangle(a: PVec, b: PVec, c: PVec, p: PVec)
  {
    var aCrossBp := (c.x - b.x) * (p.y - b.y) - (c.y - b.y) * (p.x - b.x);
    var cCrossAp := (b.x - a.x) * (p.y - a.y) - (b.y - a.y) * (p.x - a.x);
    var bCrossCp := (a.x - c.x) * (p.y - c.y) - (a.y - c.y) * (p.x - c.x);
    aCrossBp >= 0.0 && bCrossCp >= 0.0 && cCrossAp >= 0.0
  }

  /** A corner of a counter-clockwise triangle counts as inside it, which
    * is why `snip` skips the ear's own three vertices. */
  lemma {:induction false} CornerInside(a: PVec, b: PVec, c: PVec)
    requires Orientation(a, b, c) >= 0.0
    ensures IsInsideTriangle(a, b, c, a)
  {
    assert (c.x - b.x) * (a.y - b.y) - (c.y - b.y) * (a.x - b.x) == Orientation(a, b, c);
    assert (a.x - c.x) * (a.y - c.y) - (a.y - c.y) * (a.x - c.x) == 0.0;
  }

  /** The vertices of the current polygon all name contour points. */
  ghost predicate InContour(contour: seq<PVec>, vs: seq<int>)
  {
    forall i :: 0 <= i < |vs| ==> 0 <= vs[i] < |contour|
  }

  /** Vertex p of the polygon `vs`. */
  function VertexOf(contour: seq<PVec>, vs: seq<int>, p: int): PVec
    requires InContour(contour, vs) && 0 <= p < |vs|
  {
    contour[vs[p]]
  }

  /** u, v, w is an ear of the polygon `vs`: it turns left by at least
    * EPSILON and no other vertex of the polygon lies inside it. */
  ghost predicate IsEar(contour: seq<PVec>, vs: seq<int>, u: int, v: int, w: int)
    requires InContour(contour, vs) && 0 <= u < |vs| && 0 <= v < |vs| && 0 <= w < |vs|
  {
    var a := contour[vs[u]];
    var b := contour[vs[v]];
    var c := contour[vs[w]];
    Orientation(a, b, c) >= Epsilon &&
    forall p {:trigger VertexOf(contour, vs, p)} :: 0 <= p < |vs| && p != u && p != v && p != w ==>
      !IsInsideTriangle(a, b, c, VertexOf(contour, vs, p))
  }

  /** `snip`: whether u, v, w is an ear of the first n entries of vList. */
  method Snip(contour: array<PVec>, u: int, v: int, w: int, n: int, vList: array<int>) returns (ok: bool)
    requires 0 <= u < n && 0 <= v < n && 0 <= w < n && n <= vList.Length
    requires InContour(contour[..], vList[..n])
    ensures ok <==> IsEar(contour[..], vList[..n], u, v, w)
  {
    var a := contour[vList[u]];
    var b := contour[vList[v]];
    var c := contour[vList[w]];
    if Epsilon > (b.x - a.x) * (c.y - a.y) - (b.y - a.y) * (c.x - a.x) {
      return false;
    }
    var p := 0;
    while p < n
      invariant 0 <= p <= n
      invariant forall k {:trigger VertexOf(contour[..], vList[..n], k)} :: 0 <= k < p && k != u && k != v && k != w ==>
                  !IsInsideTriangle(a, b, c, VertexOf(contour[..], vList[..n], k))
    {
      assert VertexOf(contour[..], vList[..n], p) == contour[vList[p]];
      if p != u && p != v && p != w {
        if IsInsideTriangle(a, b, c, contour[vList[p]]) {
          return false;
        }
      }
      p := p + 1;
    }
    return true;
  }

  /** Distinct vertex numbers below n. */
  ghost predicate DistinctBelow(vs: seq<int>, n: int)
  {
    (forall i :: 0 <= i < |vs| ==> 0 <= vs[i] < n) &&
    (forall i, j :: 0 <= i < j < |vs| ==> vs[i] != vs[j])
  }

  /** The starting order: 0..n-1, or n-1..0 when the contour is clockwise. */
  method InitialOrder(n: int, counterClockwise: bool) returns (vList: array<int>)
    requires n >= 0
    ensures fresh(vList) && vList.Length == n
    ensures forall i :: 0 <= i < n ==> vList[i] == if counterClockwise then i else n - 1 - i
    ensures DistinctBelow(vList[..], n)
  {
    vList := new int[n];
    var v := 0;
    while v < n
      invariant 0 <= v <= n
      invariant forall i :: 0 <= i < v ==> vList[i] == if counterClockwise then i else n - 1 - i
    {
      vList[v] := if counterClockwise then v else (n - 1) - v;
      v := v + 1;
    }
  }

  /** Shift vertex v out of the first nv entries of vList. */
  method RemoveAt(vList: array<int>, v: int, nv: int)
    requires 0 <= v < nv <= vList.Length
    modifies vList
    ensures vList[..nv - 1] == old(vList[..v]) + old(vList[v + 1..nv])
  {
    var s := v;
    var t := v + 1;
    while t < nv
      invariant v <= s && t == s + 1 && t <= nv
      invariant vList[..v] == old(vList[..v])
      invariant forall k :: v <= k < s ==> vList[k] == old(vList[k + 1])
      invariant forall k :: s <= k < nv ==> vList[k] == old(vList[k])
    {
      vList[s] := vList[t];
      s := s + 1;
      t := t + 1;
    }
    assert vList[..nv - 1] == old(vList[..v]) + old(vList[v + 1..nv]);
  }

  /** Removing one vertex keeps the rest distinct, and the removed one is
    * no longer among them. */
  lemma {:induction false} RemovePreserves(vs: seq<int>, v: int, n: int)
    requires DistinctBelow(vs, n) && 0 <= v < |vs|
    ensures var rest := vs[..v] + vs[v + 1..];
            DistinctBelow(rest, n) && vs[v] !in rest &&
            forall x :: x in rest ==> x in vs
  {
    var rest := vs[..v] + vs[v + 1..];
    forall i, j | 0 <= i < j < |rest|
      ensures rest[i] != rest[j]
    {
      var i' := if i < v then i else i + 1;
      var j' := if j < v then j else j + 1;
      assert rest[i] == vs[i'] && rest[j] == vs[j'] && i' < j';
    }
    forall i | 0 <= i < |rest|
      ensures rest[i] != vs[v] && rest[i] in vs
    {
      var i' := if i < v then i else i + 1;
      assert rest[i] == vs[i'] && i' != v;
    }
  }

  /** One output triangle. */
  datatype Triangle = Triangle(a: int, b: int, c: int)

  function Flatten(ts: seq<Triangle>): (r: seq<int>)
    ensures |r| == 3 * |ts|
  {
    if ts == [] then [] else Flatten(ts[..|ts| - 1]) + [ts[|ts| - 1].a, ts[|ts| - 1].b, ts[|ts| - 1].c]
  }

  /** A triangulation of an n-vertex polygon: n - 2 triangles of three
    * distinct vertices below n, each clipping a different middle vertex. */
  ghost predicate IsTriangulation(ts: seq<Triangle>, n: int)
  {
    |ts| == n - 2 &&
    (forall t :: 0 <= t < |ts| ==> 0 <= ts[t].a < n && 0 <= ts[t].b < n && 0 <= ts[t].c < n) &&
    (forall t :: 0 <= t < |ts| ==> ts[t].a != ts[t].b && ts[t].b != ts[t].c && ts[t].a != ts[t].c) &&
    (forall t1, t2 :: 0 <= t1 < t2 < |ts| ==> ts[t1].b != ts[t2].b)
  }

  /** The state of ear clipping on an n-vertex polygon: the polygon `vs`
    * left so far is distinct, each triangle cut off so far is a proper
    * triangle of vertex numbers below n, and each took away a different
    * middle vertex that is no longer in `vs`. */
  ghost predicate Progress(ts: seq<Triangle>, vs: seq<int>, n: int)
  {
    DistinctBelow(vs, n) && |ts| + |vs| == n &&
    (forall t :: 0 <= t < |ts| ==> 0 <= ts[t].a < n && 0 <= ts[t].b < n && 0 <= ts[t].c < n) &&
    (forall t :: 0 <= t < |ts| ==> ts[t].a != ts[t].b && ts[t].b != ts[t].c && ts[t].a != ts[t].c) &&
    (forall t1, t2 :: 0 <= t1 < t2 < |ts| ==> ts[t1].b != ts[t2].b) &&
    (forall t :: 0 <= t < |ts| ==> ts[t].b !in vs)
  }

  /** Cutting off the ear u, v, w keeps the clipping state. */
  lemma {:induction false} ClipStep(ts: seq<Triangle>, vs: seq<int>, u: int, v: int, w: int, n: int)
    requires Progress(ts, vs, n)
    requires 0 <= u < |vs| && 0 <= v < |vs| && 0 <= w < |vs| && u != v && v != w && u != w
    ensures Progress(ts + [Triangle(vs[u], vs[v], vs[w])], vs[..v] + vs[v + 1..], n)
  {
    RemovePreserves(vs, v, n);
    var ts' := ts + [Triangle(vs[u], vs[v], vs[w])];
    var rest := vs[..v] + vs[v + 1..];
    forall t | 0 <= t < |ts'|
      ensures ts'[t].b !in rest
    {
      if t < |ts| {
        assert ts'[t] == ts[t];
      }
    }
    forall t1, t2 | 0 <= t1 < t2 < |ts'|
      ensures ts'[t1].b != ts'[t2].b
    {
      if t2 == |ts| {
        assert ts'[t1].b !in vs;
      }
    }
  }

  /** When two vertices are left, the triangles cut off form a
    * triangulation. */
  lemma {:induction false} ProgressDone(ts: seq<Triangle>, vs: seq<int>, n: int)
    requires Progress(ts, vs, n) && |vs| == 2
    ensures IsTriangulation(ts, n)
  {
  }

  /** The number of polygon vertices: the last entry of a closed contour
    * repeats the first. */
  function VertexCount(length: int, open: bool): int
  {
    if open then length else length - 1
  }

  /** Vertex numbers below n name points of a contour of n or more. */
  lemma {:induction false} InContourBelow(contour: seq<PVec>, vs: seq<int>, n: int)
    requires DistinctBelow(vs, n) && n <= |contour|
    ensures InContour(contour, vs)
  {
    forall i | 0 <= i < |vs|
      ensures 0 <= vs[i] < |contour|
    {
      assert 0 <= vs[i] < n;
    }
  }

  /** Cut off the ear u, v, w: return its vertices and shift v out of the
    * polygon. */
  method CutEar(vList: array<int>, nv: int, u: int, v: int, w: int, ghost ts: seq<Triangle>, ghost n: int)
      returns (a: int, b: int, c: int)
    requires 3 <= nv <= vList.Length && Progress(ts, vList[..nv], n)
    requires 0 <= u < nv && 0 <= v < nv && 0 <= w < nv && u != v && v != w && u != w
    modifies vList
    ensures a == old(vList[u]) && b == old(vList[v]) && c == old(vList[w])
    ensures vList[..nv - 1] == old(vList[..v]) + old(vList[v + 1..nv])
    ensures Progress(ts + [Triangle(a, b, c)], vList[..nv - 1], n)
  {
    a, b, c := vList[u], vList[v], vList[w];
    ghost var before := vList[..nv];
    ClipStep(ts, before, u, v, w, n);
    RemoveAt(vList, v, nv);
    assert vList[..nv - 1] == before[..v] + before[v + 1..];
  }

  /** Appending a triangle appends its three vertices. */
  lemma {:induction false} FlattenAppend(ts: seq<Triangle>, t: Triangle)
    ensures Flatten(ts + [t]) == Flatten(ts) + [t.a, t.b, t.c]
  {
    assert (ts + [t])[..|ts|] == ts;
  }

  /** Cut off the ear u, v, w and add its vertex numbers to the result. */
  method TakeEar(vList: array<int>, nv: int, u: int, v: int, w: int, result: seq<int>, ghost ts: seq<Triangle>, ghost n: int)
      returns (result': seq<int>, ghost ts': seq<Triangle>)
    requires 3 <= nv <= vList.Length && result == Flatten(ts) && Progress(ts, vList[..nv], n)
    requires 0 <= u < nv && 0 <= v < nv && 0 <= w < nv && u != v && v != w && u != w
    modifies vList
    ensures result' == Flatten(ts') && Progress(ts', vList[..nv - 1], n)
  {
    var a, b, c := CutEar(vList, nv, u, v, w, ts, n);
    FlattenAppend(ts, Triangle(a, b, c));
    result' := result + [a, b, c];
    ts' := ts + [Triangle(a, b, c)];
  }

  /** `triangulate(contour, open)` on an array: null (None) for fewer than
    * three vertices or when no ear is found within 2·nv tries; otherwise
    * the triangles' vertex numbers, three per triangle. */
  method Triangulate(contour: array<PVec>, open: bool) returns (r: Option<seq<int>>)
    ensures VertexCount(contour.Length, open) < 3 ==> r == None
    ensures r.Some? ==> exists ts :: r.value == Flatten(ts) && IsTriangulation(ts, VertexCount(contour.Length, open))
  {
    var n := if open then contour.Length else contour.Length - 1;
    if n < 3 {
      return None;
    }
    var area := Area(contour);
    var vList := InitialOrder(n, 0.0 < area);
    assert vList[..n] == vList[..];
    r := ClipEars(contour, vList, n);
  }

  /** The ear-clipping loop of `triangulate`: go round the polygon, cut off
    * an ear whenever `snip` finds one, and give up after 2·nv tries
    * without one. */
  method ClipEars(contour: array<PVec>, vList: array<int>, n: int) returns (r: Option<seq<int>>)
    requires 3 <= n <= contour.Length && vList.Length == n && DistinctBelow(vList[..], n)
    modifies vList
    ensures r.Some? ==> exists ts :: r.value == Flatten(ts) && IsTriangulation(ts, n)
  {
    var result: seq<int> := [];
    ghost var ts: seq<Triangle> := [];
    var nv := n;
    var count := 2 * nv;
    var m := 0;
    var v := nv - 1;
    assert vList[..nv] == vList[..];
    while nv > 2
      invariant 2 <= nv <= n
      invariant 0 <= v <= nv && count >= 0
      invariant result == Flatten(ts) && Progress(ts, vList[..nv], n)
      decreases nv, count
    {
      if count <= 0 {
        return None;
      }
      count := count - 1;
      var u := v;
      if nv <= u { u := 0; }
      v := u + 1;
      if nv <= v { v := 0; }
      var w := v + 1;
      if nv <= w { w := 0; }
      InContourBelow(contour[..], vList[..nv], n);
      var ear := Snip(contour, u, v, w, nv, vList);
      if ear {
        result, ts := TakeEar(vList, nv, u, v, w, result, ts, n);
        m := m + 1;
        nv := nv - 1;
        count := 2 * nv;
      }
    }
    ProgressDone(ts, vList[..nv], n);
    return Some(result);
  }

  /** `triangulate(contour, result, open)` on a list: the list is cleared
    * and filled from the array form. A failed triangulation throws (the
    * array form returns null and is iterated), so the boolean returned is
    * never false. */
  datatype ListOutcome = NullPointer | Done(succeeded: bool, result: seq<int>)

  method TriangulateList(contour: seq<PVec>, open: bool) returns (outcome: ListOutcome)
    ensures VertexCount(|contour|, open) < 3 ==> outcome == NullPointer
    ensures outcome.Done? ==> outcome.succeeded && |outcome.result| == 3 * (VertexCount(|contour|, open) - 2)
  {
    var contourArray := new PVec[|contour|](i requires 0 <= i < |contour| => contour[i]);
    var r := Triangulate(contourArray, open);
    if r.None? {
      return NullPointer;
    }
    var result: seq<int> := [];
    var i := 0;
    while i < |r.value|
      invariant 0 <= i <= |r.value| && result == r.value[..i]
    {
      result := result + [r.value[i]];
      i := i + 1;
    }
    return Done(result != [], result);
  }
}
