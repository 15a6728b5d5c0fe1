/**
 * Shapes3D's Util: vector arrays from coordinate arrays, deep copies,
 * in-place reversal and the overlap of two integer rectangles.
 *
 * PVectors and UVs are values here, so a deep copy is a fresh array
 * holding equal elements; the conversions to and from the Apache Commons
 * vector type and `slerp` (trigonometry) are not part of this model.
 */
module Util {

  import opened Vectors

  function Min(a: int, b: int): (m: int)
    ensures m <= a && m <= b && (m == a || m == b)
  {
    if a < b then a else b
  }

  function Max(a: int, b: int): (m: int)
    ensures m >= a && m >= b && (m == a || m == b)
  {
    if a > b then a else b
  }

  /** `makePVectorArray(x, y)`: one 2-D vector per index both arrays have. */
  method MakePVectorArray2(x: array<real>, y: array<real>) returns (v: array<PVec>)
    ensures fresh(v)
    ensures v.Length == Min(x.Length, y.Length)
    ensures forall i :: 0 <= i < v.Length ==> v[i] == Of2(x[i], y[i])
  {
    v := new PVec[Min(x.Length, y.Length)];
    var i := 0;
    while i < v.Length
      invariant 0 <= i <= v.Length
      invariant forall k :: 0 <= k < i ==> v[k] == Of2(x[k], y[k])
    {
      v[i] := Of2(x[i], y[i]);
      i := i + 1;
    }
  }

  /** `makePVectorArray(x, y, z)`: one vector per index all three have. */
  method MakePVectorArray3(x: array<real>, y: array<real>, z: array<real>) returns (v: array<PVec>)
    ensures fresh(v)
    ensures v.Length == Min(Min(x.Length, y.Length), z.Length)
    ensures forall i :: 0 <= i < v.Length ==> v[i] == PVec(x[i], y[i], z[i])
  {
    v := new PVec[Min(Min(x.Length, y.Length), z.Length)];
    var i := 0;
    while i < v.Length
      invariant 0 <= i <= v.Length
      invariant forall k :: 0 <= k < i ==> v[k] == PVec(x[k], y[k], z[k])
    {
      v[i] := PVec(x[i], y[i], z[i]);
      i := i + 1;
    }
  }

  /** `deepCopy` of a 1-D array (PVector, UV or int elements). */
  method DeepCopy<T(0)>(a: array<T>) returns (v: array<T>)
    ensures fresh(v)
    ensures v[..] == a[..]
  {
    v := new T[a.Length];
    var i := 0;
    while i < v.Length
      invariant 0 <= i <= v.Length
      invariant forall k :: 0 <= k < i ==> v[k] == a[k]
    {
      v[i] := a[i];
      i := i + 1;
    }
  }

  /** `deepCopy` of a 2-D (jagged) array: every row is a fresh array with
    * the same length and elements. */
  method DeepCopy2<T(0)>(a: array<array<T>>) returns (v: array<array<T>>)
    ensures fresh(v) && v.Length == a.Length
    ensures forall i :: 0 <= i < v.Length ==> fresh(v[i]) && v[i][..] == a[i][..]
  {
    v := new array<T>[a.Length];
    var i := 0;
    while i < v.Length
      invariant 0 <= i <= v.Length
      invariant forall k :: 0 <= k < i ==> fresh(v[k]) && v[k][..] == a[k][..]
    {
      var copy := DeepCopy(a[i]);
      v[i] := copy;
      i := i + 1;
    }
  }

  /** The elements of `s` in the opposite order. */
  function Reversed<T>(s: seq<T>): (r: seq<T>)
    ensures |r| == |s|
  {
    if s == [] then [] else Reversed(s[1..]) + [s[0]]
  }

  lemma {:induction false} ReversedAt<T>(s: seq<T>, i: int)
    requires 0 <= i < |s|
    ensures Reversed(s)[i] == s[|s| - 1 - i]
  {
    if i < |s| - 1 {
      ReversedAt(s[1..], i);
    }
  }

  /** Reversing twice restores the sequence. */
  lemma ReversedTwice<T>(s: seq<T>)
    ensures Reversed(Reversed(s)) == s
  {
    var r := Reversed(s);
    forall i | 0 <= i < |s|
      ensures Reversed(r)[i] == s[i]
    {
      ReversedAt(r, i);
      ReversedAt(s, |s| - 1 - i);
    }
  }

  /** `reverse`: swaps the halves in place. */
  method Reverse<T>(a: array<T>)
    modifies a
    ensures a[..] == Reversed(old(a[..]))
  {
    ghost var s := a[..];
    var i := 0;
    while i < a.Length / 2
      invariant 0 <= i <= a.Length / 2
      invariant forall k :: 0 <= k < i ==> a[k] == s[a.Length - 1 - k] && a[a.Length - 1 - k] == s[k]
      invariant forall k :: i <= k < a.Length - i ==> a[k] == s[k]
    {
      var temp := a[a.Length - 1 - i];
      a[a.Length - 1 - i] := a[i];
      a[i] := temp;
      i := i + 1;
    }
    forall k | 0 <= k < a.Length
      ensures a[k] == Reversed(s)[k]
    {
      ReversedAt(s, k);
    }
  }

  /** A rectangle as its top-left and bottom-right corners after
    * normalisation. */
  datatype Rect = Rect(left: int, top: int, right: int, bottom: int)

  function Normalised(x0: int, y0: int, x1: int, y1: int): (r: Rect)
    ensures r.left <= r.right && r.top <= r.bottom
    ensures {r.left, r.right} == {x0, x1} && {r.top, r.bottom} == {y0, y1}
  {
    Rect(Min(x0, x1), Min(y0, y1), Max(x0, x1), Max(y0, y1))
  }

  /** The overlap test of `box_box_p`: on each axis each rectangle starts
    * strictly before the other ends, so rectangles that only touch along an
    * edge do not overlap. */
  predicate Overlap(a: Rect, b: Rect)
  {
    a.top < b.bottom && b.top < a.bottom && a.left < b.right && b.left < a.right
  }

  predicate Inside(a: Rect, b: Rect)
  {
    b.left <= a.left && a.right <= b.right && b.top <= a.top && a.bottom <= b.bottom
  }

  /** `box_box_p`: the overlap of the two rectangles as
    * [left, top, right, bottom], or [] when they do not overlap. */
  function BoxBox(ax0: int, ay0: int, ax1: int, ay1: int,
                  bx0: int, by0: int, bx1: int, by1: int): (r: seq<int>)
    ensures var a := Normalised(ax0, ay0, ax1, ay1);
            var b := Normalised(bx0, by0, bx1, by1);
            (r == [] <==> !Overlap(a, b)) &&
            (r != [] ==>
               (|r| == 4 && r[0] <= r[2] && r[1] <= r[3] &&
                Inside(Rect(r[0], r[1], r[2], r[3]), a) && Inside(Rect(r[0], r[1], r[2], r[3]), b)))
  {
    var topA := Min(ay0, ay1);
    var botA := Max(ay0, ay1);
    var leftA := Min(ax0, ax1);
    var rightA := Max(ax0, ax1);
    var topB := Min(by0, by1);
    var botB := Max(by0, by1);
    var leftB := Min(bx0, bx1);
    var rightB := Max(bx0, bx1);
    if botA <= topB || botB <= topA || rightA <= leftB || rightB <= leftA then
      []
    else
      var leftO := if leftA < leftB then leftB else leftA;
      var rightO := if rightA > rightB then rightB else rightA;
      var botO := if botA > botB then botB else botA;
      var topO := if topA < topB then topB else topA;
      [leftO, topO, rightO, botO]
  }

  /** Two rectangles of positive area that overlap give an overlap of
    * positive area; a zero-width or zero-height rectangle strictly inside
    * the other's span is reported as overlapping with zero area. */
  lemma BoxBoxPositiveArea(ax0: int, ay0: int, ax1: int, ay1: int,
                           bx0: int, by0: int, bx1: int, by1: int)
    requires ax0 != ax1 && ay0 != ay1 && bx0 != bx1 && by0 != by1
    ensures var r := BoxBox(ax0, ay0, ax1, ay1, bx0, by0, bx1, by1);
            r != [] ==> r[0] < r[2] && r[1] < r[3]
  {
  }

  /** The overlap is the largest rectangle inside both: any rectangle
    * inside both is inside the overlap. */
  lemma BoxBoxLargest(ax0: int, ay0: int, ax1: int, ay1: int,
                      bx0: int, by0: int, bx1: int, by1: int, c: Rect)
    requires Inside(c, Normalised(ax0, ay0, ax1, ay1)) && Inside(c, Normalised(bx0, by0, bx1, by1))
    requires c.left < c.right && c.top < c.bottom
    ensures var r := BoxBox(ax0, ay0, ax1, ay1, bx0, by0, bx1, by1);
            r != [] && Inside(c, Rect(r[0], r[1], r[2], r[3]))
  {
  }

  /** Swapping the two rectangles gives the same overlap. */
  lemma BoxBoxSymmetric(ax0: int, ay0: int, ax1: int, ay1: int,
                        bx0: int, by0: int, bx1: int, by1: int)
    ensures BoxBox(ax0, ay0, ax1, ay1, bx0, by0, bx1, by1)
         == BoxBox(bx0, by0, bx1, by1, ax0, ay0, ax1, ay1)
  {
  }
}
