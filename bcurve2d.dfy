/**
 * Shapes3D's BCurve2D: a Bezier curve in the x-y plane given by `degree`
 * control points (the library calls the number of control points the
 * degree). The control points live in the arrays px and py; pxi, pyi and b
 * are scratch arrays of the same length that `point` and `bCoefficients`
 * overwrite.
 *
 * As written, `removeCtrlPoints` accepts last == degree, and then its first
 * copy loop writes past the end of the new arrays; the class below accepts
 * only last < degree. As written, `length(t0, t1, steps)` steps the
 * parameter by 1/(steps - 1) from the smaller end, so it measures the
 * curve from t0 to t0 + 1 whatever t1 is; the class below steps by
 * (t1 - t0)/(steps - 1). Both as-written versions are kept beside the
 * corrected ones.
 */
module BezierCurve {

  import opened Vectors

  /** `PApplet.constrain` on ints. */
  function Constrain(v: int, lo: int, hi: int): (c: int)
    ensures lo <= hi ==> lo <= c <= hi
    ensures lo <= v <= hi ==> c == v
  {
    if v < lo then lo else if v > hi then hi else v
  }

  /** `PApplet.constrain` on floats. */
  function ConstrainReal(v: real, lo: real, hi: real): (c: real)
    ensures lo <= hi ==> lo <= c <= hi
    ensures lo <= v <= hi ==> c == v
  {
    if v < lo then lo else if v > hi then hi else v
  }

  function Min(a: int, b: int): int
  {
    if a < b then a else b
  }

  /** `ins` placed before position pos of `s`. */
  function Inserted<T>(s: seq<T>, ins: seq<T>, pos: int): (r: seq<T>)
    requires 0 <= pos <= |s|
    ensures |r| == |s| + |ins|
  {
    s[..pos] + ins + s[pos..]
  }

  /** `s` without the entries first..last. */
  function Removed<T>(s: seq<T>, first: int, last: int): (r: seq<T>)
    requires 0 <= first <= last < |s|
    ensures |r| == |s| - 1 + first - last
  {
    s[..first] + s[last + 1..]
  }

  /** Removing what was inserted gives the original points back. */
  lemma {:induction false} RemoveInserted<T>(s: seq<T>, ins: seq<T>, pos: int)
    requires 0 <= pos <= |s| && 1 <= |ins|
    ensures Removed(Inserted(s, ins, pos), pos, pos + |ins| - 1) == s
  {
    var r := Inserted(s, ins, pos);
    assert r[..pos] == s[..pos];
    assert r[pos + |ins|..] == s[pos..];
  }

  /** Column k of a list of rows. */
  function Column(rows: seq<seq<real>>, k: int): (c: seq<real>)
    requires 0 <= k && forall i :: 0 <= i < |rows| ==> k < |rows[i]|
    ensures |c| == |rows| && forall i :: 0 <= i < |rows| ==> c[i] == rows[i][k]
  {
    seq(|rows|, i requires 0 <= i < |rows| => rows[i][k])
  }

  /** The number of points left after removing first..last. */
  function NewDegree(degree: int, first: int, last: int): int
  {
    degree - 1 + first - last
  }

  /** The test `removeCtrlPoints` makes before removing, as written. */
  predicate RemoveGuardAsWritten(degree: int, first: int, last: int)
  {
    last >= first && first >= 0 && last <= degree && NewDegree(degree, first, last) >= 2
  }

  /** The test with last inside the array. */
  predicate RemoveGuard(degree: int, first: int, last: int)
  {
    last >= first && first >= 0 && last < degree && NewDegree(degree, first, last) >= 2
  }

  /** The as-written test lets degree 5, first 3, last 5 through. The new
    * arrays then hold 2 points, but the first copy loop writes the 3
    * points before `first`. */
  lemma AsWrittenGuardOverruns()
    ensures RemoveGuardAsWritten(5, 3, 5) && !RemoveGuard(5, 3, 5)
    ensures NewDegree(5, 3, 5) < 3
  {
  }

  /** Every input the as-written test admits beyond the corrected one has
    * more points before `first` than the new arrays hold. */
  lemma {:induction false} AsWrittenExtraInputsOverrun(degree: int, first: int, last: int)
    requires RemoveGuardAsWritten(degree, first, last) && !RemoveGuard(degree, first, last)
    ensures last == degree && first > NewDegree(degree, first, last)
  {
  }

  /** Under the corrected test both copy loops stay inside the new arrays
    * and fill them. */
  lemma {:induction false} GuardFits(degree: int, first: int, last: int)
    requires RemoveGuard(degree, first, last)
    ensures first <= NewDegree(degree, first, last)
    ensures first + (degree - (last + 1)) == NewDegree(degree, first, last)
    ensures 2 <= NewDegree(degree, first, last) < degree
  {
  }

  /** Inserting points and removing them again passes the corrected test
    * whenever the curve had at least two points. */
  lemma {:induction false} InsertThenRemoveAllowed(degree: int, nbrPts: int, pos: int)
    requires 2 <= degree && 1 <= nbrPts && 0 <= pos <= degree
    ensures RemoveGuard(degree + nbrPts, pos, pos + nbrPts - 1)
    ensures NewDegree(degree + nbrPts, pos, pos + nbrPts - 1) == degree
  {
  }

  /** The point a fraction t of the way from a to b. */
  function Lerp(a: real, b: real, t: real): real
  {
    (1.0 - t) * a + t * b
  }

  lemma {:induction false} LerpAdd(a: real, b: real, c: real, d: real, t: real)
    ensures Lerp(a, b, t) + Lerp(c, d, t) == Lerp(a + c, b + d, t)
  {
    assert (1.0 - t) * a + (1.0 - t) * c == (1.0 - t) * (a + c);
    assert t * b + t * d == t * (b + d);
  }

  lemma {:induction false} LerpSame(a: real, t: real)
    ensures Lerp(a, a, t) == a
  {
    assert (1.0 - t) * a + t * a == a;
  }

  /** One round of De Casteljau's construction: each pair of neighbours
    * replaced by the point a fraction t between them. */
  function Step(ps: seq<real>, t: real): (r: seq<real>)
    requires 1 <= |ps|
    ensures |r| == |ps| - 1
  {
    seq(|ps| - 1, i requires 0 <= i < |ps| - 1 => Lerp(ps[i], ps[i + 1], t))
  }

  /** The Bezier curve of control values `ps` at t (one coordinate). */
  function Bezier(ps: seq<real>, t: real): real
    requires 1 <= |ps|
    decreases |ps|
  {
    if |ps| == 1 then ps[0] else Bezier(Step(ps, t), t)
  }

  /** The curve starts at its first control point. */
  lemma {:induction false} BezierAtZero(ps: seq<real>)
    requires 1 <= |ps|
    ensures Bezier(ps, 0.0) == ps[0]
    decreases |ps|
  {
    if |ps| > 1 {
      var s := Step(ps, 0.0);
      assert s[0] == ps[0];
      BezierAtZero(s);
    }
  }

  /** The curve ends at its last control point. */
  lemma {:induction false} BezierAtOne(ps: seq<real>)
    requires 1 <= |ps|
    ensures Bezier(ps, 1.0) == ps[|ps| - 1]
    decreases |ps|
  {
    if |ps| > 1 {
      var s := Step(ps, 1.0);
      assert s[|s| - 1] == ps[|ps| - 1];
      BezierAtOne(s);
    }
  }

  /** The Bernstein polynomial B(j, i) at t, by its recurrence; it is zero
    * outside 0 <= i <= j. */
  function Bernstein(j: nat, i: int, t: real): (r: real)
    ensures (i < 0 || i > j) ==> r == 0.0
  {
    if j == 0 then (if i == 0 then 1.0 else 0.0)
    else Lerp(Bernstein(j - 1, i, t), Bernstein(j - 1, i - 1, t), t)
  }

  /** B(j, 0) + ... + B(j, n - 1). */
  function BernsteinSum(j: nat, n: nat, t: real): real
  {
    if n == 0 then 0.0 else BernsteinSum(j, n - 1, t) + Bernstein(j, n - 1, t)
  }

  lemma {:induction false} BernsteinSumSplit(j: nat, n: nat, t: real)
    requires 1 <= j && 1 <= n
    ensures BernsteinSum(j, n, t) == Lerp(BernsteinSum(j - 1, n, t), BernsteinSum(j - 1, n - 1, t), t)
  {
    if n == 1 {
      assert BernsteinSum(j - 1, 1, t) == Bernstein(j - 1, 0, t);
      assert BernsteinSum(j, 1, t) == Bernstein(j, 0, t);
    } else {
      BernsteinSumSplit(j, n - 1, t);
      LerpAdd(BernsteinSum(j - 1, n - 1, t), BernsteinSum(j - 1, n - 2, t),
              Bernstein(j - 1, n - 1, t), Bernstein(j - 1, n - 2, t), t);
    }
  }

  /** The weights `bCoefficients` computes add up to one for every t. */
  lemma {:induction false} PartitionOfUnity(j: nat, t: real)
    ensures BernsteinSum(j, j + 1, t) == 1.0
  {
    if j > 0 {
      PartitionOfUnity(j - 1, t);
      BernsteinSumSplit(j, j + 1, t);
      assert BernsteinSum(j - 1, j + 1, t) == BernsteinSum(j - 1, j, t);
      LerpSame(BernsteinSum(j - 1, j, t), t);
    }
  }

  /** The parameters t0, t0 + dt, ..., t0 + (n - 1)·dt. */
  function Samples(t0: real, dt: real, n: nat): (ts: seq<real>)
    ensures |ts| == n
  {
    seq(n, i => t0 + i as real * dt)
  }

  /** The curve's points at the parameters ts. */
  function CurvePoints(xs: seq<real>, ys: seq<real>, ts: seq<real>): (ps: seq<PVec>)
    requires 1 <= |xs| && 1 <= |ys|
    ensures |ps| == |ts|
  {
    seq(|ts|, i requires 0 <= i < |ts| => Of2(Bezier(xs, ts[i]), Bezier(ys, ts[i])))
  }

  /** The length of the polyline through ps. */
  function Polyline(mx: Maths, ps: seq<PVec>): real
  {
    if |ps| < 2 then 0.0 else Polyline(mx, ps[..|ps| - 1]) + Dist(mx, ps[|ps| - 2], ps[|ps| - 1])
  }

  /** A polyline is never shorter than 0. */
  lemma {:induction false} PolylineNonNegative(mx: Maths, ps: seq<PVec>)
    requires Sound(mx)
    ensures 0.0 <= Polyline(mx, ps)
  {
    if |ps| >= 2 {
      PolylineNonNegative(mx, ps[..|ps| - 1]);
      DistNonNegative(mx, ps[|ps| - 2], ps[|ps| - 1]);
    }
  }

  /** A polyline that stays at one point has length 0. */
  lemma {:induction false} PolylineConstant(mx: Maths, ps: seq<PVec>)
    requires Sound(mx) && forall i :: 0 <= i < |ps| ==> ps[i] == ps[0]
    ensures Polyline(mx, ps) == 0.0
  {
    if |ps| >= 2 {
      PolylineConstant(mx, ps[..|ps| - 1]);
      assert ps[|ps| - 2] == ps[|ps| - 1] == ps[0];
      DistToSelf(mx, ps[0]);
    }
  }

  /** `length(steps)`: the polyline through steps equally spaced points
    * of the whole curve; 0 for steps <= 1. */
  function CurveLength(mx: Maths, xs: seq<real>, ys: seq<real>, steps: int): real
    requires 1 <= |xs| && 1 <= |ys|
  {
    if steps > 1 then Polyline(mx, CurvePoints(xs, ys, Samples(0.0, 1.0 / (steps - 1) as real, steps))) else 0.0
  }

  /** With two steps the length is the straight distance from the first
    * control point to the last. */
  lemma {:induction false} TwoStepLength(mx: Maths, xs: seq<real>, ys: seq<real>)
    requires 1 <= |xs| && 1 <= |ys|
    ensures CurveLength(mx, xs, ys, 2) == Dist(mx, Of2(xs[0], ys[0]), Of2(xs[|xs| - 1], ys[|ys| - 1]))
  {
    var ts := Samples(0.0, 1.0 / (2 - 1) as real, 2);
    assert ts[0] == 0.0 && ts[1] == 1.0;
    BezierAtZero(xs);
    BezierAtZero(ys);
    BezierAtOne(xs);
    BezierAtOne(ys);
    var ps := CurvePoints(xs, ys, ts);
    assert ps[0] == Of2(xs[0], ys[0]) && ps[1] == Of2(xs[|xs| - 1], ys[|ys| - 1]);
    assert Polyline(mx, ps[..1]) == 0.0;
    assert Polyline(mx, ps) == Dist(mx, ps[0], ps[1]);
  }

  /** The parameters `length(t0, t1, steps)` samples, as written: from the
    * smaller clamped end in steps of 1/(steps - 1). */
  function SectionSamplesAsWritten(t0: real, t1: real, steps: int): seq<real>
    requires steps > 1
  {
    var a := ConstrainReal(t0, 0.0, 1.0);
    var b := ConstrainReal(t1, 0.0, 1.0);
    Samples(if a <= b then a else b, 1.0 / (steps - 1) as real, steps)
  }

  /** As written the last sample is a whole parameter unit past the first,
    * whatever t1 is: with t0 = t1 = 0.5 and two steps it measures from
    * t = 0.5 to t = 1.5 instead of returning 0. */
  lemma {:induction false} SectionAsWrittenOvershoots(t0: real, t1: real, steps: int)
    requires steps > 1
    ensures var ts := SectionSamplesAsWritten(t0, t1, steps);
            ts[steps - 1] == ts[0] + 1.0
    ensures SectionSamplesAsWritten(0.5, 0.5, 2) == [0.5, 1.5]
  {
    var ts := SectionSamplesAsWritten(t0, t1, steps);
    var d := 1.0 / (steps - 1) as real;
    assert (steps - 1) as real * d == 1.0;
    assert ts[steps - 1] == ts[0] + (steps - 1) as real * d;
    var us := SectionSamplesAsWritten(0.5, 0.5, 2);
    assert us[0] == 0.5 && us[1] == 1.5;
  }

  /** The parameters of the section between the clamped ends, in steps of
    * (t1 - t0)/(steps - 1). */
  function SectionSamples(t0: real, t1: real, steps: int): seq<real>
    requires steps > 1
  {
    var a := ConstrainReal(t0, 0.0, 1.0);
    var b := ConstrainReal(t1, 0.0, 1.0);
    var lo := if a <= b then a else b;
    var hi := if a <= b then b else a;
    Samples(lo, (hi - lo) / (steps - 1) as real, steps)
  }

  /** Samples from lo in steps of (hi - lo)/(steps - 1) end at hi and
    * stay between lo and hi. */
  lemma {:induction false} SamplesBetween(lo: real, hi: real, steps: int)
    requires lo <= hi && steps > 1
    ensures var ts := Samples(lo, (hi - lo) / (steps - 1) as real, steps);
            ts[0] == lo && ts[steps - 1] == hi &&
            forall i :: 0 <= i < steps ==> lo <= ts[i] <= hi
  {
    var n := (steps - 1) as real;
    var d := (hi - lo) / n;
    var ts := Samples(lo, d, steps);
    assert n * d == hi - lo;
    forall i | 0 <= i < steps
      ensures lo <= ts[i] <= hi
    {
      var e := i as real * d;
      assert ts[i] == lo + e;
      MulMonotone(i as real, n, d);
    }
  }

  /** The corrected samples run from the smaller clamped end to the larger
    * one and stay inside [0, 1]. */
  lemma {:induction false} SectionSamplesSpan(t0: real, t1: real, steps: int)
    requires steps > 1
    ensures var ts := SectionSamples(t0, t1, steps);
            var a := ConstrainReal(t0, 0.0, 1.0);
            var b := ConstrainReal(t1, 0.0, 1.0);
            ts[0] == (if a <= b then a else b) && ts[steps - 1] == (if a <= b then b else a) &&
            forall i :: 0 <= i < steps ==> 0.0 <= ts[i] <= 1.0
  {
    var a := ConstrainReal(t0, 0.0, 1.0);
    var b := ConstrainReal(t1, 0.0, 1.0);
    SamplesBetween(if a <= b then a else b, if a <= b then b else a, steps);
  }

  lemma {:induction false} MulMonotone(a: real, b: real, d: real)
    requires 0.0 <= a <= b && 0.0 <= d
    ensures 0.0 <= a * d <= b * d
  {
    var e := b - a;
    assert b * d == a * d + e * d;
    assert 0.0 <= e * d;
  }

  /** An empty section has length 0. */
  lemma {:induction false} EmptySectionLength(mx: Maths, xs: seq<real>, ys: seq<real>, t: real, steps: int)
    requires Sound(mx) && 1 <= |xs| && 1 <= |ys| && steps > 1
    ensures Polyline(mx, CurvePoints(xs, ys, SectionSamples(t, t, steps))) == 0.0
  {
    var ts := SectionSamples(t, t, steps);
    assert forall i :: 0 <= i < |ts| ==> ts[i] == ts[0];
    PolylineConstant(mx, CurvePoints(xs, ys, ts));
  }

  /** Entry k of `Inserted(s, ins, pos)`. */
  lemma {:induction false} InsertedIndex<T>(s: seq<T>, ins: seq<T>, pos: int, k: int)
    requires 0 <= pos <= |s| && 0 <= k < |s| + |ins|
    ensures Inserted(s, ins, pos)[k] == if k < pos then s[k] else if k < pos + |ins| then ins[k - pos] else s[k - |ins|]
  {
  }

  /** Entry k of `Removed(s, first, last)`. */
  lemma {:induction false} RemovedIndex<T>(s: seq<T>, first: int, last: int, k: int)
    requires 0 <= first <= last < |s| && 0 <= k < |s| - 1 + first - last
    ensures Removed(s, first, last)[k] == if k < first then s[k] else s[k + last + 1 - first]
  {
  }

  /** The copying loops of `insertCtrlPoints`: new arrays with the values
    * xs, ys before position p of px, py. */
  method CopyInserting(px: array<real>, py: array<real>, xs: seq<real>, ys: seq<real>, p: int)
      returns (npx: array<real>, npy: array<real>)
    requires px.Length == py.Length && |xs| == |ys| && 0 <= p <= px.Length
    ensures fresh(npx) && fresh(npy) && npx != npy
    ensures npx[..] == Inserted(px[..], xs, p) && npy[..] == Inserted(py[..], ys, p)
  {
    var degree := px.Length;
    var nbrPts := |xs|;
    ghost var rx := Inserted(px[..], xs, p);
    ghost var ry := Inserted(py[..], ys, p);
    npx := new real[degree + nbrPts];
    npy := new real[degree + nbrPts];
    var src := 0;
    var dst := 0;
    while dst < p
      modifies npx, npy
      invariant 0 <= dst <= p && src == dst
      invariant forall k :: 0 <= k < dst ==> npx[k] == rx[k]
      invariant forall k :: 0 <= k < dst ==> npy[k] == ry[k]
    {
      InsertedIndex(px[..], xs, p, dst);
      InsertedIndex(py[..], ys, p, dst);
      npx[dst] := px[src];
      npy[dst] := py[src];
      src := src + 1;
      dst := dst + 1;
    }
    var newp := 0;
    while newp < nbrPts
      modifies npx, npy
      invariant 0 <= newp <= nbrPts && dst == p + newp && src == p
      invariant forall k :: 0 <= k < dst ==> npx[k] == rx[k]
      invariant forall k :: 0 <= k < dst ==> npy[k] == ry[k]
    {
      InsertedIndex(px[..], xs, p, dst);
      InsertedIndex(py[..], ys, p, dst);
      npx[dst] := xs[newp];
      npy[dst] := ys[newp];
      dst := dst + 1;
      newp := newp + 1;
    }
    var i := 0;
    while i < degree - p
      modifies npx, npy
      invariant 0 <= i <= degree - p && dst == p + nbrPts + i && src == p + i
      invariant forall k :: 0 <= k < dst ==> npx[k] == rx[k]
      invariant forall k :: 0 <= k < dst ==> npy[k] == ry[k]
    {
      InsertedIndex(px[..], xs, p, dst);
      InsertedIndex(py[..], ys, p, dst);
      npx[dst] := px[src];
      npy[dst] := py[src];
      dst := dst + 1;
      src := src + 1;
      i := i + 1;
    }
    assert npx[..] == rx && npy[..] == ry;
  }

  /** The copying loops of `removeCtrlPoints`: new arrays without the
    * entries first..last of px, py. */
  method CopyRemoving(px: array<real>, py: array<real>, first: int, last: int)
      returns (npx: array<real>, npy: array<real>)
    requires px.Length == py.Length && 0 <= first <= last < px.Length
    ensures fresh(npx) && fresh(npy) && npx != npy
    ensures npx[..] == Removed(px[..], first, last) && npy[..] == Removed(py[..], first, last)
  {
    var degree := px.Length;
    ghost var rx := Removed(px[..], first, last);
    ghost var ry := Removed(py[..], first, last);
    npx := new real[degree - 1 + first - last];
    npy := new real[degree - 1 + first - last];
    var dst := 0;
    while dst < first
      modifies npx, npy
      invariant 0 <= dst <= first
      invariant forall k :: 0 <= k < dst ==> npx[k] == rx[k]
      invariant forall k :: 0 <= k < dst ==> npy[k] == ry[k]
    {
      RemovedIndex(px[..], first, last, dst);
      RemovedIndex(py[..], first, last, dst);
      npx[dst] := px[dst];
      npy[dst] := py[dst];
      dst := dst + 1;
    }
    var src := last + 1;
    while src < degree
      modifies npx, npy
      invariant last + 1 <= src <= degree && dst == first + src - (last + 1)
      invariant forall k :: 0 <= k < dst ==> npx[k] == rx[k]
      invariant forall k :: 0 <= k < dst ==> npy[k] == ry[k]
    {
      RemovedIndex(px[..], first, last, dst);
      RemovedIndex(py[..], first, last, dst);
      npx[dst] := px[src];
      npy[dst] := py[src];
      dst := dst + 1;
      src := src + 1;
    }
    assert npx[..] == rx && npy[..] == ry;
  }

  class BCurve2D {
    const nbrSlices: int
    var px: array<real>
    var py: array<real>
    var pxi: array<real>
    var pyi: array<real>
    var b: array<real>
    var degree: int

    /** Five distinct arrays, each with one entry per control point. */
    ghost predicate Valid()
      reads this
    {
      px.Length == degree && py.Length == degree && pxi.Length == degree &&
      pyi.Length == degree && b.Length == degree &&
      px != py && px != pxi && px != pyi && px != b && py != pxi && py != pyi && py != b &&
      pxi != pyi && pxi != b && pyi != b
    }

    /** `BCurve2D(x, y, nbrSlices)`: as many points as the shorter array
      * has, the extra values of the longer one ignored. */
    constructor FromXY(x: seq<real>, y: seq<real>, nbrSlices: int)
      ensures Valid() && this.nbrSlices == nbrSlices
      ensures degree == Min(|x|, |y|)
      ensures px[..] == x[..degree] && py[..] == y[..degree]
      ensures fresh(px) && fresh(py) && fresh(pxi) && fresh(pyi) && fresh(b)
    {
      var d := Min(|x|, |y|);
      var ax := new real[d];
      var ay := new real[d];
      var i := 0;
      while i < d
        invariant 0 <= i <= d
        invariant ax[..i] == x[..i] && ay[..i] == y[..i]
      {
        ax[i] := x[i];
        ay[i] := y[i];
        assert ax[..i + 1] == ax[..i] + [x[i]] && x[..i + 1] == x[..i] + [x[i]];
        assert ay[..i + 1] == ay[..i] + [y[i]] && y[..i + 1] == y[..i] + [y[i]];
        i := i + 1;
      }
      this.nbrSlices := nbrSlices;
      degree := d;
      px := ax;
      py := ay;
      pxi := new real[d];
      pyi := new real[d];
      b := new real[d];
    }

    /** `BCurve2D(points, nbrSlices)` with a PVector array (the List form
      * converts to one): one control point per vector, z ignored. */
    constructor FromPoints(points: seq<PVec>, nbrSlices: int)
      ensures Valid() && this.nbrSlices == nbrSlices && degree == |points|
      ensures forall i :: 0 <= i < degree ==> px[i] == points[i].x && py[i] == points[i].y
      ensures fresh(px) && fresh(py) && fresh(pxi) && fresh(pyi) && fresh(b)
    {
      var d := |points|;
      var ax := new real[d];
      var ay := new real[d];
      var i := 0;
      while i < d
        invariant 0 <= i <= d
        invariant forall k :: 0 <= k < i ==> ax[k] == points[k].x && ay[k] == points[k].y
      {
        ax[i] := points[i].x;
        ay[i] := points[i].y;
        i := i + 1;
      }
      this.nbrSlices := nbrSlices;
      degree := d;
      px := ax;
      py := ay;
      pxi := new real[d];
      pyi := new real[d];
      b := new real[d];
    }

    /** `BCurve2D(float[][] points, nbrSlices)`: one control point per row
      * [x, y]. */
    constructor FromRows(points: seq<seq<real>>, nbrSlices: int)
      requires forall i :: 0 <= i < |points| ==> 2 <= |points[i]|
      ensures Valid() && this.nbrSlices == nbrSlices && degree == |points|
      ensures px[..] == Column(points, 0) && py[..] == Column(points, 1)
      ensures fresh(px) && fresh(py) && fresh(pxi) && fresh(pyi) && fresh(b)
    {
      var d := |points|;
      var ax := new real[d];
      var ay := new real[d];
      var i := 0;
      while i < d
        invariant 0 <= i <= d
        invariant forall k :: 0 <= k < i ==> ax[k] == points[k][0] && ay[k] == points[k][1]
      {
        ax[i] := points[i][0];
        ay[i] := points[i][1];
        i := i + 1;
      }
      this.nbrSlices := nbrSlices;
      degree := d;
      px := ax;
      py := ay;
      pxi := new real[d];
      pyi := new real[d];
      b := new real[d];
    }

    /** `insertCtrlPoints(pts, nbrPts, pos)`: the first nbrPts rows go in
      * before position pos, clamped to [0, degree]. */
    method InsertCtrlPoints(pts: seq<seq<real>>, nbrPts: int, pos: int)
      requires Valid() && 0 <= nbrPts <= |pts|
      requires forall i :: 0 <= i < |pts| ==> 2 <= |pts[i]|
      modifies this
      ensures Valid() && degree == old(degree) + nbrPts
      ensures px[..] == Inserted(old(px[..]), Column(pts[..nbrPts], 0), Constrain(pos, 0, old(degree)))
      ensures py[..] == Inserted(old(py[..]), Column(pts[..nbrPts], 1), Constrain(pos, 0, old(degree)))
      ensures fresh(px) && fresh(py) && fresh(pxi) && fresh(pyi) && fresh(b)
    {
      var p := Constrain(pos, 0, degree);
      var ndegree := degree + nbrPts;
      var xs := Column(pts[..nbrPts], 0);
      var ys := Column(pts[..nbrPts], 1);
      var npx, npy := CopyInserting(px, py, xs, ys, p);
      pxi := new real[ndegree];
      pyi := new real[ndegree];
      b := new real[ndegree];
      px := npx;
      py := npy;
      degree := ndegree;
    }

    /** `insertCtrlPoint(x, y, pos)`: one point before the clamped pos. */
    method InsertCtrlPoint(x: real, y: real, pos: int)
      requires Valid()
      modifies this
      ensures Valid() && degree == old(degree) + 1
      ensures px[..] == Inserted(old(px[..]), [x], Constrain(pos, 0, old(degree)))
      ensures py[..] == Inserted(old(py[..]), [y], Constrain(pos, 0, old(degree)))
    {
      InsertCtrlPoints([[x, y]], 1, pos);
      assert Column([[x, y]][..1], 0) == [x] && Column([[x, y]][..1], 1) == [y];
    }

    /** `insertCtrlPoints(ptsX, ptsY, nbrPts, pos)`: as many points as
      * nbrPts and both arrays allow. A negative nbrPts makes the temporary
      * array's size negative, which Java refuses. */
    method InsertCtrlPointsXY(ptsX: seq<real>, ptsY: seq<real>, nbrPts: int, pos: int)
      requires Valid() && nbrPts >= 0
      modifies this
      ensures Valid() && degree == old(degree) + Min(nbrPts, Min(|ptsX|, |ptsY|))
      ensures var no := Min(nbrPts, Min(|ptsX|, |ptsY|));
              px[..] == Inserted(old(px[..]), ptsX[..no], Constrain(pos, 0, old(degree))) &&
              py[..] == Inserted(old(py[..]), ptsY[..no], Constrain(pos, 0, old(degree)))
    {
      var no := Min(nbrPts, Min(|ptsX|, |ptsY|));
      var temp: seq<seq<real>> := [];
      var i := 0;
      while i < no
        invariant 0 <= i <= no && |temp| == i
        invariant forall k :: 0 <= k < i ==> temp[k] == [ptsX[k], ptsY[k]]
      {
        temp := temp + [[ptsX[i], ptsY[i]]];
        i := i + 1;
      }
      InsertCtrlPoints(temp, no, pos);
      assert Column(temp[..no], 0) == ptsX[..no] && Column(temp[..no], 1) == ptsY[..no];
    }

    /** `insertCtrlPoints(points, nbrPts, pos)`: nbrPts clamped to
      * [0, points.length]; z is ignored. */
    method InsertCtrlPointsOf(points: seq<PVec>, nbrPts: int, pos: int)
      requires Valid()
      modifies this
      ensures Valid() && degree == old(degree) + Constrain(nbrPts, 0, |points|)
      ensures var no := Constrain(nbrPts, 0, |points|);
              |px[..]| == |old(px[..])| + no &&
              forall k :: 0 <= k < no ==>
                (px[Constrain(pos, 0, old(degree)) + k] == points[k].x &&
                 py[Constrain(pos, 0, old(degree)) + k] == points[k].y)
      ensures var no := Constrain(nbrPts, 0, |points|);
              px[..] == Inserted(old(px[..]), seq(no, k requires 0 <= k < no => points[k].x),
                                 Constrain(pos, 0, old(degree))) &&
              py[..] == Inserted(old(py[..]), seq(no, k requires 0 <= k < no => points[k].y),
                                 Constrain(pos, 0, old(degree)))
    {
      var no := Constrain(nbrPts, 0, |points|);
      var temp: seq<seq<real>> := [];
      var i := 0;
      while i < no
        invariant 0 <= i <= no && |temp| == i
        invariant forall k :: 0 <= k < i ==> temp[k] == [points[k].x, points[k].y]
      {
        temp := temp + [[points[i].x, points[i].y]];
        i := i + 1;
      }
      ghost var p := Constrain(pos, 0, degree);
      ghost var oldX := px[..];
      ghost var oldY := py[..];
      InsertCtrlPoints(temp, no, pos);
      assert Column(temp[..no], 0) == seq(no, k requires 0 <= k < no => points[k].x);
      assert Column(temp[..no], 1) == seq(no, k requires 0 <= k < no => points[k].y);
      forall k | 0 <= k < no
        ensures px[p + k] == points[k].x && py[p + k] == points[k].y
      {
        InsertedIndex(oldX, Column(temp[..no], 0), p, p + k);
        InsertedIndex(oldY, Column(temp[..no], 1), p, p + k);
      }
    }

    /** `removeCtrlPoints(first, last)` with last inside the array: on
      * success points first..last are gone; otherwise nothing changes. */
    method RemoveCtrlPoints(first: int, last: int) returns (ok: bool)
      requires Valid()
      modifies this
      ensures Valid()
      ensures ok == RemoveGuard(old(degree), first, last)
      ensures ok ==> degree == NewDegree(old(degree), first, last)
      ensures ok ==> px[..] == Removed(old(px[..]), first, last) && py[..] == Removed(old(py[..]), first, last)
      ensures !ok ==> degree == old(degree) && px == old(px) && py == old(py) && pxi == old(pxi) && pyi == old(pyi) && b == old(b)
    {
      if last >= first && first >= 0 && last < degree && degree - 1 + first - last >= 2 {
        var ndegree := degree - 1 + first - last;
        var npx, npy := CopyRemoving(px, py, first, last);
        pxi := new real[ndegree];
        pyi := new real[ndegree];
        b := new real[ndegree];
        px := npx;
        py := npy;
        degree := ndegree;
        return true;
      }
      return false;
    }

    /** `removeCtrlPoint(point)`: remove that one point. */
    method RemoveCtrlPoint(point: int) returns (ok: bool)
      requires Valid()
      modifies this
      ensures Valid()
      ensures ok <==> 0 <= point < old(degree) && old(degree) >= 3
      ensures ok ==> degree == old(degree) - 1 && px[..] == Removed(old(px[..]), point, point)
      ensures !ok ==> degree == old(degree) && px == old(px) && py == old(py)
    {
      ok := RemoveCtrlPoints(point, point);
    }

    /** `getCtrlPoint(pos)`: the point at pos clamped to [0, degree - 1]. */
    function GetCtrlPoint(pos: int): (p: PVec)
      requires Valid() && degree >= 1
      reads this, px, py
      ensures p.z == 0.0
      ensures 0 <= pos < degree ==> p == Of2(px[pos], py[pos])
      ensures pos < 0 ==> p == Of2(px[0], py[0])
      ensures pos >= degree ==> p == Of2(px[degree - 1], py[degree - 1])
    {
      var c := Constrain(pos, 0, degree - 1);
      Of2(px[c], py[c])
    }

    /** `updateCtrlPoint(x, y, pos)`: only the clamped slot changes, and
      * reading it back gives the new point. */
    method UpdateCtrlPoint(x: real, y: real, pos: int)
      requires Valid() && degree >= 1
      modifies px, py
      ensures px[..] == old(px[..])[Constrain(pos, 0, degree - 1) := x]
      ensures py[..] == old(py[..])[Constrain(pos, 0, degree - 1) := y]
      ensures GetCtrlPoint(pos) == Of2(x, y)
    {
      var c := Constrain(pos, 0, degree - 1);
      px[c] := x;
      py[c] := y;
    }

    /** `updateCtrlPoint(point, pos)`: x and y of the vector. */
    method UpdateCtrlPointTo(point: PVec, pos: int)
      requires Valid() && degree >= 1
      modifies px, py
      ensures px[..] == old(px[..])[Constrain(pos, 0, degree - 1) := point.x]
      ensures py[..] == old(py[..])[Constrain(pos, 0, degree - 1) := point.y]
      ensures GetCtrlPoint(pos) == Of2(point.x, point.y)
    {
      UpdateCtrlPoint(point.x, point.y, pos);
    }

    /** `point(t)`: the curve at t by De Casteljau's construction, worked
      * in place in the scratch arrays. */
    method Point(t: real) returns (p: PVec)
      requires Valid() && degree >= 1
      modifies pxi, pyi
      ensures p == Of2(Bezier(px[..], t), Bezier(py[..], t))
    {
      var t1 := 1.0 - t;
      forall k | 0 <= k < degree {
        pxi[k] := px[k];
      }
      forall k | 0 <= k < degree {
        pyi[k] := py[k];
      }
      assert pxi[..degree] == px[..] && pyi[..degree] == py[..];
      var j := degree - 1;
      while j > 0
        invariant 0 <= j < degree
        invariant Bezier(pxi[..j + 1], t) == Bezier(px[..], t)
        invariant Bezier(pyi[..j + 1], t) == Bezier(py[..], t)
      {
        CasteljauRound(j, t, t1);
        j := j - 1;
      }
      p := Of2(pxi[0], pyi[0]);
    }

    /** One round of `point`'s inner loop: the first j + 1 scratch values
      * become the j values of the next round. */
    method CasteljauRound(j: int, t: real, t1: real)
      requires Valid() && 0 < j < degree && t1 == 1.0 - t
      modifies pxi, pyi
      ensures pxi[..j] == Step(old(pxi[..j + 1]), t)
      ensures pyi[..j] == Step(old(pyi[..j + 1]), t)
    {
      ghost var cx := pxi[..j + 1];
      ghost var cy := pyi[..j + 1];
      var i := 0;
      while i < j
        invariant 0 <= i <= j
        invariant forall k :: 0 <= k < i ==> pxi[k] == Lerp(cx[k], cx[k + 1], t)
        invariant forall k :: i <= k <= j ==> pxi[k] == cx[k]
        invariant forall k :: 0 <= k < i ==> pyi[k] == Lerp(cy[k], cy[k + 1], t)
        invariant forall k :: i <= k <= j ==> pyi[k] == cy[k]
      {
        pxi[i] := t1 * pxi[i] + t * pxi[i + 1];
        pyi[i] := t1 * pyi[i] + t * pyi[i + 1];
        i := i + 1;
      }
    }

    /** `bCoefficients(t)`: b[0] is 0 and b[k] is the Bernstein weight
      * B(degree - 2, k - 1) at t, computed in place. */
    method BCoefficients(t: real)
      requires Valid() && degree >= 2
      modifies b
      ensures b[0] == 0.0
      ensures forall k :: 1 <= k < degree ==> b[k] == Bernstein(degree - 2, k - 1, t)
    {
      var j := 0;
      while j < degree
        invariant 0 <= j <= degree
        invariant forall k :: 0 <= k < j ==> b[k] == 0.0
      {
        b[j] := 0.0;
        j := j + 1;
      }
      b[1] := 1.0;
      j := 1;
      while j < degree - 1
        invariant 1 <= j <= degree - 1
        invariant b[0] == 0.0
        invariant forall k :: 1 <= k < degree ==> b[k] == Bernstein(j - 1, k - 1, t)
      {
        BernsteinRound(j, t);
        j := j + 1;
      }
    }

    /** One round of `bCoefficients`' inner loop, from the last entry down:
      * the weights of degree j - 1 become those of degree j. */
    method BernsteinRound(j: int, t: real)
      requires Valid() && 1 <= j < degree - 1 && b[0] == 0.0
      requires forall k :: 1 <= k < degree ==> b[k] == Bernstein(j - 1, k - 1, t)
      modifies b
      ensures b[0] == 0.0
      ensures forall k :: 1 <= k < degree ==> b[k] == Bernstein(j, k - 1, t)
    {
      var i := j + 1;
      while i > 0
        invariant 0 <= i <= j + 1 && b[0] == 0.0
        invariant forall k :: i < k < degree ==> b[k] == Bernstein(j, k - 1, t)
        invariant forall k :: 1 <= k <= i ==> b[k] == Bernstein(j - 1, k - 1, t)
      {
        b[i] := Lerp(b[i], b[i - 1], t);
        i := i - 1;
      }
    }

    /** `length(steps)`: the polyline through `steps` equally spaced points
      * of the curve, 0 for steps <= 1. */
    method Length(mx: Maths, steps: int) returns (dist: real)
      requires Valid() && degree >= 1
      modifies pxi, pyi
      ensures dist == CurveLength(mx, px[..], py[..], steps)
    {
      dist := 0.0;
      if steps > 1 {
        var deltaT := 1.0 / (steps - 1) as real;
        ghost var ps := CurvePoints(px[..], py[..], Samples(0.0, deltaT, steps));
        var lastPos := Point(0.0);
        assert lastPos == ps[0];
        var s := 1;
        while s < steps
          invariant 1 <= s <= steps
          invariant lastPos == ps[s - 1]
          invariant dist == Polyline(mx, ps[..s])
        {
          var pos := Point(s as real * deltaT);
          assert pos == ps[s];
          assert ps[..s + 1][..s] == ps[..s];
          dist := dist + Dist(mx, lastPos, pos);
          lastPos := pos;
          s := s + 1;
        }
        assert ps[..steps] == ps;
      }
    }

    /** Sampling the points of a section, as `length(t0, t1, steps)` does:
      * the polyline through the curve at the parameters ts. */
    method SectionPolyline(mx: Maths, ts: seq<real>) returns (dist: real)
      requires Valid() && degree >= 1 && |ts| >= 2
      modifies pxi, pyi
      ensures dist == Polyline(mx, CurvePoints(px[..], py[..], ts))
    {
      ghost var ps := CurvePoints(px[..], py[..], ts);
      var points := new PVec[|ts|];
      var i := 0;
      while i < |ts|
        invariant 0 <= i <= |ts|
        invariant forall k :: 0 <= k < i ==> points[k] == ps[k]
      {
        points[i] := Point(ts[i]);
        i := i + 1;
      }
      dist := Dist(mx, points[0], points[1]);
      assert ps[..2][..1] == ps[..1];
      i := 2;
      while i < |ts|
        invariant 2 <= i <= |ts|
        invariant dist == Polyline(mx, ps[..i])
      {
        assert ps[..i + 1][..i] == ps[..i];
        dist := dist + Dist(mx, points[i - 1], points[i]);
        i := i + 1;
      }
      assert ps[..|ts|] == ps;
    }

    /** `length(t0, t1, steps)` as written: after clamping, 0 if the ends
      * agree and -1 otherwise when steps <= 1; with more steps the
      * polyline from the smaller end in steps of 1/(steps - 1). */
    method LengthSectionAsWritten(mx: Maths, t0: real, t1: real, steps: int) returns (dist: real)
      requires Valid() && degree >= 1
      modifies pxi, pyi
      ensures steps <= 1 ==> dist == if ConstrainReal(t0, 0.0, 1.0) == ConstrainReal(t1, 0.0, 1.0) then 0.0 else -1.0
      ensures steps > 1 ==> dist == Polyline(mx, CurvePoints(px[..], py[..], SectionSamplesAsWritten(t0, t1, steps)))
    {
      var a := ConstrainReal(t0, 0.0, 1.0);
      var c := ConstrainReal(t1, 0.0, 1.0);
      dist := if a == c then 0.0 else -1.0;
      if steps > 1 {
        if a > c {
          var temp := a;
          a := c;
          c := temp;
        }
        var deltaT := 1.0 / (steps - 1) as real;
        var ts := Samples(a, deltaT, steps);
        assert ts == SectionSamplesAsWritten(t0, t1, steps);
        dist := SectionPolyline(mx, ts);
      }
    }

    /** `length(t0, t1, steps)` with the step (t1 - t0)/(steps - 1): the
      * polyline through the section between the clamped ends. */
    method LengthSection(mx: Maths, t0: real, t1: real, steps: int) returns (dist: real)
      requires Valid() && degree >= 1
      modifies pxi, pyi
      ensures steps <= 1 ==> dist == if ConstrainReal(t0, 0.0, 1.0) == ConstrainReal(t1, 0.0, 1.0) then 0.0 else -1.0
      ensures steps > 1 ==> dist == Polyline(mx, CurvePoints(px[..], py[..], SectionSamples(t0, t1, steps)))
    {
      var a := ConstrainReal(t0, 0.0, 1.0);
      var c := ConstrainReal(t1, 0.0, 1.0);
      dist := if a == c then 0.0 else -1.0;
      if steps > 1 {
        if a > c {
          var temp := a;
          a := c;
          c := temp;
        }
        var deltaT := (c - a) / (steps - 1) as real;
        var ts := Samples(a, deltaT, steps);
        assert ts == SectionSamples(t0, t1, steps);
        dist := SectionPolyline(mx, ts);
      }
    }
  }
}
