/**
 * Shapes3D's AbstractPath: what every path shares. A path maps t in
 * [0, 1] to a point; its default tangent is the normalised chord across
 * one degree of t either side; its orthogonal is found by an orthogonal
 * calculator chosen once per path and then reused.
 *
 * Paths are values here and `point` is passed as a function. The
 * calculator chosen by `PathOrthogonal.getBest` and the orthogonal it
 * returns are not part of this model: the calculator is an opaque value
 * the caller supplies.
 */
module AbstractPath {

  import opened Vectors

  const DefaultNbrSlices: int := 100

  /** The default `tangent`: the chord from point(t - ONE_DEG_T) to
    * point(t + ONE_DEG_T), normalised. */
  function Tangent(mx: Maths, point: real -> PVec, t: real): (r: PVec)
    ensures var chord := Sub(point(t + OneDegT), point(t - OneDegT));
            (chord == Zero ==> r == Zero) &&
            (0.0 < mx.sqrt(Dot(chord, chord)) ==> exists k :: 0.0 < k && r == Scale(chord, k))
  {
    Normalize(mx, Sub(point(t + OneDegT), point(t - OneDegT)))
  }

  /** The orthogonal the ring and the spiral use: the tangent turned a
    * quarter turn about the y axis. */
  function Orthogonal(tangent: PVec): (r: PVec)
    ensures r.y == 0.0
    ensures Dot(r, tangent) == 0.0
    ensures tangent.y == 0.0 ==> Dot(r, r) == Dot(tangent, tangent)
  {
    PVec(-tangent.z, 0.0, tangent.x)
  }

  /** An orthogonal calculator, identified by the value `getBest` returns. */
  datatype OrthoCalculator = OrthoCalculator(id: nat)

  /** The state an AbstractPath holds: its slice count, whether it is open,
    * and the calculator once it has been chosen. */
  class PathState {
    const nbrSlices: int
    const pathIsOpen: bool
    var orthoCalculator: Option<OrthoCalculator>
    /** How many times `getBest` has run for this path. */
    ghost var bestCalls: nat

    ghost predicate Valid()
      reads this
    {
      bestCalls <= 1 && (orthoCalculator.None? <==> bestCalls == 0)
    }

    /** `AbstractPath()`: 100 slices, an open path, no calculator yet. */
    constructor Default()
      ensures Valid() && bestCalls == 0
      ensures nbrSlices == DefaultNbrSlices && pathIsOpen
      ensures orthoCalculator == None
    {
      nbrSlices := DefaultNbrSlices;
      pathIsOpen := true;
      orthoCalculator := None;
      bestCalls := 0;
    }

    /** `AbstractPath(nbrSlices)`, with the openness a subclass sets. */
    constructor (nbrSlices: int, pathIsOpen: bool)
      ensures Valid() && bestCalls == 0
      ensures this.nbrSlices == nbrSlices && this.pathIsOpen == pathIsOpen
      ensures orthoCalculator == None
    {
      this.nbrSlices := nbrSlices;
      this.pathIsOpen := pathIsOpen;
      orthoCalculator := None;
      bestCalls := 0;
    }

    /** `orthogonal(t)`: choose the calculator (`best`) only if none has
      * been chosen, and use the stored one. */
    method OrthogonalCalculator(best: OrthoCalculator) returns (used: OrthoCalculator)
      requires Valid()
      modifies this`orthoCalculator, this`bestCalls
      ensures Valid() && orthoCalculator == Some(used)
      ensures old(orthoCalculator).Some? ==> used == old(orthoCalculator).value && bestCalls == old(bestCalls)
      ensures old(orthoCalculator).None? ==> used == best && bestCalls == 1
    {
      if orthoCalculator.None? {
        orthoCalculator := Some(best);
        bestCalls := bestCalls + 1;
      }
      used := orthoCalculator.value;
    }
  }

  /** However many times `orthogonal` is asked, the calculator is chosen
    * once and every later call uses the first choice. */
  method OrthogonalTwice(p: PathState, best1: OrthoCalculator, best2: OrthoCalculator)
    returns (used1: OrthoCalculator, used2: OrthoCalculator)
    requires p.Valid() && p.orthoCalculator.None?
    modifies p
    ensures p.Valid() && p.bestCalls == 1
    ensures used1 == best1 && used2 == best1
  {
    used1 := p.OrthogonalCalculator(best1);
    used2 := p.OrthogonalCalculator(best2);
  }
}
