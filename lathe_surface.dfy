/**
 * Shapes3D's LatheSurface: the contour of a lathe shape, a path swept
 * about the y axis from a start angle to an end angle in nbrSegs steps.
 * The constructor brings both angles into one turn and, when the end is
 * not after the start, moves the end on by a full turn, so that the
 * surface always runs forwards and never by more than a turn.
 *
 * As written, `fixAngle` maps into [0, 2π] with both ends included, so a
 * start angle of 2π and an end angle of 0 give an empty sweep; the
 * constructor here uses the half-open range [0, 2π), which keeps the
 * promise. The as-written angle fixing is kept beside it.
 */
module LatheSurface {

  import opened Vectors

  /** `a` turned on by `k` whole turns. */
  function Turned(a: real, k: int): real
  {
    a + k as real * TwoPi
  }

  /** `a` and `b` are the same direction: a whole number of turns apart. */
  ghost predicate SameAngle(a: real, b: real)
  {
    exists k: int :: a == Turned(b, k)
  }

  /** `fixAngle` as written: add or subtract 2π until the angle is in
    * [0, 2π]. An angle of exactly 2π is left as it is. */
  method FixAngleAsWritten(a0: real) returns (a: real)
    ensures 0.0 <= a <= TwoPi
    ensures SameAngle(a, a0)
    ensures 0.0 <= a0 <= TwoPi ==> a == a0
  {
    a := a0;
    ghost var k: int := 0;
    while a < 0.0
      invariant a == Turned(a0, k)
      invariant a0 < 0.0 ==> a < TwoPi
      invariant a0 >= 0.0 ==> a == a0
      decreases (-a / TwoPi).Floor
    {
      a := a + TwoPi;
      k := k + 1;
    }
    while a > TwoPi
      invariant a >= 0.0
      invariant a == Turned(a0, k)
      invariant 0.0 <= a0 <= TwoPi ==> a == a0
      decreases (a / TwoPi).Floor
    {
      a := a - TwoPi;
      k := k - 1;
    }
  }

  /** The angles the constructor stores, with the as-written `fixAngle`.
    * A start of 2π and an end of 0 leave the two equal. */
  method AnglesAsWritten(startAngle0: real, endAngle0: real) returns (startAngle: real, endAngle: real)
    ensures startAngle0 == TwoPi && endAngle0 == 0.0 ==> startAngle == endAngle
  {
    startAngle := FixAngleAsWritten(startAngle0);
    endAngle := FixAngleAsWritten(endAngle0);
    if startAngle >= endAngle {
      endAngle := endAngle + TwoPi;
    }
  }

  /** `fixAngle` bringing the angle into [0, 2π): the same angle, a whole
    * number of turns away. */
  method FixAngle(a0: real) returns (a: real)
    ensures 0.0 <= a < TwoPi
    ensures SameAngle(a, a0)
  {
    a := a0;
    ghost var k: int := 0;
    while a < 0.0
      invariant a == Turned(a0, k)
      invariant a0 < 0.0 ==> a < TwoPi
      invariant a0 >= 0.0 ==> a == a0
      decreases (-a / TwoPi).Floor
    {
      a := a + TwoPi;
      k := k + 1;
    }
    while a >= TwoPi
      invariant a >= 0.0
      invariant a == Turned(a0, k)
      decreases (a / TwoPi).Floor
    {
      a := a - TwoPi;
      k := k - 1;
    }
  }

  class Lathe {
    const nbrSegs: int
    const startAngle: real
    const endAngle: real
    const deltaAngle: real

    /** `LatheSurface(path, nbrSegs, startAngle, endAngle)`: the sweep runs
      * forwards by more than nothing and at most one turn, in nbrSegs equal
      * steps, from an angle in [0, 2π). */
    constructor (nbrSegs: int, startAngle0: real, endAngle0: real)
      requires nbrSegs != 0
      ensures this.nbrSegs == nbrSegs
      ensures 0.0 <= startAngle < TwoPi
      ensures startAngle < endAngle && endAngle - startAngle <= TwoPi
      ensures deltaAngle * nbrSegs as real == endAngle - startAngle
      ensures SameAngle(startAngle, startAngle0)
      ensures SameAngle(endAngle, endAngle0)
    {
      var s := FixAngle(startAngle0);
      var e := FixAngle(endAngle0);
      ghost var k :| e == Turned(endAngle0, k);
      if s >= e {
        e := e + TwoPi;
        assert e == Turned(endAngle0, k + 1);
      }
      this.nbrSegs := nbrSegs;
      startAngle := s;
      endAngle := e;
      deltaAngle := (e - s) / nbrSegs as real;
    }

    /** `LatheSurface(path, nbrSegs)`: the full turn from 0 to 2π. */
    constructor Full(nbrSegs: int)
      requires nbrSegs != 0
      ensures this.nbrSegs == nbrSegs && startAngle == 0.0 && endAngle == TwoPi
      ensures deltaAngle * nbrSegs as real == TwoPi
    {
      var s := FixAngle(0.0);
      var e := FixAngle(TwoPi);
      assert s == 0.0 && e == 0.0 by {
        var j :| s == Turned(0.0, j);
        var k :| e == Turned(TwoPi, k);
        TurnsInOneTurn(j);
        TurnsInOneTurn(k + 1);
      }
      e := e + TwoPi;
      this.nbrSegs := nbrSegs;
      startAngle := s;
      endAngle := e;
      deltaAngle := (e - s) / nbrSegs as real;
    }
  }

  /** The only whole number of turns in [0, 2π) is none. */
  lemma TurnsInOneTurn(k: int)
    requires 0.0 <= k as real * TwoPi < TwoPi
    ensures k == 0
  {
  }
}
