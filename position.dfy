/**
 * Positions of the Haplink handle and of the two finger devices of the
 * haptic hand (haplink_position.c).
 *
 * Encoder counts become motor angles in radians, motor angles become paddle
 * angles through the capstan ratios, and the paddle angles of a finger give
 * the position of its tip and the Jacobian of the two-link mechanism.
 * Lengths are in mm, angles in radians. The sine and cosine of the link
 * angles are supplied by the caller as a `Trig` record or as functions.
 */
module Position {

  /** The value of pi the firmware uses. */
  const Pi: real := 3.1416

  /** TOTAL_ENCODER_COUNTS_N, counts per motor revolution. */
  const CountsPerRev: real := 48.0

  const LA: real := 65.0    // L_A, length of link a
  const LB: real := 55.0    // L_B, length of link b
  const RA: real := 35.0    // R_A, radius of sector a
  const RB: real := 59.0    // R_B, radius of sector b
  const RHA: real := 59.0   // R_HA, radius of the 1-DOF handle
  const RMA: real := 5.5    // R_MA, radius of motor a's capstan
  const RMB: real := 5.5    // R_MB, radius of motor b's capstan
  const CX: real := 0.0
  const CY: real := 0.0

  /** DELTATHETA_A_1 and DELTATHETA_B_1 of finger 1; finger 2 has equal
    * values under its own names. */
  const DeltaA: real := 1.5708
  const DeltaB: real := -1.10935

  // ---------------------------------------------------------------------
  // Counts and angles
  // ---------------------------------------------------------------------

  /** `calculatePositionMotorN`: counts · 2 · 3.1416 / 48. */
  function Radians(counts: int): (rad: real)
    ensures rad * CountsPerRev == counts as real * 2.0 * Pi
  {
    counts as real * 2.0 * Pi / CountsPerRev
  }

  /** The conversion is linear: it adds, negates, and one revolution of
    * 48 counts is 2·3.1416. */
  lemma RadiansLinear(a: int, b: int)
    ensures Radians(a + b) == Radians(a) + Radians(b)
    ensures Radians(-a) == -Radians(a)
    ensures Radians(48) == 2.0 * Pi
  {
  }

  /** The degree getters: rad · 180 / 3.1416. */
  function Degrees(rad: real): (deg: real)
    ensures deg * Pi == rad * 180.0
  {
    rad * 180.0 / Pi
  }

  /** In degrees, one count is exactly 7.5°: the 3.1416 of both
    * conversions cancels. */
  lemma DegreesOfCounts(counts: int)
    ensures Degrees(Radians(counts)) == 7.5 * counts as real
  {
    calc {
      Degrees(Radians(counts));
      Radians(counts) * 180.0 / Pi;
      (counts as real * 2.0 * Pi / CountsPerRev) * 180.0 / Pi;
      counts as real * 7.5;
    }
  }

  // ---------------------------------------------------------------------
  // The 1-DOF handle
  // ---------------------------------------------------------------------

  /** `calculatePosition1DOF`: the paddle angle from the motor angle. */
  function HandleAngle(thetaMa: real): real
  {
    -thetaMa * RMA / RA
  }

  /** `calculatePosition1DOF`: the arc length of the handle, in mm. */
  function HandlePosition(thetaA: real): real
  {
    -RHA * thetaA
  }

  /** The handle position is the motor angle times RHA·RMA/RA, and the
    * motor angle is recovered from it. */
  lemma HandleGain(thetaMa: real)
    ensures HandlePosition(HandleAngle(thetaMa)) == thetaMa * (RHA * RMA / RA)
    ensures HandlePosition(HandleAngle(thetaMa)) * RA / (RHA * RMA) == thetaMa
  {
  }

  // ---------------------------------------------------------------------
  // Finger linkage
  // ---------------------------------------------------------------------

  /** The paddle angle a from motor a's angle and the starting offset. */
  function PaddleA(thetaMa: real, offsetA: real): real
  {
    -RMA / RA * thetaMa + offsetA
  }

  /** The paddle angle b, coupled to paddle a through sector b. */
  function PaddleB(thetaMb: real, thetaA: real, offsetB: real): real
  {
    -RMA / RA * thetaMb + (RMB / RB) * thetaA + offsetB
  }

  /** The linkage maps are invertible: the motor angles are recovered from
    * the paddle angles. */
  lemma PaddleInverse(thetaMa: real, thetaMb: real, offsetA: real, offsetB: real)
    ensures (PaddleA(thetaMa, offsetA) - offsetA) * -(RA / RMA) == thetaMa
    ensures var a := PaddleA(thetaMa, offsetA);
      (PaddleB(thetaMb, a, offsetB) - (RMB / RB) * a - offsetB) * -(RA / RMA) == thetaMb
  {
  }

  /** Sines and cosines of the angle a~ = a + DeltaA and of a~ + b~. */
  datatype Trig = Trig(sinA: real, cosA: real, sinAB: real, cosAB: real)

  datatype Point = Point(x: real, y: real)

  /** The 2×2 Jacobian J00 J01 / J10 J11 of a finger. */
  datatype Jacobian = Jacobian(j00: real, j01: real, j10: real, j11: real)

  /** The elbow (px, py), the end of link a. */
  function Elbow(t: Trig): Point
  {
    Point(-LA * t.sinA + CX, LA * t.cosA + CY)
  }

  /** The fingertip (rx, ry) as `calculatePositionAndJacobianFingerN`
    * computes it: link b at angle a~ + b~ from the elbow. */
  function Tip(t: Trig): Point
  {
    var p := Elbow(t);
    Point(-LB * t.sinAB + p.x, LB * t.cosAB + p.y)
  }

  /** The fingertip as `initPositionAndJacobianFingerN` computes it: the
    * y-component of link b has the opposite sign. */
  function InitTipAsWritten(t: Trig): (r: Point)
    ensures r.x == Tip(t).x
    ensures r.y == Tip(t).y - 2.0 * LB * t.cosAB
  {
    var p := Elbow(t);
    Point(-LB * t.sinAB + p.x, -LB * t.cosAB + p.y)
  }

  /** `calculatePositionAndJacobianFingerN`: the Jacobian. */
  function JacobianOf(t: Trig): Jacobian
  {
    Jacobian(-LB * t.cosAB - LA * t.cosA, -LB * t.cosAB,
             -LB * t.sinAB - LA * t.sinA, -LB * t.sinAB)
  }

  function Dot(u: Point, v: Point): real
  {
    u.x * v.x + u.y * v.y
  }

  /** The Jacobian is the velocity of the tip of `Tip`: its second column,
    * the tip's velocity when only b turns, is perpendicular to link b. */
  lemma JacobianTurnsLinkB(t: Trig)
    ensures var r := Tip(t); var p := Elbow(t); var j := JacobianOf(t);
      Dot(Point(r.x - p.x, r.y - p.y), Point(j.j01, j.j11)) == 0.0
  {
    var j := JacobianOf(t);
    assert Point(Tip(t).x - Elbow(t).x, Tip(t).y - Elbow(t).y) == Point(-LB * t.sinAB, LB * t.cosAB);
    calc {
      (-LB * t.sinAB) * j.j01 + (LB * t.cosAB) * j.j11;
      (-LB * t.sinAB) * (-LB * t.cosAB) + (LB * t.cosAB) * (-LB * t.sinAB);
      LB * LB * (t.sinAB * t.cosAB) - LB * LB * (t.cosAB * t.sinAB);
      0.0;
    }
  }

  /** Its first column, the velocity when a turns and b keeps its angle to
    * a, is perpendicular to the line from the centre (CX, CY) to the tip. */
  lemma JacobianTurnsLinkA(t: Trig)
    ensures var r := Tip(t); var j := JacobianOf(t);
      Dot(Point(r.x - CX, r.y - CY), Point(j.j00, j.j10)) == 0.0
  {
    var u := -LA * t.sinA - LB * t.sinAB;
    var v := LA * t.cosA + LB * t.cosAB;
    assert Tip(t).x - CX == u && Tip(t).y - CY == v;
    assert JacobianOf(t).j00 == -v && JacobianOf(t).j10 == u;
    calc {
      u * -v + v * u;
      -(u * v) + v * u;
      { assert u * v == v * u; }
      0.0;
    }
  }

  /** With the sign of `initPositionAndJacobianFingerN`, link b is no
    * longer perpendicular to the Jacobian's second column wherever
    * sin(a~+b~)·cos(a~+b~) is non-zero. */
  lemma InitTipNotTurnedByJacobian(t: Trig)
    requires t.sinAB * t.cosAB != 0.0
    ensures var r := InitTipAsWritten(t); var p := Elbow(t); var j := JacobianOf(t);
      Dot(Point(r.x - p.x, r.y - p.y), Point(j.j01, j.j11)) != 0.0
  {
    var j := JacobianOf(t);
    assert Point(InitTipAsWritten(t).x - Elbow(t).x, InitTipAsWritten(t).y - Elbow(t).y)
      == Point(-LB * t.sinAB, -LB * t.cosAB);
    calc {
      (-LB * t.sinAB) * j.j01 + (-LB * t.cosAB) * j.j11;
      (-LB * t.sinAB) * (-LB * t.cosAB) + (-LB * t.cosAB) * (-LB * t.sinAB);
      2.0 * LB * LB * (t.sinAB * t.cosAB);
    }
  }

  /** As written, the tip stored by the init differs from the tip the first
    * update computes from the same counts whenever cos(a~+b~) != 0. */
  lemma InitDisagreesWithUpdate(t: Trig)
    requires t.cosAB != 0.0
    ensures InitTipAsWritten(t) != Tip(t)
  {
  }

  /** The trigonometric values at paddle angles a and b. */
  function TrigAt(thetaA: real, thetaB: real, sin: real -> real, cos: real -> real): Trig
  {
    var ta := thetaA + DeltaA;
    var tb := thetaB + DeltaB;
    Trig(sin(ta), cos(ta), sin(ta + tb), cos(ta + tb))
  }

  // ---------------------------------------------------------------------
  // Finger state
  // ---------------------------------------------------------------------

  /** The position variables of one finger (finger 1 on motors 4 and 5,
    * finger 2 on motors 6 and 7, whose motor angles are negated). */
  class Finger {
    const negated: bool
    const offsetA: real    // THETA_A_OFFSET_RAD
    const offsetB: real    // THETA_B_OFFSET_RAD
    var thetaMa: real
    var thetaMb: real
    var thetaA: real
    var thetaB: real
    var rx: real
    var ry: real
    var rxPrev: real
    var ryPrev: real
    var jac: Jacobian

    /** The motor angle of counts `c` on this finger. */
    function MotorAngle(c: int): real
    {
      if negated then -Radians(c) else Radians(c)
    }

    /** `initHapticHand` zeroes the finger's position variables. */
    constructor (negated: bool, offsetA: real, offsetB: real)
      ensures this.negated == negated && this.offsetA == offsetA && this.offsetB == offsetB
      ensures rx == 0.0 && ry == 0.0 && rxPrev == 0.0 && ryPrev == 0.0
      ensures jac == Jacobian(0.0, 0.0, 0.0, 0.0)
    {
      this.negated := negated;
      this.offsetA := offsetA;
      this.offsetB := offsetB;
      thetaMa, thetaMb, thetaA, thetaB := 0.0, 0.0, 0.0, 0.0;
      rx, ry, rxPrev, ryPrev := 0.0, 0.0, 0.0, 0.0;
      jac := Jacobian(0.0, 0.0, 0.0, 0.0);
    }

    /** The motor and paddle angles from the counts of the finger's motors. */
    method Angles(countsA: int, countsB: int)
      modifies this`thetaMa, this`thetaMb, this`thetaA, this`thetaB
      ensures thetaMa == MotorAngle(countsA) && thetaMb == MotorAngle(countsB)
      ensures thetaA == PaddleA(thetaMa, offsetA)
      ensures thetaB == PaddleB(thetaMb, thetaA, offsetB)
    {
      if negated {
        thetaMa := -Radians(countsA);
        thetaMb := -Radians(countsB);
      } else {
        thetaMa := Radians(countsA);
        thetaMb := Radians(countsB);
      }
      thetaA := -RMA / RA * thetaMa + offsetA;
      thetaB := -RMA / RA * thetaMb + (RMB / RB) * thetaA + offsetB;
    }

    /** `initPositionAndJacobianFingerN`, with the tip computed as the
      * update computes it; the previous position is the current one. */
    method Init(countsA: int, countsB: int, sin: real -> real, cos: real -> real)
      modifies this`thetaMa, this`thetaMb, this`thetaA, this`thetaB
      modifies this`rx, this`ry, this`rxPrev, this`ryPrev
      ensures thetaMa == MotorAngle(countsA) && thetaMb == MotorAngle(countsB)
      ensures thetaA == PaddleA(thetaMa, offsetA) && thetaB == PaddleB(thetaMb, thetaA, offsetB)
      ensures Point(rx, ry) == Tip(TrigAt(thetaA, thetaB, sin, cos))
      ensures rxPrev == rx && ryPrev == ry
    {
      Angles(countsA, countsB);
      var t := TrigAt(thetaA, thetaB, sin, cos);
      var px := -LA * t.sinA + CX;
      var py := LA * t.cosA + CY;
      rx := -LB * t.sinAB + px;
      ry := LB * t.cosAB + py;
      rxPrev := rx;
      ryPrev := ry;
    }

    /** `calculatePositionAndJacobianFingerN`. */
    method Calculate(countsA: int, countsB: int, sin: real -> real, cos: real -> real)
      modifies this`thetaMa, this`thetaMb, this`thetaA, this`thetaB
      modifies this`rx, this`ry, this`jac
      ensures thetaMa == MotorAngle(countsA) && thetaMb == MotorAngle(countsB)
      ensures thetaA == PaddleA(thetaMa, offsetA) && thetaB == PaddleB(thetaMb, thetaA, offsetB)
      ensures Point(rx, ry) == Tip(TrigAt(thetaA, thetaB, sin, cos))
      ensures jac == JacobianOf(TrigAt(thetaA, thetaB, sin, cos))
    {
      Angles(countsA, countsB);
      var t := TrigAt(thetaA, thetaB, sin, cos);
      var px := -LA * t.sinA + CX;
      var py := LA * t.cosA + CY;
      rx := -LB * t.sinAB + px;
      ry := LB * t.cosAB + py;
      jac := Jacobian(-LB * t.cosAB - LA * t.cosA, -LB * t.cosAB,
                      -LB * t.sinAB - LA * t.sinA, -LB * t.sinAB);
    }

    /** `getThetaAN_deg` and `getThetaBN_deg`. */
    function PaddleDegrees(): (d: (real, real))
      reads this
      ensures d.0 * Pi == thetaA * 180.0 && d.1 * Pi == thetaB * 180.0
    {
      (Degrees(thetaA), Degrees(thetaB))
    }
  }

  /** After the init, an update from the same counts finds the finger where
    * the init left it: no spurious first displacement. */
  method InitThenCalculate(f: Finger, countsA: int, countsB: int, sin: real -> real, cos: real -> real)
    modifies f
    ensures f.rx == f.rxPrev && f.ry == f.ryPrev
  {
    f.Init(countsA, countsB, sin, cos);
    f.Calculate(countsA, countsB, sin, cos);
  }

  /** The mirrored finger: finger 2, whose motor angles are negated, turned
    * by the opposite counts of finger 1 with the same offsets, has finger
    * 1's motor angles and so the paddle angles `Angles` gives finger 1. */
  lemma MirroredFingers(f1: Finger, f2: Finger, countsA: int, countsB: int)
    requires !f1.negated && f2.negated
    requires f1.offsetA == f2.offsetA && f1.offsetB == f2.offsetB
    ensures f2.MotorAngle(-countsA) == f1.MotorAngle(countsA)
    ensures f2.MotorAngle(-countsB) == f1.MotorAngle(countsB)
    ensures var a := PaddleA(f1.MotorAngle(countsA), f1.offsetA);
      PaddleA(f2.MotorAngle(-countsA), f2.offsetA) == a &&
      PaddleB(f2.MotorAngle(-countsB), a, f2.offsetB) == PaddleB(f1.MotorAngle(countsB), a, f1.offsetB)
  {
  }

  /** The 1-DOF handle (`calculatePosition1DOF`). */
  class Handle {
    var thetaMa: real
    var thetaA: real
    var xH: real

    constructor ()
      ensures thetaMa == 0.0 && thetaA == 0.0 && xH == 0.0
    {
      thetaMa, thetaA, xH := 0.0, 0.0, 0.0;
    }

    method Calculate1Dof(counts: int)
      modifies this
      ensures thetaMa == Radians(counts)
      ensures thetaA == HandleAngle(thetaMa) && xH == HandlePosition(thetaA)
    {
      thetaMa := Radians(counts);
      thetaA := -thetaMa * RMA / RA;
      xH := -RHA * thetaA;
    }

    /** `getThetaADeg` and `getTheta_maDeg`. */
    function AngleDegrees(): (d: (real, real))
      reads this
      ensures d.0 * Pi == thetaA * 180.0 && d.1 * Pi == thetaMa * 180.0
    {
      (Degrees(thetaA), Degrees(thetaMa))
    }
  }
}
