/**
 * The sphere environment of the haptic hand's thumb
 * (hand_virtual_environment.c).
 *
 * A sphere of radius 50 mm centred at (0, 0, 35) mm pushes the thumb tip
 * outwards with a spring of stiffness K. The force becomes the torques of
 * motors 1 to 3 through the thumb's Jacobian (applied untransposed), and a
 * torque that is not a number is not sent to its motor.
 *
 * The thumb position and its Jacobian come from the delta-thumb kinematics
 * and the stiffness K_DELTA_THUMB from a header, none of which is part of
 * this model: all three are parameters. The distance is a square root and
 * is passed in with the requirement that it is the non-negative root.
 */
module HandEnv {

  import Motors

  const SphereX: real := 0.0
  const SphereY: real := 0.0
  const SphereZ: real := 35.0
  const SphereRadius: real := 50.0

  datatype Vec3 = Vec3(x: real, y: real, z: real)

  /** A double that is a number or NaN. Infinities are not modelled: the
    * only one the sphere law can form, K·R/0, is multiplied by a zero
    * offset at once and becomes NaN. */
  datatype Double = Num(v: real) | NaN

  function Mul(a: Double, b: Double): (r: Double)
    ensures r.Num? <==> a.Num? && b.Num?
  {
    if a.Num? && b.Num? then Num(a.v * b.v) else NaN
  }

  function Add(a: Double, b: Double): (r: Double)
    ensures r.Num? <==> a.Num? && b.Num?
  {
    if a.Num? && b.Num? then Num(a.v + b.v) else NaN
  }

  /** The thumb tip relative to the sphere's centre, in mm. */
  function Diff(p: Vec3): Vec3
  {
    Vec3(p.x - SphereX, p.y - SphereY, p.z - SphereZ)
  }

  function SquaredDistance(p: Vec3): (s: real)
    ensures s >= 0.0
  {
    var d := Diff(p);
    d.x * d.x + d.y * d.y + d.z * d.z
  }

  /** `sphereDistance`: `d` is the Euclidean distance from `p` to the
    * sphere's centre. */
  predicate IsSphereDistance(p: Vec3, d: real)
  {
    d >= 0.0 && d * d == SquaredDistance(p)
  }

  /** The distance is determined by the position. */
  lemma {:induction false} SphereDistanceUnique(p: Vec3, d1: real, d2: real)
    requires IsSphereDistance(p, d1) && IsSphereDistance(p, d2)
    ensures d1 == d2
  {
    if d1 < d2 {
      SquareIncreasing(d1, d2);
    } else if d2 < d1 {
      SquareIncreasing(d2, d1);
    }
  }

  /** Among non-negative numbers, comparing two and comparing their squares
    * agree. */
  lemma SquareIncreasing(a: real, b: real)
    requires 0.0 <= a && 0.0 <= b
    ensures a < b <==> a * a < b * b
  {
    if a < b {
      var c := a * b;
      assert a * a <= c;
      assert c < b * b;
    } else {
      var c := a * b;
      assert b * b <= c;
      assert c <= a * a;
    }
  }

  /** The force on the thumb at `p` (mm) whose distance is `distMm`: zero
    * outside the sphere, K·(R - d)/d times the offset inside, with R and d
    * in metres and the offset converted to metres. At the centre itself
    * the coefficient is infinite and the force NaN. */
  function ThumbForce(p: Vec3, distMm: real, k: real): (f: (Double, Double, Double))
    ensures distMm >= SphereRadius ==> f == (Num(0.0), Num(0.0), Num(0.0))
    ensures distMm == 0.0 ==> f == (NaN, NaN, NaN)
  {
    var dist := distMm / 1000.0;
    if dist < SphereRadius / 1000.0 then
      if dist == 0.0 then (NaN, NaN, NaN)
      else
        var coeff := k * ((SphereRadius / 1000.0) - dist) / dist;
        (Num(coeff * (p.x - SphereX) / 1000.0), Num(coeff * (p.y - SphereY) / 1000.0),
         Num(coeff * (p.z - SphereZ) / 1000.0))
    else
      (Num(0.0), Num(0.0), Num(0.0))
  }

  /** Inside the sphere and off its centre the force is a number, points
    * away from the centre with magnitude K·(R - d) in SI units: its
    * projection on the offset (in m) is K·(R - d)·d. */
  lemma {:induction false} ThumbForceLaw(p: Vec3, distMm: real, k: real)
    requires IsSphereDistance(p, distMm) && 0.0 < distMm < SphereRadius
    ensures var f := ThumbForce(p, distMm, k);
      f.0.Num? && f.1.Num? && f.2.Num? &&
      f.0.v * (Diff(p).x / 1000.0) + f.1.v * (Diff(p).y / 1000.0) + f.2.v * (Diff(p).z / 1000.0)
        == k * (SphereRadius / 1000.0 - distMm / 1000.0) * (distMm / 1000.0)
  {
    var dist := distMm / 1000.0;
    var coeff := k * ((SphereRadius / 1000.0) - dist) / dist;
    var d := Diff(p);
    var f := ThumbForce(p, distMm, k);
    assert f.0.v == coeff * (d.x / 1000.0) && f.1.v == coeff * (d.y / 1000.0) && f.2.v == coeff * (d.z / 1000.0);
    calc {
      f.0.v * (d.x / 1000.0) + f.1.v * (d.y / 1000.0) + f.2.v * (d.z / 1000.0);
      coeff * ((d.x / 1000.0) * (d.x / 1000.0) + (d.y / 1000.0) * (d.y / 1000.0) + (d.z / 1000.0) * (d.z / 1000.0));
      coeff * ((d.x * d.x + d.y * d.y + d.z * d.z) / 1000000.0);
      coeff * ((distMm * distMm) / 1000000.0);
      coeff * (dist * dist);
      (coeff * dist) * dist;
      { assert coeff * dist == k * ((SphereRadius / 1000.0) - dist); }
      k * (SphereRadius / 1000.0 - dist) * dist;
    }
  }

  /** A 3×3 Jacobian of doubles, row by row. */
  datatype Jacobian3 = Jacobian3(j11: Double, j12: Double, j13: Double,
                                 j21: Double, j22: Double, j23: Double,
                                 j31: Double, j32: Double, j33: Double)

  function Row(a: Double, b: Double, c: Double, f: (Double, Double, Double)): Double
  {
    Add(Add(Mul(a, f.0), Mul(b, f.1)), Mul(c, f.2))
  }

  /** Torque = J·F, with the Jacobian not transposed. */
  function ThumbTorque(j: Jacobian3, f: (Double, Double, Double)): (t: (Double, Double, Double))
    ensures t.0 == Row(j.j11, j.j12, j.j13, f)
    ensures t.1 == Row(j.j21, j.j22, j.j23, f)
    ensures t.2 == Row(j.j31, j.j32, j.j33, f)
  {
    (Row(j.j11, j.j12, j.j13, f), Row(j.j21, j.j22, j.j23, f), Row(j.j31, j.j32, j.j33, f))
  }

  /** A torque is a number exactly when its Jacobian row and the force are;
    * in particular a thumb at the sphere's centre sends no torque. */
  lemma TorqueIsNumber(a: Double, b: Double, c: Double, f: (Double, Double, Double))
    ensures Row(a, b, c, f).Num? <==> a.Num? && b.Num? && c.Num? && f.0.Num? && f.1.Num? && f.2.Num?
  {
  }

  /** `renderOutsideSphere` on the motor outputs. */
  class Thumb {
    const outputs: Motors.Outputs

    constructor (outputs: Motors.Outputs)
      ensures this.outputs == outputs
    {
      this.outputs := outputs;
    }

    /** Drive motor `m` with torque `t` unless `t` is NaN. */
    method OutputIfNumber(m: int, t: Double)
      requires outputs.Valid() && Motors.IsMotor(m)
      modifies outputs`level, outputs`dutyPrint
      modifies outputs.tim3`ccr1, outputs.tim3`ccr2, outputs.tim3`ccr3, outputs.tim3`ccr4
      modifies outputs.tim4`ccr1, outputs.tim4`ccr2, outputs.tim4`ccr3
      ensures outputs.Valid()
      ensures t.Num? ==> outputs.Compare(m) == Motors.TorqueCompare(t.v)
      ensures t.NaN? ==> outputs.Compare(m) == old(outputs.Compare(m)) && outputs.level == old(outputs.level)
      ensures forall n :: Motors.IsMotor(n) && n != m ==> outputs.Compare(n) == old(outputs.Compare(n))
    {
      if t.Num? {
        outputs.OutputTorque(m, t.v);
      }
    }

    /** The thumb at `p` (mm), at distance `distMm` from the sphere's
      * centre, with Jacobian `j` and stiffness `k`. */
    method RenderOutsideSphere(p: Vec3, distMm: real, k: real, j: Jacobian3)
      returns (torque: (Double, Double, Double))
      requires outputs.Valid() && IsSphereDistance(p, distMm)
      modifies outputs`level, outputs`dutyPrint
      modifies outputs.tim3`ccr1, outputs.tim3`ccr2, outputs.tim3`ccr3, outputs.tim3`ccr4
      modifies outputs.tim4`ccr1, outputs.tim4`ccr2, outputs.tim4`ccr3
      ensures outputs.Valid()
      ensures torque == ThumbTorque(j, ThumbForce(p, distMm, k))
      ensures torque.0.Num? ==> outputs.Compare(1) == Motors.TorqueCompare(torque.0.v)
      ensures torque.0.NaN? ==> outputs.Compare(1) == old(outputs.Compare(1))
      ensures torque.1.Num? ==> outputs.Compare(2) == Motors.TorqueCompare(torque.1.v)
      ensures torque.1.NaN? ==> outputs.Compare(2) == old(outputs.Compare(2))
      ensures torque.2.Num? ==> outputs.Compare(3) == Motors.TorqueCompare(torque.2.v)
      ensures torque.2.NaN? ==> outputs.Compare(3) == old(outputs.Compare(3))
    {
      var force := ThumbForce(p, distMm, k);
      torque := ThumbTorque(j, force);
      OutputIfNumber(1, torque.0);
      OutputIfNumber(2, torque.1);
      OutputIfNumber(3, torque.2);
    }
  }
}
