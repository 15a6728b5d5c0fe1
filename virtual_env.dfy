/**
 * The 2-DOF virtual environments of Haplink (haplink_virtual_environments.c).
 *
 * `renderOutsideCircle2DOF_*` renders a stiff circle of radius 30 mm that
 * the user explores from the outside: inside it a spring pushes the user
 * away from the centre with a force proportional to the penetration. The
 * force (in N) becomes joint torques through the transpose of the linkage
 * Jacobian, and those become motor torques through the capstan ratios.
 * The handle variant drives motors 1 and 2, the finger variants motors 4
 * and 5 (finger 1, circle centred at x = +40 mm) and motors 6 and 7
 * (finger 2, centred at x = -40 mm).
 *
 * The distance `dr` is a square root; it is passed in with the requirement
 * that it is the non-negative root of the squared distance.
 */
module VirtualEnv {

  import Motors
  import Position

  type Point = Position.Point
  type Jacobian = Position.Jacobian

  /** The spring constant k of the circle, in N/m. */
  const Stiffness: real := 100.0

  /** The circle's radius R, 30 mm in metres. */
  const Radius: real := 0.03

  /** The pair of motors a variant drives. */
  datatype Pair = M1M2 | M4M5 | M6M7

  function MotorsOf(pair: Pair): (m: (int, int))
    ensures Motors.IsMotor(m.0) && Motors.IsMotor(m.1) && m.0 != m.1
  {
    match pair
    case M1M2 => (1, 2)
    case M4M5 => (4, 5)
    case M6M7 => (6, 7)
  }

  /** The circle's centre in metres: (±40 mm, 80 mm). */
  function CentreOf(pair: Pair): (c: Point)
    ensures c.y == 0.08
    ensures c.x == if pair == M6M7 then -0.04 else 0.04
  {
    if pair == M6M7 then Position.Point(-0.04, 0.08) else Position.Point(0.04, 0.08)
  }

  /** The user's position relative to the centre, the millimetres of the
    * position module converted to metres. */
  function Offset(pair: Pair, rxMm: real, ryMm: real): Point
  {
    var c := CentreOf(pair);
    Position.Point(rxMm / 1000.0 - c.x, ryMm / 1000.0 - c.y)
  }

  /** `dr` is the length of `r`. */
  predicate IsLength(r: Point, dr: real)
  {
    dr >= 0.0 && dr * dr == r.x * r.x + r.y * r.y
  }

  /** The spring force at offset `r` of length `dr`; `r / dr` is formed
    * before the test, so `dr` may not be zero. */
  function SpringForce(r: Point, dr: real): (f: Point)
    requires dr != 0.0
    ensures dr >= Radius ==> f == Position.Point(0.0, 0.0)
  {
    var hatX := (1.0 / dr) * r.x;
    var hatY := (1.0 / dr) * r.y;
    if dr < Radius then
      Position.Point(Stiffness * (Radius - dr) * hatX, Stiffness * (Radius - dr) * hatY)
    else
      Position.Point(0.0, 0.0)
  }

  /** Inside the circle the force has magnitude k·(R - dr) and points away
    * from the centre: its projection on `r` is k·(R - dr)·dr > 0. */
  lemma {:induction false} SpringForceLaw(r: Point, dr: real)
    requires IsLength(r, dr) && 0.0 < dr < Radius
    ensures var f := SpringForce(r, dr);
      Position.Dot(f, f) == (Stiffness * (Radius - dr)) * (Stiffness * (Radius - dr))
    ensures Position.Dot(SpringForce(r, dr), r) == Stiffness * (Radius - dr) * dr > 0.0
  {
    var c := Stiffness * (Radius - dr) / dr;
    var f := SpringForce(r, dr);
    assert f.x == c * r.x && f.y == c * r.y;
    calc {
      Position.Dot(f, f);
      (c * r.x) * (c * r.x) + (c * r.y) * (c * r.y);
      c * c * (r.x * r.x + r.y * r.y);
      c * c * (dr * dr);
      (c * dr) * (c * dr);
      { assert c * dr == Stiffness * (Radius - dr); }
      (Stiffness * (Radius - dr)) * (Stiffness * (Radius - dr));
    }
    calc {
      Position.Dot(f, r);
      (c * r.x) * r.x + (c * r.y) * r.y;
      c * (r.x * r.x + r.y * r.y);
      c * (dr * dr);
      (c * dr) * dr;
      { assert c * dr == Stiffness * (Radius - dr); }
      Stiffness * (Radius - dr) * dr;
    }
    assert Stiffness * (Radius - dr) > 0.0;
  }

  /** The two finger circles are mirror images: finger 2 at (-x, y) feels
    * the mirror image of the force on finger 1 at (x, y). */
  lemma MirroredCircles(rxMm: real, ryMm: real, dr: real)
    requires dr != 0.0
    ensures var f1 := SpringForce(Offset(M4M5, rxMm, ryMm), dr);
      var f2 := SpringForce(Offset(M6M7, -rxMm, ryMm), dr);
      f2.x == -f1.x && f2.y == f1.y
  {
    var r1 := Offset(M4M5, rxMm, ryMm);
    var r2 := Offset(M6M7, -rxMm, ryMm);
    assert r2.x == -r1.x && r2.y == r1.y;
  }

  /** Joint torques: 0.001 times the transposed Jacobian applied to the
    * force (the Jacobian is in mm per radian, the force in N). */
  function JointTorque(j: Jacobian, f: Point): Point
  {
    Position.Point((j.j00 * f.x + j.j10 * f.y) * 0.001, (j.j01 * f.x + j.j11 * f.y) * 0.001)
  }

  /** The transpose is the one that does no work: joint torques times joint
    * velocities equal the force times the tip velocity the Jacobian gives,
    * in N·m. */
  lemma JointTorqueIsTranspose(j: Jacobian, f: Point, da: real, db: real)
    ensures var t := JointTorque(j, f);
      t.x * da + t.y * db
        == 0.001 * Position.Dot(f, Position.Point(j.j00 * da + j.j01 * db, j.j10 * da + j.j11 * db))
  {
    var t := JointTorque(j, f);
    calc {
      t.x * da + t.y * db;
      (j.j00 * f.x + j.j10 * f.y) * 0.001 * da + (j.j01 * f.x + j.j11 * f.y) * 0.001 * db;
      0.001 * (f.x * (j.j00 * da) + f.y * (j.j10 * da) + f.x * (j.j01 * db) + f.y * (j.j11 * db));
      0.001 * (f.x * (j.j00 * da + j.j01 * db) + f.y * (j.j10 * da + j.j11 * db));
    }
  }

  /** The motor torques: the joint torques through the capstan ratios,
    * negated. */
  function MotorTorque(t: Point): Point
  {
    Position.Point(-((t.x * Position.RMA) / Position.RA), -((t.y * Position.RMB) / Position.RB))
  }

  /** The joint torques are recovered from the motor torques. */
  lemma MotorTorqueInverse(t: Point)
    ensures var m := MotorTorque(t);
      -m.x * Position.RA / Position.RMA == t.x && -m.y * Position.RB / Position.RMB == t.y
  {
  }

  /** The force computation of `renderOutsideCircle2DOF_*`: offset from
    * the centre in metres, unit vector, spring force inside the circle. */
  method CircleForce(pair: Pair, rxMm: real, ryMm: real, dr: real) returns (f: Point)
    requires dr != 0.0
    ensures f == SpringForce(Offset(pair, rxMm, ryMm), dr)
  {
    var c := CentreOf(pair);
    var xUser := rxMm / 1000.0;
    var yUser := ryMm / 1000.0;
    var rX := xUser - c.x;
    var rY := yUser - c.y;
    var hatX := (1.0 / dr) * rX;
    var hatY := (1.0 / dr) * rY;
    if dr < Radius {
      f := Position.Point(Stiffness * (Radius - dr) * hatX, Stiffness * (Radius - dr) * hatY);
    } else {
      f := Position.Point(0.0, 0.0);
    }
  }

  /** The force, torques and motor outputs of the 2-DOF environments. */
  class Environment {
    const outputs: Motors.Outputs
    var force: Point
    var torque: Point
    var torqueMotor: map<int, real>

    constructor (outputs: Motors.Outputs)
      ensures this.outputs == outputs
      ensures force == Position.Point(0.0, 0.0) && torque == Position.Point(0.0, 0.0)
      ensures torqueMotor == map[]
    {
      this.outputs := outputs;
      force := Position.Point(0.0, 0.0);
      torque := Position.Point(0.0, 0.0);
      torqueMotor := map[];
    }

    /** Joint torques from the force held in `force`, motor torques from
      * those, and both motors of the pair driven with them. */
    method ApplyForce(pair: Pair, jac: Jacobian)
      requires outputs.Valid()
      modifies this`torque, this`torqueMotor
      modifies outputs`level, outputs`dutyPrint
      modifies outputs.tim3`ccr1, outputs.tim3`ccr2, outputs.tim3`ccr3, outputs.tim3`ccr4
      modifies outputs.tim4`ccr1, outputs.tim4`ccr2, outputs.tim4`ccr3
      ensures outputs.Valid()
      ensures torque == JointTorque(jac, force)
      ensures var m := MotorTorque(torque);
        torqueMotor == old(torqueMotor)[MotorsOf(pair).0 := m.x][MotorsOf(pair).1 := m.y]
      ensures var m := MotorTorque(torque);
        outputs.Compare(MotorsOf(pair).0) == Motors.TorqueCompare(m.x) &&
        outputs.Compare(MotorsOf(pair).1) == Motors.TorqueCompare(m.y)
      ensures var m := MotorTorque(torque);
        outputs.level == Motors.Drive(Motors.Drive(old(outputs.level), MotorsOf(pair).0, m.x < 0.0),
                                      MotorsOf(pair).1, m.y < 0.0)
      ensures forall n :: Motors.IsMotor(n) && n != MotorsOf(pair).0 && n != MotorsOf(pair).1 ==>
        outputs.Compare(n) == old(outputs.Compare(n))
    {
      torque := JointTorque(jac, force);
      var m := MotorTorque(torque);
      var a := MotorsOf(pair).0;
      var b := MotorsOf(pair).1;
      torqueMotor := torqueMotor[a := m.x][b := m.y];
      outputs.OutputTorquePair(a, b, m.x, m.y);
    }

    /** `renderOutsideCircle2DOF_M1M2`, `_M4M5` and `_M6M7`, given the
      * position (rx, ry) in mm and the Jacobian of the handle, of finger 1
      * or of finger 2. */
    method RenderOutsideCircle(pair: Pair, rxMm: real, ryMm: real, jac: Jacobian, dr: real)
      requires outputs.Valid()
      requires IsLength(Offset(pair, rxMm, ryMm), dr) && dr != 0.0
      modifies this`force, this`torque, this`torqueMotor
      modifies outputs`level, outputs`dutyPrint
      modifies outputs.tim3`ccr1, outputs.tim3`ccr2, outputs.tim3`ccr3, outputs.tim3`ccr4
      modifies outputs.tim4`ccr1, outputs.tim4`ccr2, outputs.tim4`ccr3
      ensures outputs.Valid()
      ensures force == SpringForce(Offset(pair, rxMm, ryMm), dr)
      ensures torque == JointTorque(jac, force)
      ensures var m := MotorTorque(torque);
        torqueMotor == old(torqueMotor)[MotorsOf(pair).0 := m.x][MotorsOf(pair).1 := m.y]
      ensures var m := MotorTorque(torque);
        outputs.Compare(MotorsOf(pair).0) == Motors.TorqueCompare(m.x) &&
        outputs.Compare(MotorsOf(pair).1) == Motors.TorqueCompare(m.y)
      ensures var m := MotorTorque(torque);
        outputs.level == Motors.Drive(Motors.Drive(old(outputs.level), MotorsOf(pair).0, m.x < 0.0),
                                      MotorsOf(pair).1, m.y < 0.0)
      ensures forall n :: Motors.IsMotor(n) && n != MotorsOf(pair).0 && n != MotorsOf(pair).1 ==>
        outputs.Compare(n) == old(outputs.Compare(n))
    {
      var f := CircleForce(pair, rxMm, ryMm, dr);
      force := f;
      ApplyForce(pair, jac);
    }

    /** `renderOutsideCircleFinger1`/`Finger2` and `renderOutsideBox2DOF`:
      * templates whose force stays zero; the box returns its contact flag,
      * which is never set. */
    method RenderZeroForce(pair: Pair, jac: Jacobian) returns (contact: int)
      requires outputs.Valid()
      modifies this`force, this`torque, this`torqueMotor
      modifies outputs`level, outputs`dutyPrint
      modifies outputs.tim3`ccr1, outputs.tim3`ccr2, outputs.tim3`ccr3, outputs.tim3`ccr4
      modifies outputs.tim4`ccr1, outputs.tim4`ccr2, outputs.tim4`ccr3
      ensures outputs.Valid()
      ensures force == Position.Point(0.0, 0.0) && torque == Position.Point(0.0, 0.0)
      ensures torqueMotor == old(torqueMotor)[MotorsOf(pair).0 := 0.0][MotorsOf(pair).1 := 0.0]
      ensures outputs.Compare(MotorsOf(pair).0) == 0 && outputs.Compare(MotorsOf(pair).1) == 0
      ensures outputs.level == Motors.Drive(Motors.Drive(old(outputs.level), MotorsOf(pair).0, false),
                                            MotorsOf(pair).1, false)
      ensures forall n :: Motors.IsMotor(n) && n != MotorsOf(pair).0 && n != MotorsOf(pair).1 ==>
        outputs.Compare(n) == old(outputs.Compare(n))
      ensures contact == 0
    {
      force := Position.Point(0.0, 0.0);
      ApplyForce(pair, jac);
      contact := 0;
    }
  }
}
