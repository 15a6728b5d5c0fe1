/**
 * The DC motor outputs of Haplink (haplink_motors.c).
 *
 * Motors 1 to 4 are driven by the PWM channels 1 to 4 of TIM3 and motors 5
 * to 7 by the channels 1 to 3 of TIM4; every motor also has a pair of
 * direction pins on the GPIO ports C, D and G. A signed duty cycle or torque
 * picks the direction pin from its sign and drives the PWM channel with its
 * magnitude, clamped to [0, 1] and scaled to the PWM period of 665 ticks.
 *
 * The seven `updateDutyCycleN`, `motorNDirK`, `outputDutyCycleMotorN` and
 * `outputTorqueMotorN` functions of the firmware differ only in the motor
 * they address; each family is one operation here, with the motor number as
 * a parameter. A write to a port's set/reset register is modelled by its
 * effect, the new level of the pin.
 */
module Motors {

  import opened TimParams
  import Tim

  /** PERIOD_PWM, the auto-reload value of both PWM timers. */
  const PeriodPwm: int := 665

  /** The prescaler `initHaplinkMotors` programs into both timers. */
  const Prescaler: bv32 := 4

  /** The calibration from torque (N·m) to duty cycle of `outputTorqueMotorN`. */
  const TorqueToDuty: real := 65.13

  predicate IsMotor(m: int) { 1 <= m <= 7 }

  // ---------------------------------------------------------------------
  // Pin and channel tables
  // ---------------------------------------------------------------------

  datatype Port = PortC | PortD | PortG

  datatype Pin = Pin(port: Port, number: nat)

  /** The pin `motorNDir1` sets (PWMN1_PIN). */
  function Dir1Pin(m: int): Pin
    requires IsMotor(m)
  {
    match m
    case 1 => Pin(PortC, 11)
    case 2 => Pin(PortC, 12)
    case 3 => Pin(PortD, 0)
    case 4 => Pin(PortD, 3)
    case 5 => Pin(PortG, 2)
    case 6 => Pin(PortG, 4)
    case 7 => Pin(PortG, 8)
  }

  /** The pin `motorNDir2` sets (PWMN2_PIN). */
  function Dir2Pin(m: int): Pin
    requires IsMotor(m)
  {
    match m
    case 1 => Pin(PortC, 10)
    case 2 => Pin(PortD, 2)
    case 3 => Pin(PortD, 1)
    case 4 => Pin(PortD, 4)
    case 5 => Pin(PortG, 3)
    case 6 => Pin(PortG, 5)
    case 7 => Pin(PortG, 9)
  }

  /** The fourteen direction pins are pairwise distinct, so driving one
    * motor's pair never touches another motor's pins. */
  lemma DirPinsDistinct(m: int, n: int)
    requires IsMotor(m) && IsMotor(n)
    ensures Dir1Pin(m) != Dir2Pin(n)
    ensures m != n ==> Dir1Pin(m) != Dir1Pin(n) && Dir2Pin(m) != Dir2Pin(n)
  {
  }

  /** A PWM output: a timer and one of its capture/compare channels. */
  datatype Channel = Channel(timer: Periph, index: int)

  /** The output that drives motor `m`. */
  function ChannelOf(m: int): (c: Channel)
    requires IsMotor(m)
    ensures m <= 4 ==> c == Channel(TIM3, m)
    ensures m > 4 ==> c == Channel(TIM4, m - 4)
  {
    if m <= 4 then Channel(TIM3, m) else Channel(TIM4, m - 4)
  }

  /** No two motors share a PWM output. */
  lemma ChannelsDistinct(m: int, n: int)
    requires IsMotor(m) && IsMotor(n) && m != n
    ensures ChannelOf(m) != ChannelOf(n)
  {
  }

  // ---------------------------------------------------------------------
  // Direction pins
  // ---------------------------------------------------------------------

  /** The levels after motor `m` is turned to direction 1 (`dir1`) or to
    * direction 2: one pin of the pair set, the other cleared. */
  function Drive(level: map<Pin, bool>, m: int, dir1: bool): (r: map<Pin, bool>)
    requires IsMotor(m)
    ensures Dir1Pin(m) in r && r[Dir1Pin(m)] == dir1
    ensures Dir2Pin(m) in r && r[Dir2Pin(m)] == !dir1
    ensures r.Keys == level.Keys + {Dir1Pin(m), Dir2Pin(m)}
    ensures forall p :: p in level && p != Dir1Pin(m) && p != Dir2Pin(m) ==> r[p] == level[p]
  {
    DirPinsDistinct(m, m);
    level[Dir1Pin(m) := dir1][Dir2Pin(m) := !dir1]
  }

  /** Every motor's pins are known and at most one of each pair is set. */
  ghost predicate Exclusive(level: map<Pin, bool>)
  {
    forall m :: IsMotor(m) ==>
      Dir1Pin(m) in level && Dir2Pin(m) in level && !(level[Dir1Pin(m)] && level[Dir2Pin(m)])
  }

  /** Turning any motor either way keeps every pair exclusive. */
  lemma {:induction false} DriveKeepsExclusive(level: map<Pin, bool>, m: int, dir1: bool)
    requires IsMotor(m) && Exclusive(level)
    ensures Exclusive(Drive(level, m, dir1))
  {
    var r := Drive(level, m, dir1);
    forall n | IsMotor(n)
      ensures Dir1Pin(n) in r && Dir2Pin(n) in r && !(r[Dir1Pin(n)] && r[Dir2Pin(n)])
    {
      DirPinsDistinct(m, n);
      DirPinsDistinct(n, m);
    }
  }

  /** `turnOffMotorsDirPins`: all fourteen direction pins cleared. */
  function AllOff(level: map<Pin, bool>): (r: map<Pin, bool>)
    ensures forall m :: IsMotor(m) ==> Dir1Pin(m) in r && !r[Dir1Pin(m)] && Dir2Pin(m) in r && !r[Dir2Pin(m)]
    ensures Exclusive(r)
  {
    level[Pin(PortC, 11) := false][Pin(PortC, 10) := false]
         [Pin(PortC, 12) := false][Pin(PortD, 2) := false]
         [Pin(PortD, 0) := false][Pin(PortD, 1) := false]
         [Pin(PortD, 3) := false][Pin(PortD, 4) := false]
         [Pin(PortG, 2) := false][Pin(PortG, 3) := false]
         [Pin(PortG, 4) := false][Pin(PortG, 5) := false]
         [Pin(PortG, 8) := false][Pin(PortG, 9) := false]
  }

  // ---------------------------------------------------------------------
  // Duty cycle
  // ---------------------------------------------------------------------

  /** The clamp of `updateDutyCycleN` to [0, 1]. */
  function Clamp(duty: real): (d: real)
    ensures 0.0 <= d <= 1.0
    ensures 0.0 <= duty <= 1.0 ==> d == duty
    ensures duty > 1.0 ==> d == 1.0
    ensures duty < 0.0 ==> d == 0.0
  {
    if duty > 1.0 then 1.0 else if duty < 0.0 then 0.0 else duty
  }

  /** The compare value `(uint32_t)(duty * PERIOD_PWM)` of the clamped duty;
    * the conversion truncates a non-negative value, that is takes its floor. */
  function CompareValue(duty: real): (v: int)
    ensures 0 <= v <= PeriodPwm
    ensures v == PeriodPwm <==> duty >= 1.0
    ensures v == 0 <==> duty * PeriodPwm as real < 1.0
  {
    (Clamp(duty) * PeriodPwm as real).Floor
  }

  /** A larger duty never gives a smaller compare value. */
  lemma CompareMonotone(a: real, b: real)
    requires a <= b
    ensures CompareValue(a) <= CompareValue(b)
  {
    assert Clamp(a) * PeriodPwm as real <= Clamp(b) * PeriodPwm as real;
  }

  /** The magnitude a signed duty or torque is reduced to. */
  function Magnitude(x: real): (r: real)
    ensures r >= 0.0 && (r == x || r == -x)
  {
    if x < 0.0 then x * -1.0 else x
  }

  /** Direction 1 is chosen exactly for negative commands, and the sign
    * together with the magnitude gives back the command. */
  lemma SignAndMagnitude(x: real)
    ensures (if x < 0.0 then -Magnitude(x) else Magnitude(x)) == x
  {
  }

  /** The duty `outputTorqueMotorN` asks for. */
  function TorqueDuty(torque: real): (d: real)
    ensures d >= 0.0
  {
    Magnitude(torque) * TorqueToDuty
  }

  /** The compare register value `outputTorqueMotorN` writes. */
  function TorqueCompare(torque: real): bv32
  {
    CompareValue(TorqueDuty(torque)) as bv32
  }

  /** The output saturates at the full period exactly when the torque
    * magnitude reaches 1/65.13 N·m, and is off only below 1/(65.13·665). */
  lemma TorqueSaturates(torque: real)
    ensures CompareValue(TorqueDuty(torque)) == PeriodPwm <==> Magnitude(torque) * TorqueToDuty >= 1.0
    ensures CompareValue(TorqueDuty(torque)) == 0 <==> Magnitude(torque) * TorqueToDuty * PeriodPwm as real < 1.0
  {
  }

  /** A timer counts when the counter-enable bit `cen` of its CR1 is set. */
  predicate Counting(cr1: bv32, cen: bv32)
  {
    cr1 & cen == cen
  }

  /** Both PWM timers started. */
  method StartTimers(t3: Tim.Timer, t4: Tim.Timer, cen: bv32)
    requires t3 != t4
    modifies t3`cr1, t4`cr1
    ensures Counting(t3.cr1, cen) && Counting(t4.cr1, cen)
  {
    t3.Cmd(true, cen);
    t4.Cmd(true, cen);
  }

  // ---------------------------------------------------------------------
  // The motor outputs
  // ---------------------------------------------------------------------

  /** The two PWM timers, the direction-pin levels and the `dutyPrintN`
    * debugging values (index m - 1 for motor m). */
  class Outputs {
    const tim3: Tim.Timer
    const tim4: Tim.Timer
    var level: map<Pin, bool>
    var dutyPrint: seq<real>

    ghost predicate Valid()
      reads this
    {
      tim3.kind == TIM3 && tim4.kind == TIM4 && tim3 != tim4 && |dutyPrint| == 7
    }

    /** The compare register that drives motor `m`. */
    function Compare(m: int): bv32
      requires IsMotor(m)
      reads tim3`ccr1, tim3`ccr2, tim3`ccr3, tim3`ccr4, tim4`ccr1, tim4`ccr2, tim4`ccr3
    {
      match m
      case 1 => tim3.ccr1
      case 2 => tim3.ccr2
      case 3 => tim3.ccr3
      case 4 => tim3.ccr4
      case 5 => tim4.ccr1
      case 6 => tim4.ccr2
      case 7 => tim4.ccr3
    }

    constructor ()
      ensures Valid() && fresh(tim3) && fresh(tim4)
      ensures forall m :: IsMotor(m) ==> Compare(m) == 0
      ensures level == map[] && dutyPrint == [0.0, 0.0, 0.0, 0.0, 0.0, 0.0, 0.0]
    {
      tim3 := new Tim.Timer(TIM3);
      tim4 := new Tim.Timer(TIM4);
      level := map[];
      dutyPrint := [0.0, 0.0, 0.0, 0.0, 0.0, 0.0, 0.0];
    }

    /** `motorNDir1` (`dir1`) and `motorNDir2`. */
    method SetDirection(m: int, dir1: bool)
      requires IsMotor(m)
      modifies this`level
      ensures level == Drive(old(level), m, dir1)
      ensures Exclusive(old(level)) ==> Exclusive(level)
    {
      level := level[Dir1Pin(m) := dir1];
      level := level[Dir2Pin(m) := !dir1];
      if Exclusive(old(level)) {
        DriveKeepsExclusive(old(level), m, dir1);
      }
    }

    /** `turnOffMotorsDirPins`. */
    method TurnOffDirPins()
      modifies this`level
      ensures level == AllOff(old(level))
    {
      level := level[Pin(PortC, 11) := false][Pin(PortC, 10) := false];
      level := level[Pin(PortC, 12) := false][Pin(PortD, 2) := false];
      level := level[Pin(PortD, 0) := false][Pin(PortD, 1) := false];
      level := level[Pin(PortD, 3) := false][Pin(PortD, 4) := false];
      level := level[Pin(PortG, 2) := false][Pin(PortG, 3) := false];
      level := level[Pin(PortG, 4) := false][Pin(PortG, 5) := false];
      level := level[Pin(PortG, 8) := false][Pin(PortG, 9) := false];
    }

    /** Write `value` into the compare register of motor `m`. */
    method SetCompare(m: int, value: bv32)
      requires Valid() && IsMotor(m)
      modifies tim3`ccr1, tim3`ccr2, tim3`ccr3, tim3`ccr4, tim4`ccr1, tim4`ccr2, tim4`ccr3
      ensures Compare(m) == value
      ensures forall n :: IsMotor(n) && n != m ==> Compare(n) == old(Compare(n))
    {
      match m
      case 1 => tim3.SetCompare1(value);
      case 2 => tim3.SetCompare2(value);
      case 3 => tim3.SetCompare3(value);
      case 4 => tim3.SetCompare4(value);
      case 5 => tim4.SetCompare1(value);
      case 6 => tim4.SetCompare2(value);
      case 7 => tim4.SetCompare3(value);
    }

    /** `updateDutyCycleN`: clamp, scale to the period, truncate and write
      * the compare register of motor `m`. */
    method UpdateDutyCycle(m: int, newDuty: real)
      requires Valid() && IsMotor(m)
      modifies tim3`ccr1, tim3`ccr2, tim3`ccr3, tim3`ccr4, tim4`ccr1, tim4`ccr2, tim4`ccr3
      ensures Compare(m) == CompareValue(newDuty) as bv32
      ensures forall n :: IsMotor(n) && n != m ==> Compare(n) == old(Compare(n))
    {
      var duty := newDuty;
      if duty > 1.0 {
        duty := 1.0;
      } else if duty < 0.0 {
        duty := 0.0;
      }
      var newValue := (duty * PeriodPwm as real).Floor;
      assert newValue == CompareValue(newDuty);
      SetCompare(m, newValue as bv32);
    }

    /** `outputDutyCycleMotorN`: a negative duty turns the motor to direction
      * 1 and drives it with the negated duty, any other to direction 2;
      * `dutyPrintN` keeps the magnitude before clamping. */
    method OutputDutyCycle(m: int, duty: real)
      requires Valid() && IsMotor(m)
      modifies this`level, this`dutyPrint
      modifies tim3`ccr1, tim3`ccr2, tim3`ccr3, tim3`ccr4, tim4`ccr1, tim4`ccr2, tim4`ccr3
      ensures Valid()
      ensures level == Drive(old(level), m, duty < 0.0)
      ensures dutyPrint == old(dutyPrint)[m - 1 := Magnitude(duty)]
      ensures Compare(m) == CompareValue(Magnitude(duty)) as bv32
      ensures forall n :: IsMotor(n) && n != m ==> Compare(n) == old(Compare(n))
    {
      var d := duty;
      if d < 0.0 {
        SetDirection(m, true);
        d := d * -1.0;
      } else {
        SetDirection(m, false);
      }
      dutyPrint := dutyPrint[m - 1 := d];
      UpdateDutyCycle(m, d);
    }

    /** `outputTorqueMotorN`: the direction from the sign of the torque, the
      * duty 65.13 times its magnitude. */
    method OutputTorque(m: int, torque: real)
      requires Valid() && IsMotor(m)
      modifies this`level, this`dutyPrint
      modifies tim3`ccr1, tim3`ccr2, tim3`ccr3, tim3`ccr4, tim4`ccr1, tim4`ccr2, tim4`ccr3
      ensures Valid()
      ensures level == Drive(old(level), m, torque < 0.0)
      ensures dutyPrint == old(dutyPrint)[m - 1 := TorqueDuty(torque)]
      ensures Compare(m) == TorqueCompare(torque)
      ensures forall n :: IsMotor(n) && n != m ==> Compare(n) == old(Compare(n))
    {
      var t := torque;
      if t < 0.0 {
        SetDirection(m, true);
        t := t * -1.0;
      } else {
        SetDirection(m, false);
      }
      var duty := t * TorqueToDuty;
      dutyPrint := dutyPrint[m - 1 := duty];
      UpdateDutyCycle(m, duty);
    }

    /** Two distinct motors driven with torques `ta` and `tb`, one after
      * the other, as every 2-DOF environment ends. */
    method OutputTorquePair(a: int, b: int, ta: real, tb: real)
      requires Valid() && IsMotor(a) && IsMotor(b) && a != b
      modifies this`level, this`dutyPrint
      modifies tim3`ccr1, tim3`ccr2, tim3`ccr3, tim3`ccr4, tim4`ccr1, tim4`ccr2, tim4`ccr3
      ensures Valid()
      ensures level == Drive(Drive(old(level), a, ta < 0.0), b, tb < 0.0)
      ensures Compare(a) == TorqueCompare(ta)
      ensures Compare(b) == TorqueCompare(tb)
      ensures forall n :: IsMotor(n) && n != a && n != b ==> Compare(n) == old(Compare(n))
    {
      OutputTorque(a, ta);
      OutputTorque(b, tb);
    }

    /** The pulse of every output compare channel set to zero. */
    method ZeroCompares()
      requires Valid()
      modifies tim3`ccr1, tim3`ccr2, tim3`ccr3, tim3`ccr4, tim4`ccr1, tim4`ccr2, tim4`ccr3
      ensures forall m :: IsMotor(m) ==> Compare(m) == 0
    {
      tim3.SetCompare1(0);
      tim3.SetCompare2(0);
      tim3.SetCompare3(0);
      tim3.SetCompare4(0);
      tim4.SetCompare1(0);
      tim4.SetCompare2(0);
      tim4.SetCompare3(0);
    }

    /** The time base of both PWM timers: count up to PERIOD_PWM with
      * prescaler 4. The CR1 masks are parameters. */
    method ConfigureTimeBase(dirCms: bv32, ckd: bv32)
      requires Valid()
      modifies tim3`cr1, tim3`arr, tim3`psc, tim3`rcr, tim3`egr
      modifies tim4`cr1, tim4`arr, tim4`psc, tim4`rcr, tim4`egr
      ensures tim3.arr == PeriodPwm as bv32 && tim3.psc == Prescaler
      ensures tim4.arr == PeriodPwm as bv32 && tim4.psc == Prescaler
    {
      var base := Tim.TimeBaseInitDef(Prescaler, CounterModeUp, PeriodPwm as bv32, ClockDivision1, 0);
      tim3.TimeBaseInit(base, dirCms, ckd);
      tim4.TimeBaseInit(base, dirCms, ckd);
    }

    /** The configuration part of `initHaplinkMotors`: every direction pin
      * cleared, both time bases configured, every compare value zero. */
    method Configure(dirCms: bv32, ckd: bv32)
      requires Valid()
      modifies this`level
      modifies tim3`ccr1, tim3`ccr2, tim3`ccr3, tim3`ccr4, tim4`ccr1, tim4`ccr2, tim4`ccr3
      modifies tim3`cr1, tim3`arr, tim3`psc, tim3`rcr, tim3`egr
      modifies tim4`cr1, tim4`arr, tim4`psc, tim4`rcr, tim4`egr
      ensures forall m :: IsMotor(m) ==> Compare(m) == 0
      ensures level == AllOff(old(level)) && Exclusive(level)
      ensures tim3.arr == PeriodPwm as bv32 && tim3.psc == Prescaler
      ensures tim4.arr == PeriodPwm as bv32 && tim4.psc == Prescaler
    {
      TurnOffDirPins();
      ConfigureTimeBase(dirCms, ckd);
      ZeroCompares();
    }

    /** `initHaplinkMotors`: configured as above, then both timers started. */
    method Init(dirCms: bv32, ckd: bv32, cen: bv32)
      requires Valid()
      modifies this`level
      modifies tim3`ccr1, tim3`ccr2, tim3`ccr3, tim3`ccr4, tim4`ccr1, tim4`ccr2, tim4`ccr3
      modifies tim3`cr1, tim3`arr, tim3`psc, tim3`rcr, tim3`egr
      modifies tim4`cr1, tim4`arr, tim4`psc, tim4`rcr, tim4`egr
      ensures forall m :: IsMotor(m) ==> Compare(m) == 0
      ensures level == AllOff(old(level)) && Exclusive(level)
      ensures tim3.arr == PeriodPwm as bv32 && tim3.psc == Prescaler
      ensures tim4.arr == PeriodPwm as bv32 && tim4.psc == Prescaler
      ensures Counting(tim3.cr1, cen) && Counting(tim4.cr1, cen)
    {
      Configure(dirCms, ckd);
      StartTimers(tim3, tim4, cen);
    }
  }
}
