/**
 * The two vibration motors of Haplink (haplink_vibration_motors.c).
 *
 * Vibration motor 1 is driven by PWM output 3 and motor 2 by output 4 of
 * the motor outputs. Turning a motor on clamps the amplitude to [0, 1],
 * drives the output with it and records it as the motor's status; turning
 * it off drives the output with 0 and leaves the status as it was, so the
 * status reports the last amplitude the motor was turned on with.
 */
module Vibration {

  import Motors

  /** The motor output that drives vibration motor `k` (1 or 2). */
  function OutputOf(k: int): (m: int)
    requires k == 1 || k == 2
    ensures Motors.IsMotor(m) && m == k + 2
  {
    if k == 1 then 3 else 4
  }

  /** Clamping the amplitude before `updateDutyCycleN` clamps it again
    * changes nothing: the output is the same as from the raw amplitude. */
  lemma ClampTwice(amplitude: real)
    ensures Motors.Clamp(Motors.Clamp(amplitude)) == Motors.Clamp(amplitude)
    ensures Motors.CompareValue(Motors.Clamp(amplitude)) == Motors.CompareValue(amplitude)
  {
  }

  class Vibrators {
    const outputs: Motors.Outputs
    var status1: real
    var status2: real

    /** Both statuses are amplitudes in [0, 1]. */
    ghost predicate Valid()
      reads this, outputs
    {
      outputs.Valid() && 0.0 <= status1 <= 1.0 && 0.0 <= status2 <= 1.0
    }

    /** The statuses start at 0. */
    constructor (outputs: Motors.Outputs)
      requires outputs.Valid()
      ensures Valid() && this.outputs == outputs
      ensures status1 == 0.0 && status2 == 0.0
    {
      this.outputs := outputs;
      status1 := 0.0;
      status2 := 0.0;
    }

    /** `queryVibrationMotorKstatus`. */
    function Status(k: int): (a: real)
      requires Valid() && (k == 1 || k == 2)
      reads this, outputs
      ensures 0.0 <= a <= 1.0
    {
      if k == 1 then status1 else status2
    }

    /** `turnVibrationMotorKOn`: clamp, drive output 3 or 4, record. */
    method On(k: int, amplitude: real)
      requires Valid() && (k == 1 || k == 2)
      modifies this`status1, this`status2
      modifies outputs.tim3`ccr1, outputs.tim3`ccr2, outputs.tim3`ccr3, outputs.tim3`ccr4
      modifies outputs.tim4`ccr1, outputs.tim4`ccr2, outputs.tim4`ccr3
      ensures Valid()
      ensures Status(k) == Motors.Clamp(amplitude)
      ensures k == 1 ==> status2 == old(status2)
      ensures k == 2 ==> status1 == old(status1)
      ensures outputs.Compare(OutputOf(k)) == Motors.CompareValue(amplitude) as bv32
      ensures forall n :: Motors.IsMotor(n) && n != OutputOf(k) ==> outputs.Compare(n) == old(outputs.Compare(n))
    {
      var a := amplitude;
      if a > 1.0 {
        a := 1.0;
      } else if a < 0.0 {
        a := 0.0;
      }
      ClampTwice(amplitude);
      outputs.UpdateDutyCycle(OutputOf(k), a);
      if k == 1 {
        status1 := a;
      } else {
        status2 := a;
      }
    }

    /** `turnVibrationMotorKOff`: output 3 or 4 driven with 0; the status
      * keeps the last amplitude. */
    method Off(k: int)
      requires Valid() && (k == 1 || k == 2)
      modifies outputs.tim3`ccr1, outputs.tim3`ccr2, outputs.tim3`ccr3, outputs.tim3`ccr4
      modifies outputs.tim4`ccr1, outputs.tim4`ccr2, outputs.tim4`ccr3
      ensures Valid()
      ensures outputs.Compare(OutputOf(k)) == 0
      ensures forall n :: Motors.IsMotor(n) && n != OutputOf(k) ==> outputs.Compare(n) == old(outputs.Compare(n))
    {
      outputs.UpdateDutyCycle(OutputOf(k), 0.0);
    }
  }
}
