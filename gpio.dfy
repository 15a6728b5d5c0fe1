/**
 * GPIO port driver of the STM32F446ZE (stm32f446ze_gpio.c).
 *
 * A port is a block of 32-bit registers. `GPIOInit` configures one pin: it
 * finds the pin's position from its one-hot mask and replaces that pin's
 * 2-bit field in MODER, OSPEEDR and PUPDR and its bit in OTYPER.
 * `GPIOPinAFConfig` replaces a 4-bit field of one of the two AFR words.
 * The output helpers write BSRRL, BSRRH or ODR.
 */
module Gpio {

  import opened Bits

  // ---------------------------------------------------------------------
  // Pin position: index of the highest set bit of a pin mask
  // ---------------------------------------------------------------------

  /** The position GPIOInit derives from a pin mask: the index of its
    * highest set bit, and 0 when the mask is 0 or 1. */
  function PinPosition(pin: bv32): (pos: bv32)
    ensures pos < 32
    ensures pin >> pos <= 1
    ensures pin != 0 ==> pin >> pos == 1
    decreases pin
  {
    if pin <= 1 then 0
    else
      var rest := PinPosition(pin >> 1);
      ShiftSplit(pin, rest);
      1 + rest
  }

  lemma ShiftSplit(pin: bv32, rest: bv32)
    requires rest < 31
    ensures pin >> (1 + rest) == (pin >> 1) >> rest
  {
  }

  /** A one-hot mask `1 << k` has position k. */
  lemma PinPositionOfOneHot(k: bv32)
    requires k < 32
    ensures PinPosition((1 as bv32) << k) == k
  {
  }

  /** The `while (pin > 0)` loop at the start of GPIOInit. */
  method FindPinPosition(gpioPin: bv32) returns (pinpos: bv32)
    ensures pinpos == PinPosition(gpioPin)
  {
    pinpos := 0;
    var pin := gpioPin >> 1;
    while pin > 0
      invariant pinpos < 32
      invariant pin == 0 ==> PinPosition(gpioPin) == pinpos
      invariant pin != 0 ==> PinPosition(gpioPin) == pinpos + 1 + PinPosition(pin)
      decreases pin
    {
      if pin > 1 {
        assert PinPosition(pin) == 1 + PinPosition(pin >> 1);
      }
      pin := pin >> 1;
      pinpos := pinpos + 1;
    }
  }

  // ---------------------------------------------------------------------
  // Register fields
  // ---------------------------------------------------------------------

  /** `w &= ~(3 << 2pos); w |= v << 2pos`. */
  function SetField2(w: bv32, pos: bv32, v: bv32): bv32
    requires pos < 16 && v <= 3
  {
    (w & !Mask2(pos)) | (v << (2 * pos))
  }

  /** The field of pin `pos` becomes `v` and no other bit of the word changes. */
  lemma SetField2Spec(w: bv32, pos: bv32, v: bv32)
    requires pos < 16 && v <= 3
    ensures Field2(SetField2(w, pos, v), pos) == v
    ensures SetField2(w, pos, v) & !Mask2(pos) == w & !Mask2(pos)
  {
  }

  /** `w &= ~(1 << pos); w |= v << pos`. */
  function SetBit(w: bv32, pos: bv32, v: bv32): bv32
    requires pos < 32 && v <= 1
  {
    (w & !((1 as bv32) << pos)) | (v << pos)
  }

  /** Bit `pos` becomes `v` and no other bit of the word changes. */
  lemma SetBitSpec(w: bv32, pos: bv32, v: bv32)
    requires pos < 32 && v <= 1
    ensures Bit(SetBit(w, pos, v), pos) == v
    ensures SetBit(w, pos, v) & !((1 as bv32) << pos) == w & !((1 as bv32) << pos)
  {
  }


  /** `w &= ~(0xF << 4slot); w |= v << 4slot`. */
  function SetField4(w: bv32, slot: bv32, v: bv32): bv32
    requires slot < 8 && v <= 0xF
  {
    (w & !Mask4(slot)) | (v << (4 * slot))
  }

  /** Nibble `slot` becomes `v` and no other bit of the word changes. */
  lemma SetField4Spec(w: bv32, slot: bv32, v: bv32)
    requires slot < 8 && v <= 0xF
    ensures Field4(SetField4(w, slot, v), slot) == v
    ensures SetField4(w, slot, v) & !Mask4(slot) == w & !Mask4(slot)
  {
  }

  /** `GPIO_PinSource >> 3`: AFR[0] holds pins 0..7 and AFR[1] pins 8..15. */
  function AfrIndex(source: bv32): (i: nat)
    requires source <= 15
    ensures i < 2 && (i == 1 <==> source >= 8)
  {
    (source >> 3) as nat
  }

  /** `GPIO_PinSource & 7`: the nibble of the pin inside its AFR word. */
  function AfrSlot(source: bv32): (slot: bv32)
    ensures slot < 8
  {
    source & 7
  }

  // ---------------------------------------------------------------------
  // Initialisation structure values
  // ---------------------------------------------------------------------

  const ModeIn: bv32 := 0x00
  const ModeOut: bv32 := 0x01
  const ModeAF: bv32 := 0x02
  const ModeAnalog: bv32 := 0x03

  const OTypePushPull: bv32 := 0x00
  const OTypeOpenDrain: bv32 := 0x01

  const PuPdNoPull: bv32 := 0x00
  const PuPdUp: bv32 := 0x01
  const PuPdDown: bv32 := 0x02

  /** GPIOInitTypeDef: the pin mask and the four enumerated settings. */
  datatype PinConfig = PinConfig(pin: bv32, mode: bv32, speed: bv32, otype: bv32, pupd: bv32)
  {
    /** The settings are values of their enumerations and the mask is a
      * 16-pin mask, so every shift in GPIOInit stays inside the word. */
    predicate WellFormed()
    {
      pin <= 0xFFFF && mode <= 3 && speed <= 3 && otype <= 1 && pupd <= 2
    }
  }

  // ---------------------------------------------------------------------
  // The register block
  // ---------------------------------------------------------------------

  class Port {
    var moder: bv32
    var otyper: bv32
    var ospeedr: bv32
    var pupdr: bv32
    var idr: bv32
    var odr: bv32
    var bsrrl: bv32
    var bsrrh: bv32
    var afr: array<bv32>

    ghost predicate Valid()
      reads this
    {
      afr.Length == 2
    }

    /** A port as the reset values leave it, with the input levels `input`. */
    constructor (input: bv32)
      ensures Valid() && fresh(afr)
      ensures moder == 0 && otyper == 0 && ospeedr == 0 && pupdr == 0
      ensures odr == 0 && idr == input && afr[..] == [0, 0]
    {
      moder, otyper, ospeedr, pupdr := 0, 0, 0, 0;
      idr, odr := input, 0;
      bsrrl, bsrrh := 0, 0;
      afr := new bv32[2](_ => 0);
    }

    /** GPIOInit: configure the pin named by `cfg.pin`. */
    method Init(cfg: PinConfig)
      requires Valid() && cfg.WellFormed()
      modifies this
      ensures Valid() && afr == old(afr)
      ensures PinPosition(cfg.pin) < 16
      ensures moder == SetField2(old(moder), PinPosition(cfg.pin), cfg.mode)
      ensures ospeedr == SetField2(old(ospeedr), PinPosition(cfg.pin), cfg.speed)
      ensures otyper == SetBit(old(otyper), PinPosition(cfg.pin), cfg.otype)
      ensures pupdr == SetField2(old(pupdr), PinPosition(cfg.pin), cfg.pupd)
      ensures idr == old(idr) && odr == old(odr)
      ensures bsrrl == old(bsrrl) && bsrrh == old(bsrrh)
    {
      var pinpos := FindPinPosition(cfg.pin);
      PinPositionBelow16(cfg.pin);
      moder := SetField2(moder, pinpos, cfg.mode);
      ospeedr := SetField2(ospeedr, pinpos, cfg.speed);
      otyper := SetBit(otyper, pinpos, cfg.otype);
      pupdr := SetField2(pupdr, pinpos, cfg.pupd);
    }

    /** GPIOPinAFConfig: alternate function `af` for pin `source` (0..15). */
    method PinAFConfig(source: bv32, af: bv32)
      requires Valid() && source <= 15 && af <= 0xF
      modifies afr
      ensures afr[AfrIndex(source)] == SetField4(old(afr[AfrIndex(source)]), AfrSlot(source), af)
      ensures afr[1 - AfrIndex(source)] == old(afr[1 - AfrIndex(source)])
    {
      var index := AfrIndex(source);
      var slot := AfrSlot(source);
      var temp: bv32 := af << (4 * slot);
      afr[index] := afr[index] & !Mask4(slot);
      var temp2 := afr[index] | temp;
      afr[index] := temp2;
    }

    /** GPIOSetBits: the mask goes to the bit-set half of BSRR, which the
      * port answers by setting those ODR bits. */
    method SetBits(pin: bv32)
      requires pin <= 0xFFFF
      modifies this
      ensures bsrrl == pin && odr == Or(old(odr), pin)
      ensures bsrrh == old(bsrrh) && idr == old(idr) && afr == old(afr)
      ensures moder == old(moder) && otyper == old(otyper) && ospeedr == old(ospeedr) && pupdr == old(pupdr)
    {
      bsrrl := pin;
      odr := Or(odr, pin);
    }

    /** GPIOClearBits: the mask goes to the bit-reset half of BSRR, which
      * the port answers by clearing those ODR bits. */
    method ClearBits(pin: bv32)
      requires pin <= 0xFFFF
      modifies this
      ensures bsrrh == pin && odr == AndNot(old(odr), pin)
      ensures bsrrl == old(bsrrl) && idr == old(idr) && afr == old(afr)
      ensures moder == old(moder) && otyper == old(otyper) && ospeedr == old(ospeedr) && pupdr == old(pupdr)
    {
      bsrrh := pin;
      odr := AndNot(odr, pin);
    }

    /** GPIOWrite: ODR takes the 16-bit port value. */
    method Write(portVal: bv32)
      requires portVal <= 0xFFFF
      modifies this
      ensures odr == portVal
      ensures bsrrl == old(bsrrl) && bsrrh == old(bsrrh) && idr == old(idr) && afr == old(afr)
      ensures moder == old(moder) && otyper == old(otyper) && ospeedr == old(ospeedr) && pupdr == old(pupdr)
    {
      odr := portVal;
    }

    /** GPIOToggleBits: the masked output bits flip, the others stay. */
    method Toggle(pin: bv32)
      requires pin <= 0xFFFF
      modifies this
      ensures odr == Toggled(old(odr), pin)
      ensures bsrrl == old(bsrrl) && bsrrh == old(bsrrh) && idr == old(idr) && afr == old(afr)
      ensures moder == old(moder) && otyper == old(otyper) && ospeedr == old(ospeedr) && pupdr == old(pupdr)
    {
      odr := odr ^ pin;
    }

    /** GPIOReadInputDataBit: 1 when any masked input bit is high, else 0. */
    function ReadInputDataBit(pin: bv32): (r: bv32)
      requires pin <= 0xFFFF
      reads this
      ensures r <= 1
      ensures r == 1 <==> idr & pin != 0
    {
      if idr & pin != 0 then 1 else 0
    }

    /** GPIOReadInputData: the low half of IDR. */
    function ReadInputData(): (r: bv32)
      reads this
      ensures r <= 0xFFFF && r == idr & 0xFFFF
    {
      idr & 0xFFFF
    }
  }

  /** Pin masks of 16-pin ports have positions 0..15. */
  lemma PinPositionBelow16(pin: bv32)
    requires pin <= 0xFFFF
    ensures PinPosition(pin) < 16
  {
  }

  /** ODR after GPIOToggleBits. */
  function Toggled(odr: bv32, pin: bv32): bv32
    requires pin <= 0xFFFF
  {
    odr ^ pin
  }

  /** The masked output bits flip and the others keep their level. */
  lemma ToggledSpec(odr: bv32, pin: bv32)
    requires pin <= 0xFFFF
    ensures Toggled(odr, pin) & pin == !odr & pin
    ensures Toggled(odr, pin) & !pin == odr & !pin
  {
  }

  /** Toggling the same mask twice restores the output register. */
  lemma ToggleTwice(odr: bv32, pin: bv32)
    requires pin <= 0xFFFF
    ensures Toggled(Toggled(odr, pin), pin) == odr
  {
  }

  /** Reading one input pin through its one-hot mask reads bit k of IDR. */
  lemma ReadOneHot(p: Port, k: bv32)
    requires k < 16
    ensures p.ReadInputDataBit((1 as bv32) << k) == Bit(p.idr, k)
  {
  }
}
