/**
 * SYSCFG external-interrupt line selection (stm32f446ze_syscfg.c).
 *
 * The four EXTICR words hold one 4-bit port number per EXTI line: line n is
 * the nibble (n & 3) of word n >> 2.
 */
module Syscfg {

  import opened Bits

  /** EXTI_PortSourceGPIOx values of stm32f446ze_syscfg.h. */
  const PortA: bv32 := 0x00
  const PortB: bv32 := 0x01
  const PortC: bv32 := 0x02
  const PortD: bv32 := 0x03
  const PortE: bv32 := 0x04
  const PortK: bv32 := 0x0A

  /** `EXTI_PinSourcex >> 2`: the EXTICR word of a line. */
  function ExticrIndex(pin: bv32): (i: nat)
    requires pin <= 15
    ensures i < 4
  {
    (pin >> 2) as nat
  }

  /** `EXTI_PinSourcex & 3`: the nibble of a line inside its word. */
  function ExticrSlot(pin: bv32): (slot: bv32)
    ensures slot < 4
  {
    pin & 3
  }

  /** `w &= ~(0xF << 4slot); w |= port << 4slot` with an 8-bit port number. */
  function SelectPort(w: bv32, slot: bv32, port: bv32): bv32
    requires slot < 4 && port <= 0xFF
  {
    (w & !Mask4(slot)) | (port << (4 * slot))
  }

  /** For a port number of at most four bits the line's nibble becomes the
    * port and no other bit of the word changes. */
  lemma SelectPortSpec(w: bv32, slot: bv32, port: bv32)
    requires slot < 4 && port <= 0xF
    ensures Field4(SelectPort(w, slot, port), slot) == port
    ensures SelectPort(w, slot, port) & !Mask4(slot) == w & !Mask4(slot)
  {
  }

  /** Selecting a port again overwrites the earlier selection, so selecting
    * the same port twice is the same as selecting it once. */
  lemma SelectPortOverwrites(w: bv32, slot: bv32, first: bv32, second: bv32)
    requires slot < 4 && first <= 0xF && second <= 0xF
    ensures SelectPort(SelectPort(w, slot, first), slot, second) == SelectPort(w, slot, second)
  {
  }

  class Controller {
    var exticr: array<bv32>

    ghost predicate Valid()
      reads this
    {
      exticr.Length == 4
    }

    constructor ()
      ensures Valid() && fresh(exticr) && exticr[..] == [0, 0, 0, 0]
    {
      exticr := new bv32[4](_ => 0);
    }

    /** SYSCFGEXTILineConfig: route line `pin` to GPIO port `port`. */
    method ExtiLineConfig(port: bv32, pin: bv32)
      requires Valid() && port <= 0xFF && pin <= 15
      modifies exticr
      ensures exticr[ExticrIndex(pin)] == SelectPort(old(exticr[ExticrIndex(pin)]), ExticrSlot(pin), port)
      ensures forall i :: 0 <= i < 4 && i != ExticrIndex(pin) ==> exticr[i] == old(exticr[i])
    {
      var slot := ExticrSlot(pin);
      var tmp: bv32 := Mask4(slot);
      var index := ExticrIndex(pin);
      exticr[index] := exticr[index] & !tmp;
      exticr[index] := exticr[index] | (port << (4 * slot));
    }

    /** The port number currently routed to line `pin`. */
    function LinePort(pin: bv32): bv32
      requires Valid() && pin <= 15
      reads this, exticr
    {
      Field4(exticr[ExticrIndex(pin)], ExticrSlot(pin))
    }
  }

  /** After routing line `pin` to a port number of at most four bits, the
    * line reads back that port and every other line keeps its port. */
  lemma RouteReadBack(c: Controller, pin: bv32, port: bv32, other: bv32, before: seq<bv32>)
    requires c.Valid() && pin <= 15 && other <= 15 && other != pin && port <= 0xF
    requires |before| == 4
    requires c.exticr[ExticrIndex(pin)] == SelectPort(before[ExticrIndex(pin)], ExticrSlot(pin), port)
    requires forall i :: 0 <= i < 4 && i != ExticrIndex(pin) ==> c.exticr[i] == before[i]
    ensures c.LinePort(pin) == port
    ensures c.LinePort(other) == Field4(before[ExticrIndex(other)], ExticrSlot(other))
  {
    SelectPortSpec(before[ExticrIndex(pin)], ExticrSlot(pin), port);
    if ExticrIndex(other) == ExticrIndex(pin) {
      SlotsDiffer(pin, other);
      OtherNibbleKept(before[ExticrIndex(pin)], ExticrSlot(pin), ExticrSlot(other), port);
    }
  }

  lemma SlotsDiffer(pin: bv32, other: bv32)
    requires pin <= 15 && other <= 15 && other != pin
    requires ExticrIndex(pin) == ExticrIndex(other)
    ensures ExticrSlot(pin) != ExticrSlot(other)
  {
  }

  lemma OtherNibbleKept(w: bv32, slot: bv32, otherSlot: bv32, port: bv32)
    requires slot < 4 && otherSlot < 4 && slot != otherSlot && port <= 0xF
    ensures Field4(SelectPort(w, slot, port), otherSlot) == Field4(w, otherSlot)
  {
  }
}
