/**
 * The EXTI controller driver (mbed/stm32f446ze_exti.c).
 *
 * The register block is IMR, EMR, RTSR, FTSR, SWIER and PR at byte offsets
 * 0x00 to 0x14. `EXTIInit` adds the mode or the trigger value to the base
 * address to reach IMR/EMR or RTSR/FTSR; the model resolves that address to
 * the register it names (`Target`).
 */
module Exti {

  import opened Bits

  /** EXTIModeTypeDef. */
  datatype Mode = Interrupt | Event

  /** The enumerator's value: the byte offset of IMR or EMR. */
  function ModeOffset(m: Mode): bv32
  {
    match m
    case Interrupt => 0x00
    case Event => 0x04
  }

  /** EXTITriggerTypeDef. */
  datatype Trigger = Rising | Falling | RisingFalling

  /** The enumerator's value: the byte offset of RTSR or FTSR for a single
    * edge, 0x10 for both. */
  function TriggerOffset(t: Trigger): bv32
  {
    match t
    case Rising => 0x08
    case Falling => 0x0C
    case RisingFalling => 0x10
  }

  /** The byte offsets of the six registers. */
  predicate IsOffset(offset: bv32)
  {
    offset == 0x00 || offset == 0x04 || offset == 0x08 || offset == 0x0C || offset == 0x10 || offset == 0x14
  }

  /** The six registers of the block, in address order. */
  datatype Regs = Regs(imr: bv32, emr: bv32, rtsr: bv32, ftsr: bv32, swier: bv32, pr: bv32)

  datatype Reg = IMR | EMR | RTSR | FTSR | SWIER | PR

  /** The register at byte offset `offset` from the base of the block. */
  function Target(offset: bv32): Reg
    requires IsOffset(offset)
  {
    if offset == 0x00 then IMR
    else if offset == 0x04 then EMR
    else if offset == 0x08 then RTSR
    else if offset == 0x0C then FTSR
    else if offset == 0x10 then SWIER
    else PR
  }

  /** Whether `mode` selects the mask register `reg`. */
  predicate Unmasks(mode: Mode, reg: Reg)
  {
    Target(ModeOffset(mode)) == reg
  }

  /** Whether `trigger` arms the edge register `edge`: RisingFalling arms
    * both, any other trigger the register at its own offset. */
  predicate Arms(trigger: Trigger, edge: Reg)
  {
    trigger == RisingFalling || Target(TriggerOffset(trigger)) == edge
  }

  /** `w` with the bits of `line` cleared, then set again when `on`. */
  function Assign(w: bv32, line: bv32, on: bool): bv32
  {
    if on then Or(AndNot(w, line), line) else AndNot(w, line)
  }

  /** `Assign` leaves the bits of `line` all set when `on` and all clear
    * otherwise ... */
  lemma AssignSets(w: bv32, line: bv32, on: bool)
    ensures Assign(w, line, on) & line == (if on then line else 0)
  {
  }

  /** ... and no other bit of the word changes. */
  lemma AssignKeeps(w: bv32, line: bv32, on: bool)
    ensures AndNot(Assign(w, line, on), line) == AndNot(w, line)
  {
  }

  /** The four mask and edge registers with the bits of `line` cleared in
    * each, then set in those whose flag is on. */
  function Apply(r: Regs, line: bv32, imr: bool, emr: bool, rtsr: bool, ftsr: bool): Regs
  {
    Regs(Assign(r.imr, line, imr), Assign(r.emr, line, emr),
         Assign(r.rtsr, line, rtsr), Assign(r.ftsr, line, ftsr), r.swier, r.pr)
  }

  /** Every register agrees outside the bits of `line`. */
  predicate SameOutside(a: Regs, b: Regs, line: bv32)
  {
    AndNot(a.imr, line) == AndNot(b.imr, line) && AndNot(a.emr, line) == AndNot(b.emr, line) &&
    AndNot(a.rtsr, line) == AndNot(b.rtsr, line) && AndNot(a.ftsr, line) == AndNot(b.ftsr, line) &&
    a.swier == b.swier && a.pr == b.pr
  }

  /** `Apply` leaves the bits of every other line, SWIER and PR alone. */
  lemma ApplyKeepsOthers(r: Regs, line: bv32, imr: bool, emr: bool, rtsr: bool, ftsr: bool)
    ensures SameOutside(Apply(r, line, imr, emr, rtsr, ftsr), r, line)
  {
    AssignKeeps(r.imr, line, imr);
    AssignKeeps(r.emr, line, emr);
    AssignKeeps(r.rtsr, line, rtsr);
    AssignKeeps(r.ftsr, line, ftsr);
  }

  /** The register block after `EXTIInit` with `EXTILineCmd` enabled. */
  function Enabled(r: Regs, line: bv32, mode: Mode, trigger: Trigger): Regs
  {
    Apply(r, line, Unmasks(mode, IMR), Unmasks(mode, EMR), Arms(trigger, RTSR), Arms(trigger, FTSR))
  }

  /** Enabling unmasks the lines in exactly the register the mode names
    * (IMR for Interrupt, EMR for Event) and arms exactly the edges the
    * trigger names (both for RisingFalling). */
  lemma EnabledSpec(r: Regs, line: bv32, mode: Mode, trigger: Trigger)
    ensures Enabled(r, line, mode, trigger)
         == Apply(r, line, mode == Interrupt, mode == Event,
                  trigger != Falling, trigger != Rising)
  {
  }

  /** `w` with the bits of `line` cleared when `on`, unchanged otherwise. */
  function MaskIf(w: bv32, line: bv32, on: bool): bv32
  {
    if on then AndNot(w, line) else w
  }

  /** `MaskIf` clears the bits of `line` when `on` ... */
  lemma MaskIfClears(w: bv32, line: bv32, on: bool)
    ensures on ==> MaskIf(w, line, on) & line == 0
  {
  }

  /** ... and no other bit of the word changes. */
  lemma MaskIfKeeps(w: bv32, line: bv32, on: bool)
    ensures AndNot(MaskIf(w, line, on), line) == AndNot(w, line)
  {
  }

  /** The registers with the bits of `line` cleared in IMR when `imr` and in
    * EMR when `emr`. */
  function Mask(r: Regs, line: bv32, imr: bool, emr: bool): Regs
  {
    Regs(MaskIf(r.imr, line, imr), MaskIf(r.emr, line, emr), r.rtsr, r.ftsr, r.swier, r.pr)
  }

  /** `Mask` changes no bit outside `line`. */
  lemma MaskKeepsOthers(r: Regs, line: bv32, imr: bool, emr: bool)
    ensures SameOutside(Mask(r, line, imr, emr), r, line)
  {
    MaskIfKeeps(r.imr, line, imr);
    MaskIfKeeps(r.emr, line, emr);
  }

  /** The register block after `EXTIInit` with `EXTILineCmd` disabled. */
  function Disabled(r: Regs, line: bv32, mode: Mode): Regs
  {
    Mask(r, line, Unmasks(mode, IMR), Unmasks(mode, EMR))
  }

  /** Disabling masks the lines in the register the mode names only; the
    * other mask register and both edge registers are untouched. */
  lemma DisabledSpec(r: Regs, line: bv32, mode: Mode)
    ensures Disabled(r, line, mode) == Mask(r, line, mode == Interrupt, mode == Event)
  {
  }

  /** Some bit of the line mask `line` is set in the pending register `pr`. */
  predicate IsPending(pr: bv32, line: bv32)
  {
    pr & line != 0
  }

  class Controller {
    var imr: bv32
    var emr: bv32
    var rtsr: bv32
    var ftsr: bv32
    var swier: bv32
    var pr: bv32

    /** The block as a value. */
    function Block(): Regs
      reads this
    {
      Regs(imr, emr, rtsr, ftsr, swier, pr)
    }

    constructor ()
      ensures Block() == Regs(0, 0, 0, 0, 0, 0)
    {
      imr, emr, rtsr, ftsr, swier, pr := 0, 0, 0, 0, 0, 0;
    }

    /** `*(base + offset) |= line` for a mask or edge register. */
    method OrAt(offset: bv32, line: bv32)
      requires offset == 0x00 || offset == 0x04 || offset == 0x08 || offset == 0x0C
      modifies this
      ensures Target(offset) == IMR ==> Block() == old(Block()).(imr := Or(old(imr), line))
      ensures Target(offset) == EMR ==> Block() == old(Block()).(emr := Or(old(emr), line))
      ensures Target(offset) == RTSR ==> Block() == old(Block()).(rtsr := Or(old(rtsr), line))
      ensures Target(offset) == FTSR ==> Block() == old(Block()).(ftsr := Or(old(ftsr), line))
    {
      match Target(offset)
      case IMR => imr := Or(imr, line);
      case EMR => emr := Or(emr, line);
      case RTSR => rtsr := Or(rtsr, line);
      case FTSR => ftsr := Or(ftsr, line);
    }

    /** `*(base + offset) &= ~line` for a mask register. */
    method AndNotAt(offset: bv32, line: bv32)
      requires offset == 0x00 || offset == 0x04
      modifies this
      ensures Target(offset) == IMR ==> Block() == old(Block()).(imr := AndNot(old(imr), line))
      ensures Target(offset) == EMR ==> Block() == old(Block()).(emr := AndNot(old(emr), line))
    {
      match Target(offset)
      case IMR => imr := AndNot(imr, line);
      case EMR => emr := AndNot(emr, line);
    }

    /** The mask half of enabling: clear the lines in IMR and EMR, then set
      * them in the register the mode names. */
    method Unmask(line: bv32, mode: Mode)
      modifies this
      ensures Block() == old(Block()).(imr := Assign(old(imr), line, Unmasks(mode, IMR)),
                                       emr := Assign(old(emr), line, Unmasks(mode, EMR)))
    {
      imr := AndNot(imr, line);
      emr := AndNot(emr, line);
      OrAt(ModeOffset(mode), line);
    }

    /** The edge half of enabling: clear the lines in RTSR and FTSR, then
      * set them in the edge registers the trigger names. */
    method Arm(line: bv32, trigger: Trigger)
      modifies this
      ensures Block() == old(Block()).(rtsr := Assign(old(rtsr), line, Arms(trigger, RTSR)),
                                       ftsr := Assign(old(ftsr), line, Arms(trigger, FTSR)))
    {
      rtsr := AndNot(rtsr, line);
      ftsr := AndNot(ftsr, line);
      if trigger == RisingFalling {
        rtsr := Or(rtsr, line);
        ftsr := Or(ftsr, line);
      } else {
        OrAt(TriggerOffset(trigger), line);
      }
    }

    /** EXTIInit: configure the lines of mask `line`. */
    method Init(line: bv32, mode: Mode, trigger: Trigger, enable: bool)
        modifies this
      ensures Block() == if enable then Enabled(old(Block()), line, mode, trigger)
                        else Disabled(old(Block()), line, mode)
    {
      if enable {
        Unmask(line, mode);
        Arm(line, trigger);
      } else {
        AndNotAt(ModeOffset(mode), line);
      }
    }

    /** EXTI_GetITStatus_mort: SET iff some bit of `line` is pending. */
    function GetITStatus(line: bv32): (set_: bool)
      reads this
      ensures set_ <==> IsPending(pr, line)
    {
      if pr & line != 0 then true else false
    }

    /** EXTI_ClearITPendingBit_mort: write the line mask to PR. PR is
      * write-1-to-clear, so the store clears exactly the bits of the mask. */
    method ClearITPendingBit(line: bv32)
      modifies this
      ensures Block() == old(Block()).(pr := AndNot(old(pr), line))
      ensures !IsPending(pr, line)
    {
      pr := AndNot(pr, line);
    }
  }

  /** PR is write-1-to-clear: writing the mask `line` clears the pending
    * bits of `line`, and a line with no bit in common with it stays as
    * pending as it was. */
  lemma ClearKeepsOthers(pr: bv32, line: bv32, other: bv32)
    requires line & other == 0
    ensures !IsPending(AndNot(pr, line), line)
    ensures IsPending(AndNot(pr, line), other) == IsPending(pr, other)
  {
  }
}
