/**
 * The general-purpose timer driver (stm32f4xx_tim_mort.c): time base, counter
 * enable, capture/compare enables, PWM input pairing, interrupts and flags,
 * external trigger and encoder interface.
 *
 * Every register is a `bv32` word. The bit masks of the register fields
 * (TIM_CR1_DIR_MORT and the like) are defined in a header that is not part
 * of this model, so the operations that use them take them as parameters.
 */
module Tim {

  import opened Bits
  import opened TimParams

  /** The CCxE and CCxNE bits of channel 1. */
  const CceSet: bv32 := 0x0001
  const CcneSet: bv32 := 0x0004

  /** The SMCR bits `TIM_ETRConfig_mort` keeps. */
  const SmcrEtrMask: bv32 := 0x00FF

  /** TIM_PSCReloadMode_Immediate_MORT, the UG bit of EGR. */
  const PscReloadImmediate: bv32 := 0x0001

  /** TIM_TimeBaseInitTypeDef_mort. In C the prescaler, counter mode and
    * clock division are `uint16_t`, the period `uint32_t` and the
    * repetition counter `uint8_t`; every field is held here as the 32-bit
    * register value it is written to, so a field above its C width is a
    * value the C struct cannot hold. */
  datatype TimeBaseInitDef = TimeBaseInitDef(prescaler: bv32, counterMode: bv32, period: bv32,
                                             clockDivision: bv32, repetitionCounter: bv32)

  /** TIM_TimeBaseStructInit_mort: the largest period, no prescaling, no
    * clock division, counting up, no repetition; the defaults pass the
    * validators `TIM_TimeBaseInit_mort` asserts. */
  function DefaultTimeBase(): (d: TimeBaseInitDef)
    ensures d.period == 0xFFFFFFFF && d.prescaler == 0 && d.repetitionCounter == 0
    ensures d.counterMode == CounterModeUp && d.clockDivision == ClockDivision1
    ensures IsCounterMode(d.counterMode) && IsClockDivision(d.clockDivision)
  {
    TimeBaseInitDef(0x0000, CounterModeUp, 0xFFFFFFFF, ClockDivision1, 0x0000)
  }

  /** The timers whose counter mode `TIM_TimeBaseInit_mort` sets. */
  predicate SetsCounterMode(p: Periph)
  {
    p == TIM1 || p == TIM8 || p == TIM2 || p == TIM3 || p == TIM4 || p == TIM5
  }

  /** The timers whose clock division it sets. */
  predicate SetsClockDivision(p: Periph)
  {
    p != TIM6 && p != TIM7
  }

  /** The timers whose repetition counter it writes. */
  predicate SetsRepetition(p: Periph)
  {
    p == TIM1 || p == TIM8
  }

  /** The three tests of `TIM_TimeBaseInit_mort` select exactly LIST3, LIST1
    * and LIST4 of the header. */
  lemma TimeBaseSelections(p: Periph)
    ensures SetsCounterMode(p) <==> IsList3(p)
    ensures SetsClockDivision(p) <==> IsList1(p)
    ensures SetsRepetition(p) <==> IsList4(p)
  {
  }

  /** `w` with the field `mask` replaced by `v` when `on`. */
  function ReplaceIf(w: bv32, on: bool, mask: bv32, v: bv32): bv32
  {
    if on then Replace(w, mask, v) else w
  }

  /** The field reads back `v` when replaced and is unchanged otherwise ... */
  lemma ReplaceIfReads(w: bv32, on: bool, mask: bv32, v: bv32)
    requires v & !mask == 0
    ensures ReplaceIf(w, on, mask, v) & mask == if on then v else w & mask
  {
    if on {
      ReplaceSets(w, mask, v);
    }
  }

  /** ... a field disjoint from it is unchanged ... */
  lemma ReplaceIfDisjoint(w: bv32, on: bool, mask: bv32, v: bv32, other: bv32)
    requires v & !mask == 0 && mask & other == 0
    ensures ReplaceIf(w, on, mask, v) & other == w & other
  {
    if on {
      DisjointReplaceKeeps(w, mask, v, other);
    }
  }

  /** ... and so is every bit outside both. */
  lemma ReplaceIfOuter(w: bv32, on: bool, mask: bv32, v: bv32, other: bv32)
    requires v & !mask == 0
    ensures AndNot(ReplaceIf(w, on, mask, v), mask | other) == AndNot(w, mask | other)
  {
    if on {
      OuterReplaceKeeps(w, mask, v, other);
    }
  }

  /** Replacing the field `mask` does not touch a field `other` disjoint
    * from it. */
  lemma DisjointReplaceKeeps(w: bv32, mask: bv32, v: bv32, other: bv32)
    requires v & !mask == 0 && mask & other == 0
    ensures Replace(w, mask, v) & other == w & other
  {
  }

  /** Replacing the field `mask` keeps every bit outside `mask | other`. */
  lemma OuterReplaceKeeps(w: bv32, mask: bv32, v: bv32, other: bv32)
    requires v & !mask == 0
    ensures AndNot(Replace(w, mask, v), mask | other) == AndNot(w, mask | other)
  {
  }

  /** The CR1 value `TIM_TimeBaseInit_mort` writes, for the DIR|CMS field
    * mask `dirCms` and the CKD field mask `ckd`. The register is copied
    * into the 16-bit `tmpcr1`, so bits 16..31 come back zero. */
  function TimeBaseCr1(cr1: bv32, p: Periph, init: TimeBaseInitDef, dirCms: bv32, ckd: bv32): bv32
  {
    ReplaceIf(ReplaceIf(cr1 & 0xFFFF, SetsCounterMode(p), dirCms, init.counterMode),
              SetsClockDivision(p), ckd, init.clockDivision)
  }

  /** The counter-mode field reads back the requested mode on the timers
    * that have one ... */
  lemma TimeBaseCounterMode(cr1: bv32, p: Periph, init: TimeBaseInitDef, dirCms: bv32, ckd: bv32)
    requires init.counterMode & !dirCms == 0 && init.clockDivision & !ckd == 0 && dirCms & ckd == 0
    ensures SetsCounterMode(p) ==> TimeBaseCr1(cr1, p, init, dirCms, ckd) & dirCms == init.counterMode
  {
    var t := ReplaceIf(cr1 & 0xFFFF, SetsCounterMode(p), dirCms, init.counterMode);
    ReplaceIfReads(cr1 & 0xFFFF, SetsCounterMode(p), dirCms, init.counterMode);
    ReplaceIfDisjoint(t, SetsClockDivision(p), ckd, init.clockDivision, dirCms);
  }

  /** ... and is left alone on the others (TIM6, TIM7, TIM9 to TIM14). */
  lemma TimeBaseCounterModeKept(cr1: bv32, p: Periph, init: TimeBaseInitDef, dirCms: bv32, ckd: bv32)
    requires init.clockDivision & !ckd == 0 && dirCms & ckd == 0 && dirCms & !0xFFFF == 0
    ensures !SetsCounterMode(p) ==> TimeBaseCr1(cr1, p, init, dirCms, ckd) & dirCms == cr1 & dirCms
  {
    ReplaceIfDisjoint(cr1 & 0xFFFF, SetsClockDivision(p), ckd, init.clockDivision, dirCms);
    assert (cr1 & 0xFFFF) & dirCms == cr1 & dirCms;
  }

  /** The clock-division field reads back the requested division on every
    * timer but TIM6 and TIM7 ... */
  lemma TimeBaseClockDivision(cr1: bv32, p: Periph, init: TimeBaseInitDef, dirCms: bv32, ckd: bv32)
    requires init.clockDivision & !ckd == 0
    ensures SetsClockDivision(p) ==> TimeBaseCr1(cr1, p, init, dirCms, ckd) & ckd == init.clockDivision
  {
    var t := ReplaceIf(cr1 & 0xFFFF, SetsCounterMode(p), dirCms, init.counterMode);
    ReplaceIfReads(t, SetsClockDivision(p), ckd, init.clockDivision);
  }

  /** ... and on those two basic timers CR1 is written back with only its
    * low half. */
  lemma TimeBaseBasicTimer(cr1: bv32, p: Periph, init: TimeBaseInitDef, dirCms: bv32, ckd: bv32)
    ensures p == TIM6 || p == TIM7 ==> TimeBaseCr1(cr1, p, init, dirCms, ckd) == cr1 & 0xFFFF
  {
  }

  /** Every CR1 bit outside the two fields keeps its value in the low half,
    * and the high half is cleared. */
  lemma TimeBaseCr1Keeps(cr1: bv32, p: Periph, init: TimeBaseInitDef, dirCms: bv32, ckd: bv32)
    requires init.counterMode & !dirCms == 0 && init.clockDivision & !ckd == 0
    ensures AndNot(TimeBaseCr1(cr1, p, init, dirCms, ckd), dirCms | ckd) == AndNot(cr1, dirCms | ckd) & 0xFFFF
  {
    var c := cr1 & 0xFFFF;
    var t := ReplaceIf(c, SetsCounterMode(p), dirCms, init.counterMode);
    ReplaceIfOuter(c, SetsCounterMode(p), dirCms, init.counterMode, ckd);
    ReplaceIfOuter(t, SetsClockDivision(p), ckd, init.clockDivision, dirCms);
    assert ckd | dirCms == dirCms | ckd;
    AndNot16(cr1, dirCms | ckd);
  }

  /** A field replaced in a 16-bit register or copy: what
    * `reg &= (uint16_t)~mask; reg |= (uint16_t)v` leaves, since clearing
    * through `(uint16_t)~mask` keeps the low half of `w` less `mask`. */
  function Replace16(w: bv32, mask: bv32, v: bv32): (r: bv32)
    ensures r & !0xFFFF == 0
  {
    Replace(w & 0xFFFF, mask, v & 0xFFFF)
  }

  /** Truncating to 16 bits commutes with clearing a mask. */
  lemma AndNot16(x: bv32, mask: bv32)
    ensures AndNot(x & 0xFFFF, mask) == AndNot(x, mask) & 0xFFFF
  {
    var y := x & !mask;
    assert (x & 0xFFFF) & !mask == y & 0xFFFF;
  }

  /** `(uint16_t)~x`: the value `TIM_ClearFlag_mort` writes to SR. */
  function Not16(x: bv32): bv32
  {
    !x & 0xFFFF
  }

  /** Writing `Not16(flag)` writes 0 to the flag bits ... */
  lemma ClearFlagZeroes(flag: bv32)
    ensures Not16(flag) & flag == 0
  {
  }

  /** ... and 1, which leaves a flag of SR unchanged, to every other bit of
    * the 16-bit register. */
  lemma ClearFlagOnes(flag: bv32)
    ensures Not16(flag) | flag == 0xFFFF || flag > 0xFFFF
  {
  }

  /** `w & mask`. */
  function Keep(w: bv32, mask: bv32): bv32
  {
    w & mask
  }

  /** The SMCR value `TIM_ETRConfig_mort` writes. */
  function EtrSmcr(smcr: bv32, psc: bv32, pol: bv32, filter: bv32): bv32
  {
    Or(Keep(smcr, SmcrEtrMask), EtrBits(psc, pol, filter))
  }

  /** The slave-mode bits 0..7 are kept ... */
  lemma EtrKeepsLowByte(smcr: bv32, psc: bv32, pol: bv32, filter: bv32)
    requires IsExtPrescaler(psc) && IsExtPolarity(pol) && IsExtFilter(filter)
    ensures EtrSmcr(smcr, psc, pol, filter) & 0x00FF == smcr & 0x00FF
  {
    EtrBitsFields(psc, pol, filter);
  }

  /** ... and the high half of the word holds exactly the trigger settings,
    * each of which reads back. */
  lemma EtrSetsHighByte(smcr: bv32, psc: bv32, pol: bv32, filter: bv32)
    requires IsExtPrescaler(psc) && IsExtPolarity(pol) && IsExtFilter(filter)
    ensures EtrSmcr(smcr, psc, pol, filter) & !0x00FF == EtrBits(psc, pol, filter)
  {
    EtrBitsFields(psc, pol, filter);
  }

  /** The 16-bit `tmpsmcr` loses nothing: only the low byte of the old SMCR
    * is kept, and for valid settings the value has no bit in the high
    * half. */
  lemma EtrUpperHalfClear(smcr: bv32, psc: bv32, pol: bv32, filter: bv32)
    requires IsExtPrescaler(psc) && IsExtPolarity(pol) && IsExtFilter(filter)
    ensures EtrSmcr(smcr, psc, pol, filter) & !0xFFFF == 0
  {
    EtrBitsFields(psc, pol, filter);
  }

  /** The CCER polarity value of the encoder interface: IC1's polarity in
    * bits 0..3, IC2's in bits 4..7. */
  function EncoderPolarity(pol1: bv32, pol2: bv32): bv32
  {
    pol1 | (pol2 << 4)
  }

  /** The two valid polarities do not overlap and both read back. */
  lemma EncoderPolarityFields(pol1: bv32, pol2: bv32)
    requires IsIcPolarity(pol1) && IsIcPolarity(pol2)
    ensures EncoderPolarity(pol1, pol2) & 0x0F == pol1
    ensures EncoderPolarity(pol1, pol2) >> 4 == pol2
  {
  }

  /** The field masks `TIM_EncoderInterfaceConfig_mort` uses: SMS, CC1S,
    * CC2S, their input-selection values CC1S_0 and CC2S_0, CC1P and CC2P. */
  datatype EncoderMasks = EncoderMasks(sms: bv32, cc1s: bv32, cc2s: bv32, cc1s0: bv32, cc2s0: bv32,
                                       cc1p: bv32, cc2p: bv32)

  /** TIM_ICInitTypeDef_mort. In C every field is `uint16_t`; each is held
    * here as a 32-bit register value, so only values below 0x10000 stand
    * for a C struct. */
  datatype IcInitDef = IcInitDef(channel: bv32, polarity: bv32, selection: bv32, prescaler: bv32, filter: bv32)

  /** The calls `TIM_PWMIConfig_mort` makes: configure input 1 or 2 with a
    * polarity, selection and filter, or set its capture prescaler. */
  datatype InputStep =
    | TiConfig(input: nat, polarity: bv32, selection: bv32, filter: bv32)
    | SetIcPrescaler(input: nat, prescaler: bv32)

  /** Rising becomes Falling; any other polarity becomes Rising. */
  function OppositePolarity(pol: bv32): bv32
  {
    if pol == IcPolarityRising then IcPolarityFalling else IcPolarityRising
  }

  /** DirectTI becomes IndirectTI; any other selection becomes DirectTI. */
  function OppositeSelection(sel: bv32): bv32
  {
    if sel == IcSelectionDirect then IcSelectionIndirect else IcSelectionDirect
  }

  /** The partner input always gets a different polarity and a different
    * selection; on Rising/Falling and DirectTI/IndirectTI the exchange is
    * its own inverse. */
  lemma OppositeSpec(pol: bv32, sel: bv32)
    ensures OppositePolarity(pol) != pol && OppositeSelection(sel) != sel
    ensures IsIcPolarity(OppositePolarity(pol)) && IsIcSelection(OppositeSelection(sel))
    ensures pol == IcPolarityRising || pol == IcPolarityFalling ==> OppositePolarity(OppositePolarity(pol)) == pol
    ensures sel == IcSelectionDirect || sel == IcSelectionIndirect ==> OppositeSelection(OppositeSelection(sel)) == sel
  {
  }

  /** TIM_PWMIConfig_mort: the requested input first, then its partner with
    * the opposite polarity and selection, both with the same filter and
    * prescaler. */
  function PwmiSteps(ic: IcInitDef): seq<InputStep>
  {
    var first: nat := if ic.channel == Channel1 then 1 else 2;
    var second: nat := 3 - first;
    [TiConfig(first, ic.polarity, ic.selection, ic.filter), SetIcPrescaler(first, ic.prescaler),
     TiConfig(second, OppositePolarity(ic.polarity), OppositeSelection(ic.selection), ic.filter),
     SetIcPrescaler(second, ic.prescaler)]
  }

  /** Both inputs of the pair are configured, each once, the partner with
    * the other edge and the other input. */
  lemma PwmiPairs(ic: IcInitDef)
    ensures |PwmiSteps(ic)| == 4
    ensures {PwmiSteps(ic)[0].input, PwmiSteps(ic)[2].input} == {1, 2}
    ensures PwmiSteps(ic)[0].input == (if ic.channel == Channel1 then 1 else 2)
    ensures PwmiSteps(ic)[1].input == PwmiSteps(ic)[0].input && PwmiSteps(ic)[3].input == PwmiSteps(ic)[2].input
    ensures PwmiSteps(ic)[2].polarity != PwmiSteps(ic)[0].polarity
    ensures PwmiSteps(ic)[2].selection != PwmiSteps(ic)[0].selection
    ensures PwmiSteps(ic)[2].filter == PwmiSteps(ic)[0].filter == ic.filter
    ensures PwmiSteps(ic)[3].prescaler == PwmiSteps(ic)[1].prescaler == ic.prescaler
  {
    OppositeSpec(ic.polarity, ic.selection);
  }

  /** One timer instance, TIM_TypeDef_mort. */
  class Timer {
    const kind: Periph
    var cr1: bv32
    var smcr: bv32
    var dier: bv32
    var sr: bv32
    var egr: bv32
    var ccmr1: bv32
    var ccer: bv32
    var psc: bv32
    var arr: bv32
    var rcr: bv32
    var ccr1: bv32
    var ccr2: bv32
    var ccr3: bv32
    var ccr4: bv32

    constructor (kind: Periph)
      ensures this.kind == kind && cr1 == 0 && smcr == 0 && dier == 0 && sr == 0 && egr == 0 && ccmr1 == 0 && ccer == 0
      ensures psc == 0 && arr == 0 && rcr == 0 && ccr1 == 0 && ccr2 == 0 && ccr3 == 0 && ccr4 == 0
    {
      this.kind := kind;
      cr1, smcr, dier, sr, egr, ccmr1, ccer := 0, 0, 0, 0, 0, 0, 0;
      psc, arr, rcr, ccr1, ccr2, ccr3, ccr4 := 0, 0, 0, 0, 0, 0, 0;
    }

    /** The CR1 steps of TIM_TimeBaseInit_mort, on the 16-bit copy
      * `tmpcr1` of the register: the counter mode and then the clock
      * division are replaced on the timers that have them. */
    method TimeBaseControl(cr1v: bv32, init: TimeBaseInitDef, dirCms: bv32, ckd: bv32) returns (tmpcr1: bv32)
      ensures tmpcr1 == TimeBaseCr1(cr1v, kind, init, dirCms, ckd)
    {
      tmpcr1 := cr1v & 0xFFFF;
      if SetsCounterMode(kind) {
        tmpcr1 := Replace(tmpcr1, dirCms, init.counterMode);
      }
      if SetsClockDivision(kind) {
        tmpcr1 := Replace(tmpcr1, ckd, init.clockDivision);
      }
    }

    /** TIM_TimeBaseInit_mort. */
    method TimeBaseInit(init: TimeBaseInitDef, dirCms: bv32, ckd: bv32)
      requires IsCounterMode(init.counterMode) && IsClockDivision(init.clockDivision)
      modifies this`cr1, this`arr, this`psc, this`rcr, this`egr
      ensures cr1 == TimeBaseCr1(old(cr1), kind, init, dirCms, ckd)
      ensures arr == init.period && psc == init.prescaler && egr == PscReloadImmediate
      ensures rcr == if SetsRepetition(kind) then init.repetitionCounter else old(rcr)
    {
      var tmpcr1 := TimeBaseControl(cr1, init, dirCms, ckd);
      cr1 := tmpcr1;
      arr := init.period;
      psc := init.prescaler;
      if SetsRepetition(kind) {
        rcr := init.repetitionCounter;
      }
      egr := PscReloadImmediate;
    }

    /** TIM_Cmd_mort: set or clear the counter-enable bit `cen`. Clearing
      * goes through `(uint16_t)~cen`, which also clears the high half of
      * CR1. */
    method Cmd(enable: bool, cen: bv32)
      modifies this`cr1
      ensures enable ==> cr1 == Or(old(cr1), cen) && cr1 & cen == cen
      ensures !enable ==> cr1 == old(cr1) & (!cen & 0xFFFF) && cr1 & cen == 0
    {
      if enable {
        OrSets(cr1, cen);
        cr1 := Or(cr1, cen);
      } else {
        cr1 := cr1 & (!cen & 0xFFFF);
      }
    }

    /** TIM_SetCompare1_mort .. TIM_SetCompare4_mort. */
    method SetCompare1(compare: bv32)
      requires IsList1(kind)
      modifies this`ccr1
      ensures ccr1 == compare
    {
      ccr1 := compare;
    }

    method SetCompare2(compare: bv32)
      requires IsList2(kind)
      modifies this`ccr2
      ensures ccr2 == compare
    {
      ccr2 := compare;
    }

    method SetCompare3(compare: bv32)
      requires IsList3(kind)
      modifies this`ccr3
      ensures ccr3 == compare
    {
      ccr3 := compare;
    }

    method SetCompare4(compare: bv32)
      requires IsList3(kind)
      modifies this`ccr4
      ensures ccr4 == compare
    {
      ccr4 := compare;
    }

    /** TIM_CCxCmd_mort: replace the CCxE bit of `channel` by `ccx`. */
    method CCxCmd(channel: bv32, ccx: bv32)
      requires IsList1(kind) && IsChannel(channel) && IsCcx(ccx)
      modifies this`ccer
      ensures ccer == Replace16(old(ccer), CceSet << channel, ccx << channel)
    {
      var tmp := CceSet << channel;
      ccer := AndNot(ccer & 0xFFFF, tmp);
      ccer := Or(ccer, (ccx << channel) & 0xFFFF);
    }

    /** TIM_CCxNCmd_mort: replace the CCxNE bit of `channel` by `ccxn`. */
    method CCxNCmd(channel: bv32, ccxn: bv32)
      requires IsList4(kind) && IsComplementaryChannel(channel) && IsCcxn(ccxn)
      modifies this`ccer
      ensures ccer == Replace16(old(ccer), CcneSet << channel, ccxn << channel)
    {
      var tmp := CcneSet << channel;
      ccer := AndNot(ccer & 0xFFFF, tmp);
      ccer := Or(ccer, (ccxn << channel) & 0xFFFF);
    }

    /** TIM_ITConfig_mort: set or clear the interrupt-enable bits of the
      * 16-bit `it`; clearing goes through `(uint16_t)~it`. */
    method ITConfig(it: bv32, enable: bool)
      requires IsIt(it)
      modifies this`dier
      ensures dier == if enable then Or(old(dier), it & 0xFFFF) else old(dier) & (!it & 0xFFFF)
    {
      if enable {
        dier := Or(dier, it & 0xFFFF);
      } else {
        dier := dier & (!it & 0xFFFF);
      }
    }

    /** TIM_GetITStatus_mort: SET iff the source is both pending and enabled. */
    function GetITStatus(it: bv32): (set_: bool)
      requires IsGetIt(it)
      reads this
      ensures set_ <==> sr & dier & it != 0
    {
      var itstatus := sr & it;
      var itenable := dier & it;
      if itstatus != 0 && itenable != 0 then true else false
    }

    /** TIM_ClearFlag_mort. */
    method ClearFlag(flag: bv32)
      modifies this`sr
      ensures sr == Not16(flag)
    {
      sr := Not16(flag);
    }

    /** TIM_ClearITPendingBit_mort. */
    method ClearITPendingBit(it: bv32)
      modifies this`sr
      ensures sr == Not16(it)
    {
      sr := Not16(it);
    }

    /** TIM_ETRConfig_mort. */
    method ETRConfig(extPrescaler: bv32, extPolarity: bv32, extFilter: bv32)
      requires IsList3(kind) && IsExtPrescaler(extPrescaler) && IsExtPolarity(extPolarity) && IsExtFilter(extFilter)
      modifies this`smcr
      ensures smcr == EtrSmcr(old(smcr), extPrescaler, extPolarity, extFilter)
    {
      var tmpsmcr := smcr;
      tmpsmcr := Keep(tmpsmcr, SmcrEtrMask);
      tmpsmcr := Or(tmpsmcr, EtrBits(extPrescaler, extPolarity, extFilter));
      smcr := tmpsmcr;
    }

    /** TIM_EncoderInterfaceConfig_mort: the three registers are updated
      * through the 16-bit copies `tmpsmcr`, `tmpccmr1` and `tmpccer`, so
      * their high halves come back zero. Clearing a 16-bit copy through
      * `(uint16_t)~mask` is clearing `mask`, and clearing through the two
      * masks of a pair is clearing their union. */
    method EncoderInterfaceConfig(mode: bv32, pol1: bv32, pol2: bv32, m: EncoderMasks)
      requires IsList2(kind) && IsEncoderMode(mode) && IsIcPolarity(pol1) && IsIcPolarity(pol2)
      modifies this`smcr, this`ccmr1, this`ccer
      ensures smcr == Replace16(old(smcr), m.sms, mode)
      ensures ccmr1 == Replace16(old(ccmr1), m.cc1s | m.cc2s, m.cc1s0 | m.cc2s0)
      ensures ccer == Replace16(old(ccer), m.cc1p | m.cc2p, EncoderPolarity(pol1, pol2))
    {
      var tmpsmcr := smcr & 0xFFFF;
      var tmpccmr1 := ccmr1 & 0xFFFF;
      var tmpccer := ccer & 0xFFFF;
      tmpsmcr := AndNot(tmpsmcr, m.sms);
      tmpsmcr := Or(tmpsmcr, mode & 0xFFFF);
      tmpccmr1 := AndNot(tmpccmr1, m.cc1s | m.cc2s);
      tmpccmr1 := Or(tmpccmr1, (m.cc1s0 | m.cc2s0) & 0xFFFF);
      tmpccer := AndNot(tmpccer, m.cc1p | m.cc2p);
      tmpccer := Or(tmpccer, EncoderPolarity(pol1, pol2) & 0xFFFF);
      smcr := tmpsmcr;
      ccmr1 := tmpccmr1;
      ccer := tmpccer;
    }
  }

  /** The CCxE bit of the channel reads back `ccx` ... */
  lemma {:induction false} CcxEnableBit(ccer: bv32, channel: bv32, ccx: bv32)
    requires IsChannel(channel) && IsCcx(ccx)
    ensures (Replace16(ccer, CceSet << channel, ccx << channel) >> channel) & 1 == ccx
  {
    CcxSetsRaw(ccer, channel, ccx);
  }

  lemma CcxSetsRaw(ccer: bv32, channel: bv32, ccx: bv32)
    requires IsChannel(channel) && IsCcx(ccx)
    ensures ((((ccer & 0xFFFF) & !(CceSet << channel)) | ((ccx << channel) & 0xFFFF)) >> channel) & 1 == ccx
  {
  }

  /** ... and every other CCER bit of the low half is kept, while the high
    * half is cleared. */
  lemma {:induction false} CcxKeepsOthers(ccer: bv32, channel: bv32, ccx: bv32)
    requires IsChannel(channel) && IsCcx(ccx)
    ensures Replace16(ccer, CceSet << channel, ccx << channel) & !(CceSet << channel)
            == (ccer & !(CceSet << channel)) & 0xFFFF
  {
    CcxKeepsRaw(ccer, channel, ccx);
  }

  lemma CcxKeepsRaw(ccer: bv32, channel: bv32, ccx: bv32)
    requires IsChannel(channel) && IsCcx(ccx)
    ensures ((((ccer & 0xFFFF) & !(CceSet << channel)) | ((ccx << channel) & 0xFFFF)) & !(CceSet << channel))
            == (ccer & !(CceSet << channel)) & 0xFFFF
  {
  }

  /** The CCxNE bit of the channel reads back `ccxn` ... */
  lemma {:induction false} CcxnEnableBit(ccer: bv32, channel: bv32, ccxn: bv32)
    requires IsComplementaryChannel(channel) && IsCcxn(ccxn)
    ensures (Replace16(ccer, CcneSet << channel, ccxn << channel) >> channel) & CcneSet == ccxn
  {
    CcxnSetsRaw(ccer, channel, ccxn);
  }

  lemma CcxnSetsRaw(ccer: bv32, channel: bv32, ccxn: bv32)
    requires IsComplementaryChannel(channel) && IsCcxn(ccxn)
    ensures ((((ccer & 0xFFFF) & !(CcneSet << channel)) | ((ccxn << channel) & 0xFFFF)) >> channel) & CcneSet == ccxn
  {
  }

  /** ... and every other CCER bit of the low half is kept, while the high
    * half is cleared. */
  lemma {:induction false} CcxnKeepsOthers(ccer: bv32, channel: bv32, ccxn: bv32)
    requires IsComplementaryChannel(channel) && IsCcxn(ccxn)
    ensures Replace16(ccer, CcneSet << channel, ccxn << channel) & !(CcneSet << channel)
            == (ccer & !(CcneSet << channel)) & 0xFFFF
  {
    CcxnKeepsRaw(ccer, channel, ccxn);
  }

  lemma CcxnKeepsRaw(ccer: bv32, channel: bv32, ccxn: bv32)
    requires IsComplementaryChannel(channel) && IsCcxn(ccxn)
    ensures ((((ccer & 0xFFFF) & !(CcneSet << channel)) | ((ccxn << channel) & 0xFFFF)) & !(CcneSet << channel))
            == (ccer & !(CcneSet << channel)) & 0xFFFF
  {
  }

  /** Enabling and then disabling interrupt sources clears exactly those
    * sources (and the high half of DIER) ... */
  lemma ITConfigEnableDisable(dier: bv32, it: bv32)
    ensures Or(dier, it & 0xFFFF) & (!it & 0xFFFF) == dier & (!it & 0xFFFF)
  {
    OrKeeps(dier, it);
  }

  /** ... so it restores a 16-bit DIER when they were disabled before. */
  lemma ITConfigRestores(dier: bv32, it: bv32)
    requires dier & it == 0 && dier & !0xFFFF == 0
    ensures Or(dier, it & 0xFFFF) & (!it & 0xFFFF) == dier
  {
  }
}
