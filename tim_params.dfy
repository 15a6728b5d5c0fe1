/**
 * The parameter validators and constant tables of the timer driver
 * (stm32f4xx_tim_mort.h). Every `IS_TIM_*_MORT` macro is a predicate over
 * its argument; `uint16_t` arguments are `bv32` values.
 */
module TimParams {

  /** The timer instances TIM1 to TIM14. */
  datatype Periph = TIM1 | TIM2 | TIM3 | TIM4 | TIM5 | TIM6 | TIM7 | TIM8 | TIM9 | TIM10 | TIM11 | TIM12 | TIM13 | TIM14

  /** IS_TIM_LIST1_PERIPH_MORT: every timer but the basic TIM6 and TIM7. */
  predicate IsList1(p: Periph)
  {
    p == TIM1 || p == TIM2 || p == TIM3 || p == TIM4 || p == TIM5 || p == TIM8 ||
    p == TIM9 || p == TIM10 || p == TIM11 || p == TIM12 || p == TIM13 || p == TIM14
  }

  /** IS_TIM_LIST2_PERIPH_MORT: the timers with two or more channels. */
  predicate IsList2(p: Periph)
  {
    p == TIM1 || p == TIM2 || p == TIM3 || p == TIM4 || p == TIM5 || p == TIM8 || p == TIM9 || p == TIM12
  }

  /** IS_TIM_LIST3_PERIPH_MORT: the timers with four channels. */
  predicate IsList3(p: Periph)
  {
    p == TIM1 || p == TIM2 || p == TIM3 || p == TIM4 || p == TIM5 || p == TIM8
  }

  /** IS_TIM_LIST4_PERIPH_MORT: the advanced timers. */
  predicate IsList4(p: Periph)
  {
    p == TIM1 || p == TIM8
  }

  /** IS_TIM_LIST5_PERIPH_MORT: the timers with a master mode. */
  predicate IsList5(p: Periph)
  {
    p == TIM1 || p == TIM2 || p == TIM3 || p == TIM4 || p == TIM5 || p == TIM6 || p == TIM7 || p == TIM8
  }

  /** IS_TIM_LIST6_PERIPH_MORT: the timers with a remap option. */
  predicate IsList6(p: Periph)
  {
    p == TIM2 || p == TIM5 || p == TIM11
  }

  /** The lists are nested, LIST4 in LIST3 in LIST2 in LIST1, and LIST1 and
    * LIST5 together cover every timer (IS_TIM_ALL_PERIPH_MORT). */
  lemma ListsNested(p: Periph)
    ensures IsList4(p) ==> IsList3(p)
    ensures IsList3(p) ==> IsList2(p)
    ensures IsList2(p) ==> IsList1(p)
    ensures IsList3(p) ==> IsList5(p)
    ensures IsList1(p) || IsList5(p)
  {
  }

  /** Each inclusion is strict, and LIST5 and LIST1 differ exactly by the
    * basic timers. */
  lemma ListsStrict()
    ensures IsList3(TIM2) && !IsList4(TIM2)
    ensures IsList2(TIM9) && !IsList3(TIM9)
    ensures IsList1(TIM10) && !IsList2(TIM10)
    ensures IsList5(TIM6) && !IsList1(TIM6) && IsList5(TIM7) && !IsList1(TIM7)
  {
  }

  /** TIM_Channel_1_MORT .. TIM_Channel_4_MORT. */
  const Channel1: bv32 := 0x0000
  const Channel2: bv32 := 0x0004
  const Channel3: bv32 := 0x0008
  const Channel4: bv32 := 0x000C

  /** IS_TIM_CHANNEL_MORT. */
  predicate IsChannel(ch: bv32)
  {
    ch == Channel1 || ch == Channel2 || ch == Channel3 || ch == Channel4
  }

  /** IS_TIM_PWMI_CHANNEL_MORT. */
  predicate IsPwmiChannel(ch: bv32)
  {
    ch == Channel1 || ch == Channel2
  }

  /** IS_TIM_COMPLEMENTARY_CHANNEL_MORT. */
  predicate IsComplementaryChannel(ch: bv32)
  {
    ch == Channel1 || ch == Channel2 || ch == Channel3
  }

  /** The channel constants are the CCER bit offsets of the four channels:
    * `1 << ch` is the CCxE bit 0, 4, 8 or 12 and `4 << ch` the CCxNE bit
    * two places above it. */
  lemma ChannelBits(ch: bv32)
    requires IsChannel(ch)
    ensures (1 as bv32) << ch == 0x0001 || (1 as bv32) << ch == 0x0010 ||
            (1 as bv32) << ch == 0x0100 || (1 as bv32) << ch == 0x1000
    ensures (4 as bv32) << ch == ((1 as bv32) << ch) << 2
  {
  }

  /** TIM_CCx_Enable/Disable and TIM_CCxN_Enable/Disable. */
  const CcxEnable: bv32 := 0x0001
  const CcxnEnable: bv32 := 0x0004

  /** IS_TIM_CCX_MORT. */
  predicate IsCcx(ccx: bv32)
  {
    ccx == CcxEnable || ccx == 0x0000
  }

  /** IS_TIM_CCXN_MORT. */
  predicate IsCcxn(ccxn: bv32)
  {
    ccxn == CcxnEnable || ccxn == 0x0000
  }

  /** IS_TIM_CKD_DIV_MORT: TIM_CKD_DIV1, DIV2, DIV4. */
  predicate IsClockDivision(ckd: bv32)
  {
    ckd == 0x0000 || ckd == 0x0100 || ckd == 0x0200
  }

  const CounterModeUp: bv32 := 0x0000
  const ClockDivision1: bv32 := 0x0000

  /** IS_TIM_COUNTER_MODE_MORT: Up, Down and the three centre-aligned modes. */
  predicate IsCounterMode(mode: bv32)
  {
    mode == CounterModeUp || mode == 0x0010 || mode == 0x0020 || mode == 0x0040 || mode == 0x0060
  }

  /** The counter modes lie in bits 4..6 and the clock divisions in bits
    * 8..9, so the two fields of CR1 never overlap. */
  lemma CounterModeAndDivisionDisjoint(mode: bv32, ckd: bv32)
    requires IsCounterMode(mode) && IsClockDivision(ckd)
    ensures mode & !0x0070 == 0
    ensures ckd & !0x0300 == 0
  {
  }

  /** TIM_ICPolarity_Rising/Falling/BothEdge_MORT. */
  const IcPolarityRising: bv32 := 0x0000
  const IcPolarityFalling: bv32 := 0x0002
  const IcPolarityBothEdge: bv32 := 0x000A

  /** IS_TIM_IC_POLARITY_MORT. */
  predicate IsIcPolarity(pol: bv32)
  {
    pol == IcPolarityRising || pol == IcPolarityFalling || pol == IcPolarityBothEdge
  }

  /** TIM_ICSelection_DirectTI/IndirectTI/TRC_MORT. */
  const IcSelectionDirect: bv32 := 0x0001
  const IcSelectionIndirect: bv32 := 0x0002
  const IcSelectionTrc: bv32 := 0x0003

  /** IS_TIM_IC_SELECTION_MORT. */
  predicate IsIcSelection(sel: bv32)
  {
    sel == IcSelectionDirect || sel == IcSelectionIndirect || sel == IcSelectionTrc
  }

  /** IS_TIM_IT_MORT: a non-empty combination of interrupt sources, none in
    * the high byte. */
  predicate IsIt(it: bv32)
  {
    it & 0xFF00 == 0 && it != 0
  }

  /** IS_TIM_EVENT_SOURCE_MORT: the same test on event sources. */
  predicate IsEventSource(source: bv32)
  {
    source & 0xFF00 == 0 && source != 0
  }

  /** On 16-bit arguments both macros accept exactly the values 1..0xFF,
    * the non-empty combinations of the eight sources 0x01..0x80. */
  lemma ItRange(it: bv32)
    requires it <= 0xFFFF
    ensures IsIt(it) <==> 0 < it <= 0xFF
    ensures IsEventSource(it) <==> IsIt(it)
  {
  }

  /** IS_TIM_GET_IT_MORT: one of the eight interrupt sources. */
  predicate IsGetIt(it: bv32)
  {
    it == 0x01 || it == 0x02 || it == 0x04 || it == 0x08 ||
    it == 0x10 || it == 0x20 || it == 0x40 || it == 0x80
  }

  /** The sources `TIM_GetITStatus_mort` accepts are exactly the single bits
    * of the low byte, and each is a valid argument of `TIM_ITConfig_mort`. */
  lemma GetItSingleBit(it: bv32)
    ensures IsGetIt(it) <==> (it != 0 && it & (it - 1) == 0 && it <= 0x80)
    ensures IsGetIt(it) ==> IsIt(it)
  {
  }

  /** IS_TIM_DMA_SOURCE_MORT: a non-empty value with no bit of 0x80FF. */
  predicate IsDmaSource(source: bv32)
  {
    source & 0x80FF == 0 && source != 0
  }

  /** On 16-bit arguments that is exactly a non-empty combination of the
    * seven DMA sources TIM_DMA_Update (0x0100) .. TIM_DMA_Trigger (0x4000). */
  lemma DmaSourceRange(source: bv32)
    requires source <= 0xFFFF
    ensures IsDmaSource(source) <==> (source != 0 && source & !0x7F00 == 0)
  {
  }

  /** TIM_DMABurstLength_1Transfer_MORT .. TIM_DMABurstLength_18Transfers_MORT. */
  const BurstLengths: seq<bv32> :=
    [0x0000, 0x0100, 0x0200, 0x0300, 0x0400, 0x0500, 0x0600, 0x0700, 0x0800,
     0x0900, 0x0A00, 0x0B00, 0x0C00, 0x0D00, 0x0E00, 0x0F00, 0x1000, 0x1100]

  /** IS_TIM_DMA_LENGTH_MORT. */
  predicate IsDmaLength(len: bv32)
  {
    len in BurstLengths
  }

  /** The burst length of `n` transfers, n - 1 in bits 8..12. */
  function BurstLength(n: bv32): bv32
  {
    (n - 1) << 8
  }

  /** The table holds the burst length of n transfers at index n - 1 ... */
  lemma {:induction false} BurstLengthTable(n: nat)
    requires 1 <= n <= 18
    ensures BurstLengths[n - 1] == BurstLength(n as bv32)
  {
    if n <= 9 {
      if n == 1 {} else if n == 2 {} else if n == 3 {} else if n == 4 {} else if n == 5 {}
      else if n == 6 {} else if n == 7 {} else if n == 8 {} else {}
    } else {
      if n == 10 {} else if n == 11 {} else if n == 12 {} else if n == 13 {} else if n == 14 {}
      else if n == 15 {} else if n == 16 {} else if n == 17 {} else {}
    }
  }

  /** ... so every valid length is a multiple of 0x100 whose upper byte,
    * the transfer count minus one, is below 18 ... */
  lemma DmaLengthShape(len: bv32)
    requires IsDmaLength(len)
    ensures len & 0xFF == 0 && len >> 8 < 18
  {
  }

  /** ... and every such value is a valid length. */
  lemma {:induction false} DmaLengthComplete(len: bv32)
    requires len & 0xFF == 0 && len >> 8 < 18
    ensures IsDmaLength(len)
  {
    var k := len >> 8;
    assert len == k << 8;
    if k < 9 {
      assert BurstLengths[k as int] == len;
    } else {
      assert BurstLengths[k as int] == len;
    }
  }

  /** TIM_ExtTRGPSC_OFF .. DIV8. */
  predicate IsExtPrescaler(psc: bv32)
  {
    psc == 0x0000 || psc == 0x1000 || psc == 0x2000 || psc == 0x3000
  }

  /** TIM_ExtTRGPolarity_Inverted / NonInverted. */
  predicate IsExtPolarity(pol: bv32)
  {
    pol == 0x8000 || pol == 0x0000
  }

  /** IS_TIM_IC_FILTER_MORT. */
  predicate IsIcFilter(f: bv32)
  {
    f <= 0xF
  }

  /** IS_TIM_EXT_FILTER_MORT. */
  predicate IsExtFilter(f: bv32)
  {
    f <= 0xF
  }

  /** The external trigger settings `TIM_ETRConfig_mort` ORs into SMCR:
    * prescaler, polarity and the filter in bits 8..11. */
  function EtrBits(psc: bv32, pol: bv32, filter: bv32): bv32
  {
    psc | (pol | (filter << 8))
  }

  /** For valid settings the three fields land in disjoint bit ranges of the
    * high byte, so each can be read back from the combined value. */
  lemma EtrBitsFields(psc: bv32, pol: bv32, filter: bv32)
    requires IsExtPrescaler(psc) && IsExtPolarity(pol) && IsExtFilter(filter)
    ensures EtrBits(psc, pol, filter) & 0x00FF == 0
    ensures EtrBits(psc, pol, filter) & 0x3000 == psc
    ensures EtrBits(psc, pol, filter) & 0x8000 == pol
    ensures (EtrBits(psc, pol, filter) >> 8) & 0xF == filter
  {
  }

  /** TIM_EncoderMode_TI1/TI2/TI12_MORT. */
  predicate IsEncoderMode(mode: bv32)
  {
    mode == 0x0001 || mode == 0x0002 || mode == 0x0003
  }

  /** IS_TIM_IC_PRESCALER_MORT: TIM_ICPSC_DIV1 .. DIV8. */
  predicate IsIcPrescaler(psc: bv32)
  {
    psc == 0x0000 || psc == 0x0004 || psc == 0x0008 || psc == 0x000C
  }
}
