/**
 * NVIC and SCB configuration (mbed/stm32f446ze_misc.c, misc_mort.c).
 *
 * `NVICInit` and `NVIC_Init_mort` are the same code; both are modelled by
 * `Controller.Init`. The priority computation runs on `uint8_t` locals,
 * so every intermediate value is truncated to eight bits (`& 0xFF`).
 */
module Nvic {

  import opened Bits

  /** The write key of AIRCR. */
  const VectKey: bv32 := 0x05FA0000

  /** NVIC_PriorityGroup_k: PRIGROUP = 7 - k in AIRCR bits 10:8. */
  const PriorityGroup0: bv32 := 0x700
  const PriorityGroup1: bv32 := 0x600
  const PriorityGroup2: bv32 := 0x500
  const PriorityGroup3: bv32 := 0x400
  const PriorityGroup4: bv32 := 0x300

  /** NVIC_VectTab_RAM / NVIC_VectTab_FLASH. */
  const VectTabRam: bv32 := 0x20000000
  const VectTabFlash: bv32 := 0x08000000

  /** The VTOR bits an offset may occupy. */
  const VtorOffsetMask: bv32 := 0x1FFFFF80

  /** Number of IP bytes and of ISER/ICER words of the Cortex-M4 NVIC. */
  const IpCount: nat := 240
  const EnableWords: nat := 8

  /** `(0x700 - (AIRCR & 0x700)) >> 8`: the number of pre-emption priority
    * bits the current grouping gives. */
  function PreemptionBits(aircr: bv32): bv32
  {
    ((0x700 as bv32) - (aircr & 0x700)) >> 8
  }

  /** The count is seven minus the PRIGROUP field, hence at most 7. */
  lemma PreemptionBitsSpec(aircr: bv32)
    ensures PreemptionBits(aircr) == 7 - ((aircr >> 8) & 7)
  {
  }

  /** The byte `NVICInit` stores in IP for pre-emption priority `pre` and
    * subpriority `sub` under a grouping with `g` pre-emption bits: the
    * steps of the source on `uint8_t` values. */
  function PriorityByte(g: bv32, pre: bv32, sub: bv32): bv32
    requires g <= 4 && pre <= 0xFF && sub <= 0xFF
  {
    Byte(Or(Byte(pre << (4 - g)), sub & SubMask(g)) << 4)
  }

  /** A cast to `uint8_t`. */
  function Byte(x: bv32): bv32
  {
    x & 0xFF
  }

  /** `0x0F >> g`: the subpriority bits the grouping leaves. */
  function SubMask(g: bv32): bv32
    requires g <= 4
  {
    (0x0F as bv32) >> g
  }

  /** The priority computation of `NVICInit`, step by step on `uint8_t`
    * locals, for a grouping with `g` pre-emption bits. */
  method Priority(g: bv32, pre: bv32, sub: bv32) returns (tmppriority: bv32)
    requires g <= 4 && pre <= 0xFF && sub <= 0xFF
    ensures tmppriority == PriorityByte(g, pre, sub)
  {
    var tmppre := 4 - g;
    var tmpsub := SubMask(g);
    tmppriority := Byte(pre << tmppre);
    tmppriority := Or(tmppriority, sub & tmpsub);
    tmppriority := Byte(tmppriority << 4);
  }

  /** The priority fits a byte and its low nibble, which the Cortex-M4
    * does not implement, is zero. */
  lemma PriorityByteLowNibble(g: bv32, pre: bv32, sub: bv32)
    requires g <= 4 && pre <= 0xFF && sub <= 0xFF
    ensures PriorityByte(g, pre, sub) & 0x0F == 0
  {
  }

  /** Within the ranges of the priority table (pre < 2^g, sub < 2^(4-g))
    * both priorities can be read back from the stored byte: the top g bits
    * hold the pre-emption priority, the next 4-g the subpriority. */
  lemma {:induction false} PriorityRoundTrip(g: bv32, pre: bv32, sub: bv32)
    requires g <= 4 && pre < (1 as bv32) << g && sub < (1 as bv32) << (4 - g)
    ensures PriorityByte(g, pre, sub) >> (8 - g) == pre
    ensures (PriorityByte(g, pre, sub) >> 4) & ((0x0F as bv32) >> g) == sub
  {
    if g == 0 {
      assert PriorityByte(0, pre, sub) == sub << 4;
    } else if g == 1 {
      assert PriorityByte(1, pre, sub) == (pre << 7) | (sub << 4);
    } else if g == 2 {
      assert PriorityByte(2, pre, sub) == (pre << 6) | (sub << 4);
    } else if g == 3 {
      assert PriorityByte(3, pre, sub) == (pre << 5) | (sub << 4);
    } else {
      assert PriorityByte(4, pre, sub) == pre << 4;
    }
  }

  /** IS_NVIC_PRIORITY_GROUP: one of the five grouping constants. */
  predicate IsPriorityGroup(group: bv32)
  {
    group == PriorityGroup0 || group == PriorityGroup1 || group == PriorityGroup2 ||
    group == PriorityGroup3 || group == PriorityGroup4
  }

  /** The grouping NVIC_PriorityGroup_k writes gives exactly k pre-emption
    * bits, as the priority table of misc_mort.c documents. */
  lemma PriorityGroupBits()
    ensures PreemptionBits(VectKey | PriorityGroup0) == 0
    ensures PreemptionBits(VectKey | PriorityGroup1) == 1
    ensures PreemptionBits(VectKey | PriorityGroup2) == 2
    ensures PreemptionBits(VectKey | PriorityGroup3) == 3
    ensures PreemptionBits(VectKey | PriorityGroup4) == 4
  {
  }

  /** The IP index, ISER/ICER word and bit of an IRQ channel. */
  function EnableWord(channel: bv32): (i: nat)
    requires channel <= 0xFF
    ensures i < EnableWords
  {
    (channel >> 5) as nat
  }

  function EnableBit(channel: bv32): bv32
  {
    (1 as bv32) << (channel & 0x1F)
  }

  /** `NVIC_SetVectorTable_mort`'s VTOR value. */
  function VectorTable(tab: bv32, offset: bv32): bv32
  {
    tab | (offset & VtorOffsetMask)
  }

  /** For a table in RAM or FLASH and an offset that is 128-byte aligned and
    * below the FLASH base, the offset is VTOR with the base bit removed. */
  lemma VectorTableSpec(tab: bv32, offset: bv32)
    requires tab == VectTabRam || tab == VectTabFlash
    requires offset & 0x7F == 0 && offset < VectTabFlash
    ensures VectorTable(tab, offset) ^ tab == offset
  {
  }

  class Controller {
    var aircr: bv32
    var vtor: bv32
    var scr: bv32
    var ip: array<bv32>
    var iser: array<bv32>
    var icer: array<bv32>

    ghost predicate Valid()
      reads this
    {
      ip.Length == IpCount && iser.Length == EnableWords && icer.Length == EnableWords &&
      ip != iser && ip != icer && iser != icer
    }

    constructor (aircr0: bv32)
      ensures Valid() && fresh(ip) && fresh(iser) && fresh(icer)
      ensures aircr == aircr0 && vtor == 0 && scr == 0
    {
      aircr, vtor, scr := aircr0, 0, 0;
      ip := new bv32[IpCount](_ => 0);
      iser := new bv32[EnableWords](_ => 0);
      icer := new bv32[EnableWords](_ => 0);
    }

    /** NVIC_PriorityGroupConfig_mort. */
    method PriorityGroupConfig(group: bv32)
      requires IsPriorityGroup(group)
      modifies this`aircr
      ensures aircr == VectKey | group
    {
      aircr := VectKey | group;
    }

    /** NVICInit / NVIC_Init_mort. When enabling, the grouping must leave at
      * most four pre-emption bits (PRIGROUP >= 3), otherwise `4 - g` wraps
      * and the shift is undefined; disabling computes no priority. */
    method Init(channel: bv32, pre: bv32, sub: bv32, enable: bool)
      requires Valid() && channel as int < IpCount
      requires pre <= 0xFF && sub <= 0xFF && (enable ==> PreemptionBits(aircr) <= 4)
      modifies ip, iser, icer
      ensures enable ==> ip[..] == old(ip[..])[channel as int := PriorityByte(PreemptionBits(aircr), pre, sub)]
      ensures enable ==> iser[..] == old(iser[..])[EnableWord(channel) := EnableBit(channel)] && icer[..] == old(icer[..])
      ensures !enable ==> icer[..] == old(icer[..])[EnableWord(channel) := EnableBit(channel)]
      ensures !enable ==> ip[..] == old(ip[..]) && iser[..] == old(iser[..])
    {
      if enable {
        var tmppriority := Priority(PreemptionBits(aircr), pre, sub);
        ip[channel as int] := tmppriority;
        iser[EnableWord(channel)] := EnableBit(channel);
      } else {
        icer[EnableWord(channel)] := EnableBit(channel);
      }
    }

    /** NVIC_SetVectorTable_mort. */
    method SetVectorTable(tab: bv32, offset: bv32)
      modifies this`vtor
      ensures vtor == VectorTable(tab, offset)
    {
      vtor := tab | (offset & VtorOffsetMask);
    }

    /** NVIC_SystemLPConfig_mort: set or clear the given SCR bits. */
    method SystemLPConfig(lowPowerMode: bv32, enable: bool)
      requires lowPowerMode <= 0xFF
      modifies this`scr
      ensures scr == if enable then Or(old(scr), lowPowerMode) else AndNot(old(scr), lowPowerMode)
    {
      if enable {
        scr := Or(scr, lowPowerMode);
      } else {
        scr := AndNot(scr, lowPowerMode);
      }
    }
  }
}
