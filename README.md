# haptic-hand in Dafny

A Dafny model of the logic at the core of the haptic-hand repository. The repository holds two programs.

- **Haplink**, the firmware of an STM32F446ZE board that drives a haptic hand, and the register drivers beneath it.
  - The drivers cover GPIO, SYSCFG, EXTI, NVIC, the system control block and TIM.
  - The firmware covers the quadrature encoders, the host protocol and its serial framing, the PWM motor and vibration outputs, the position conversions and Jacobians, and the spring force laws.
- **Shapes3D**, the Processing library the host sketch draws the hand with.
  - Geometry: the ear-clipping triangulator, the Bézier curve, the paths, contours and scales, and the mesh grids of Extrusion, Ellipsoid, Box, SkyBox and Terrain.
  - Bookkeeping: the pick-colour and part-flag bookkeeping of Shape3D and ShapeGroup.
  - The MD2 model loader and the model data it builds.

Each source file is one Dafny module in its own file, and the modules follow the source's own form.

- Hardware registers are `bv32` or `bv16` fields of a class. Every read-modify-write is a method, and its `ensures` states the new register as a field-replace function of the old one. Lemmas about those functions prove that only the named field changes.
- Firmware globals are fields of a class per source file. The step of each interrupt handler or command is a method on it.
- Java objects whose fields are updated in place are classes: the Bézier curve, the shapes, the registry of pick colours, the MD2 buffer and model.
  - Grids filled by nested loops are `array2`s, built by loop methods that are proved against a function giving every entry.
  - Pure expressions are functions: paths, scales, the crop offsets and the overlap of two boxes.
- `float` and `double` are reals. `sin`, `cos` and `sqrt` are a `Maths` parameter, and lemmas assume only the facts they need, such as `cos 0 = 1` and `|sin| ≤ 1`.
- Orientations and the rotation built from a path's frame are function parameters, because their classes are not part of this model.
- C and Java integer widths appear where they matter: 32-bit pick colours and flags, unsigned and signed bytes and shorts, and the `(int)` and `uint16_t` casts.

## Model

| member | source | states |
|---|---|---|
| Gpio.PinPosition | stm32f446ze_gpio.c:14-23 | the position derived from a pin mask is below 32, and the mask shifted right by it is 1 (0 for the empty mask): the index of the highest set bit |
| Gpio.PinPositionOfOneHot | stm32f446ze_gpio.c:14-23 | a single-pin mask `1 << k` has position k |
| Gpio.PinPositionBelow16 | stm32f446ze_gpio.c:14-23 | every 16-pin mask has a position 0..15, so every shift in GPIOInit stays inside the word |
| Gpio.FindPinPosition | stm32f446ze_gpio.c:17-23 | the `while (pin > 0)` shift loop computes exactly the highest-set-bit position |
| Gpio.SetField2Spec | stm32f446ze_gpio.c:25-38 | a 2-bit register field replaced at `2·pinpos` reads back the new value and every other bit is kept |
| Gpio.SetBitSpec | stm32f446ze_gpio.c:34-35 | OTYPER's bit `pinpos` reads back the new value and every other bit is kept |
| Gpio.Port.Init | stm32f446ze_gpio.c:8-39 | GPIOInit replaces the MODER, OSPEEDR and PUPDR fields and the OTYPER bit of the pin's position, and changes no other register |
| Gpio.AfrIndex | stm32f446ze_gpio.c:48 | `source >> 3` picks AFR[0] for pins 0..7 and AFR[1] for pins 8..15 |
| Gpio.AfrSlot | stm32f446ze_gpio.c:47 | `source & 7` is a nibble slot 0..7 |
| Gpio.SetField4Spec | stm32f446ze_gpio.c:47-50 | a 4-bit field replaced at `4·slot` reads back the new value and every other bit is kept |
| Gpio.Port.PinAFConfig | stm32f446ze_gpio.c:41-51 | the pin's nibble of AFR[source >> 3] is replaced and the other AFR word is untouched |
| Gpio.Port.SetBits | stm32f446ze_gpio.c:54-57 | the mask is written to BSRRL, the port sets exactly those ODR bits (`Or`), and no other register changes |
| Gpio.Port.ClearBits | stm32f446ze_gpio.c:59-62 | the mask is written to BSRRH, the port clears exactly those ODR bits (`AndNot`), and no other register changes |
| Gpio.Port.Write | stm32f446ze_gpio.c:64-67 | ODR takes the port value and nothing else changes |
| Gpio.Port.Toggle | stm32f446ze_gpio.c:69-72 | ODR becomes `ODR ^ mask` and nothing else changes |
| Gpio.ToggledSpec | stm32f446ze_gpio.c:69-72 | the masked output bits flip and the others keep their level |
| Gpio.ToggleTwice | stm32f446ze_gpio.c:69-72 | toggling the same mask twice restores ODR |
| Gpio.Port.ReadInputDataBit | stm32f446ze_gpio.c:74-82 | the result is 0 or 1, and 1 exactly when some masked IDR bit is set |
| Gpio.ReadOneHot | stm32f446ze_gpio.c:74-82 | reading through the one-hot mask of pin k gives bit k of IDR |
| Gpio.Port.ReadInputData | stm32f446ze_gpio.c:84-87 | the result is the low 16 bits of IDR |
| Syscfg.ExticrIndex | stm32f446ze_syscfg.c:10 | `pin >> 2` names one of the four EXTICR words |
| Syscfg.ExticrSlot | stm32f446ze_syscfg.c:9 | `pin & 3` names one of the four nibbles of the word |
| Syscfg.SelectPortSpec | stm32f446ze_syscfg.c:9-11 | for a port number of at most four bits the line's nibble reads back the port and no other bit of the word changes |
| Syscfg.SelectPortOverwrites | stm32f446ze_syscfg.c:9-11 | a second selection overwrites the first, so selecting the same port twice equals selecting it once |
| Syscfg.Controller.ExtiLineConfig | stm32f446ze_syscfg.c:4-12 | only EXTICR[pin >> 2] changes, by the nibble update of slot `pin & 3` |
| Syscfg.RouteReadBack | stm32f446ze_syscfg.c:4-12 | after routing, the line reads back the port and every other line keeps the port it had |
| Syscfg.OtherNibbleKept | stm32f446ze_syscfg.c:9-11 | the update leaves every other nibble of the word as it was |
| Exti.AssignSets | mbed/stm32f446ze_exti.c:12-35 | clearing then optionally setting the line bits leaves them all set or all clear |
| Exti.AssignKeeps | mbed/stm32f446ze_exti.c:12-35 | no bit outside the line mask changes |
| Exti.ApplyKeepsOthers | mbed/stm32f446ze_exti.c:9-37 | enabling changes no bit of another line and leaves SWIER and PR alone |
| Exti.EnabledSpec | mbed/stm32f446ze_exti.c:9-37 | enabling unmasks the line in exactly the register the mode names (IMR for interrupt, EMR for event), clears it in the other, and arms exactly the edges the trigger names (both for rising-falling) |
| Exti.MaskIfClears | mbed/stm32f446ze_exti.c:40-43 | disabling clears the line bits of the mode's register |
| Exti.MaskIfKeeps | mbed/stm32f446ze_exti.c:40-43 | disabling changes no other bit of that register |
| Exti.MaskKeepsOthers | mbed/stm32f446ze_exti.c:38-44 | disabling changes no bit of another line |
| Exti.DisabledSpec | mbed/stm32f446ze_exti.c:38-44 | disabling masks the line only in the mode's register; the other mask register and both edge registers are untouched |
| Exti.Controller.OrAt | mbed/stm32f446ze_exti.c:15-17 | `*(base + offset) \|= line` sets the line bits in exactly the register at that byte offset |
| Exti.Controller.AndNotAt | mbed/stm32f446ze_exti.c:40-43 | `*(base + offset) &= ~line` clears the line bits in exactly the register at that byte offset |
| Exti.Controller.Unmask | mbed/stm32f446ze_exti.c:12-17 | IMR and EMR lose the line bits and the register the mode names gets them back, so the line is unmasked in exactly that register; no other register changes |
| Exti.Controller.Arm | mbed/stm32f446ze_exti.c:20-35 | RTSR and FTSR lose the line bits and the edge registers the trigger names get them back (both for rising-falling); no other register changes |
| Exti.Controller.Init | mbed/stm32f446ze_exti.c:3-45 | EXTIInit leaves the block as the enabled or disabled configuration above |
| Exti.Controller.GetITStatus | mbed/stm32f446ze_exti.c:47-61 | SET exactly when some bit of the line is pending in PR |
| Exti.Controller.ClearITPendingBit | mbed/stm32f446ze_exti.c:63-67 | the line mask is written to the write-1-to-clear PR: the line's pending bits are cleared, every other PR bit is kept, and no other register changes |
| Exti.ClearKeepsOthers | mbed/stm32f446ze_exti.c:63-67 | after the clear the line is not pending, and a line with no bit in common with it is exactly as pending as before |
| Nvic.PreemptionBitsSpec | mbed/stm32f446ze_misc.c:14 | the pre-emption bit count is seven minus AIRCR's PRIGROUP field |
| Nvic.Priority | mbed/stm32f446ze_misc.c:14-21 | the step-by-step `uint8_t` computation gives the priority byte `((pre << (4 - g)) \| (sub & (0xF >> g))) << 4` |
| Nvic.PriorityByteLowNibble | mbed/stm32f446ze_misc.c:18-23 | the stored priority fits a byte and its low nibble is zero |
| Nvic.PriorityRoundTrip | misc_mort.c:24-41 | within the grouping table's ranges both the pre-emption priority and the subpriority can be read back from the stored byte |
| Nvic.PriorityGroupBits | misc_mort.c:24-41 | each NVIC_PriorityGroup_k constant written to AIRCR gives exactly k pre-emption bits, as the table documents |
| Nvic.EnableWord | mbed/stm32f446ze_misc.c:26-27 | `channel >> 5` indexes one of the ISER/ICER words |
| Nvic.Controller.Init | mbed/stm32f446ze_misc.c:5-34 | enabling stores the priority byte in IP[channel] and writes `1 << (channel & 31)` to ISER[channel >> 5]; disabling writes that bit to ICER and leaves IP and ISER untouched (NVIC_Init_mort in misc_mort.c does the same) |
| Nvic.Controller.PriorityGroupConfig | misc_mort.c:118-125 | AIRCR becomes `0x05FA0000 \| group` |
| Nvic.VectorTableSpec | misc_mort.c:180-187 | for a RAM or FLASH table and a 128-byte aligned offset below the FLASH base, VTOR is the table base combined with the offset, and removing the base gives the offset back |
| Nvic.Controller.SetVectorTable | misc_mort.c:180-187 | VTOR becomes `tab \| (offset & 0x1FFFFF80)` |
| Nvic.Controller.SystemLPConfig | misc_mort.c:199-213 | the given SCR bits are set when enabling and cleared otherwise; no other bit changes |
| TimParams.ListsNested | stm32f4xx_tim_mort.h:175-234 | the peripheral lists are nested: LIST4 within LIST3 within LIST2 within LIST1, LIST3 within LIST5, and every timer is in LIST1 or LIST5 |
| TimParams.ListsStrict | stm32f4xx_tim_mort.h:190-230 | the nesting is strict: TIM2 is in LIST3 but not LIST4, TIM9 in LIST2 but not LIST3, TIM10 in LIST1 but not LIST2, TIM6 and TIM7 in LIST5 only |
| TimParams.ChannelBits | stm32f4xx_tim_mort.h:280-283 | the channel constants 0, 4, 8, 12 make `1 << ch` the CCxE bits 0x0001, 0x0010, 0x0100, 0x1000, and `4 << ch` the CCxNE bit two above |
| TimParams.CounterModeAndDivisionDisjoint | stm32f4xx_tim_mort.h:306-328 | every valid counter mode lies in the DIR/CMS bits 0x0070 and every valid clock division in the CKD bits 0x0300 |
| TimParams.ItRange | stm32f4xx_tim_mort.h:561 | on 16-bit values IS_TIM_IT holds exactly for the non-zero values below 0x100, and IS_TIM_EVENT_SOURCE (line 802) holds for the same values |
| TimParams.GetItSingleBit | stm32f4xx_tim_mort.h:563-570 | IS_TIM_GET_IT holds exactly for the single bits 0x01..0x80, each of which IS_TIM_IT accepts |
| TimParams.DmaSourceRange | stm32f4xx_tim_mort.h:678 | on 16-bit values IS_TIM_DMA_SOURCE holds exactly for non-zero values with no bit in 0x80FF |
| TimParams.BurstLengthTable | stm32f4xx_tim_mort.h:627-644 | the burst length constant for n transfers is `(n - 1) << 8`, for n = 1..18 |
| TimParams.DmaLengthShape | stm32f4xx_tim_mort.h:645-662 | every valid DMA length has a zero low byte and a high byte below 18 ... |
| TimParams.DmaLengthComplete | stm32f4xx_tim_mort.h:645-662 | ... and every such value is a valid DMA length |
| TimParams.EtrBitsFields | stm32f4xx_tim_mort.c:3027-3028 | for valid arguments `psc \| pol \| (filter << 8)` has a zero low byte and the prescaler, polarity and filter each read back from their own field |
| Tim.DefaultTimeBase | stm32f4xx_tim_mort.c:340-348 | the default time base is period 0xFFFFFFFF, prescaler 0, repetition 0, counting up, clock division 1, and these are valid settings |
| Tim.TimeBaseSelections | stm32f4xx_tim_mort.c:298-325 | the counter mode is written exactly for the LIST3 timers (TIM1-5, TIM8), the clock division for the LIST1 timers (all but TIM6/7), the repetition counter for the LIST4 timers (TIM1, TIM8) |
| Tim.TimeBaseCounterMode | stm32f4xx_tim_mort.c:298-305 | for the timers that take it, CR1's DIR/CMS field reads back the counter mode |
| Tim.TimeBaseCounterModeKept | stm32f4xx_tim_mort.c:298-305 | for the other timers the DIR/CMS field is kept |
| Tim.TimeBaseClockDivision | stm32f4xx_tim_mort.c:307-312 | for all but TIM6/7 the CKD field reads back the clock division |
| Tim.TimeBaseBasicTimer | stm32f4xx_tim_mort.c:298-314 | CR1 of TIM6 and TIM7 is written back through the 16-bit `tmpcr1`: its low half unchanged, its high half cleared |
| Tim.TimeBaseCr1Keeps | stm32f4xx_tim_mort.c:298-314 | no CR1 bit outside DIR/CMS and CKD changes in the low half, and the high half is cleared by the 16-bit `tmpcr1` |
| Tim.Timer.TimeBaseControl | stm32f4xx_tim_mort.c:296-312 | the `tmpcr1` read-modify-write computes the new CR1 from the 16-bit copy of the old one |
| Tim.Timer.TimeBaseInit | stm32f4xx_tim_mort.c:288-332 | CR1 gets the selected fields, ARR the period, PSC the prescaler, EGR the immediate reload, and RCR the repetition counter only on TIM1/TIM8 |
| Tim.Timer.Cmd | stm32f4xx_tim_mort.c:592-608 | enabling ORs the CEN mask into CR1 so it reads back set; disabling ANDs with the 16-bit complement, clearing CEN and the high half |
| Tim.Timer.SetCompare1 | stm32f4xx_tim_mort.c:1060-1067 | CCR1 takes the compare value |
| Tim.Timer.SetCompare2 | stm32f4xx_tim_mort.c:1076-1083 | CCR2 takes the compare value |
| Tim.Timer.SetCompare3 | stm32f4xx_tim_mort.c:1091-1098 | CCR3 takes the compare value |
| Tim.Timer.SetCompare4 | stm32f4xx_tim_mort.c:1106-1113 | CCR4 takes the compare value |
| Tim.Timer.CCxCmd | stm32f4xx_tim_mort.c:1786-1802 | CCER goes through the `uint16_t` casts: bit `1 << ch` is replaced by `ccx << ch` in the low half and the high half is cleared |
| Tim.Replace16 | stm32f4xx_tim_mort.c:1795-1801 | a `uint16_t` read-modify-write leaves nothing above bit 15 |
| Tim.CcxEnableBit | stm32f4xx_tim_mort.c:1786-1802 | the channel's enable bit reads back the requested state |
| Tim.CcxKeepsOthers | stm32f4xx_tim_mort.c:1786-1802 | no other CCER bit of the low half changes |
| Tim.Timer.CCxNCmd | stm32f4xx_tim_mort.c:1816-1832 | CCER goes through the `uint16_t` casts: bit `4 << ch` is replaced by `ccxn << ch` in the low half and the high half is cleared |
| Tim.CcxnEnableBit | stm32f4xx_tim_mort.c:1816-1832 | the complementary enable bit reads back the requested state |
| Tim.CcxnKeepsOthers | stm32f4xx_tim_mort.c:1816-1832 | no other CCER bit of the low half changes |
| Tim.OppositeSpec | stm32f4xx_tim_mort.c:1983-2000 | the opposite polarity and selection always differ from the given ones, are valid values, and undo themselves for rising/falling and direct/indirect |
| Tim.PwmiPairs | stm32f4xx_tim_mort.c:1975-2025 | PWM input configures four steps: the requested channel's input with the given polarity and selection, then the other input with the opposite ones, both with the same filter and prescaler |
| Tim.Timer.ITConfig | stm32f4xx_tim_mort.c:2372-2389 | the sources' low 16 bits are ORed into DIER when enabling; disabling ANDs with their 16-bit complement, which also clears the high half |
| Tim.ITConfigEnableDisable | stm32f4xx_tim_mort.c:2372-2389 | enabling then disabling a source leaves what disabling alone leaves |
| Tim.ITConfigRestores | stm32f4xx_tim_mort.c:2372-2389 | enabling then disabling a source that was off restores a 16-bit DIER |
| Tim.Timer.GetITStatus | stm32f4xx_tim_mort.c:2513-2533 | SET exactly when the interrupt bit is set in both SR and DIER |
| Tim.Timer.ClearFlag | stm32f4xx_tim_mort.c:2485-2492 | SR takes the 16-bit complement of the flag |
| Tim.ClearFlagZeroes | stm32f4xx_tim_mort.c:2485-2492 | the written word clears the flag's own bits ... |
| Tim.ClearFlagOnes | stm32f4xx_tim_mort.c:2485-2492 | ... and writes 1 to every other bit of the 16-bit register, so no other flag is cleared |
| Tim.Timer.ClearITPendingBit | stm32f4xx_tim_mort.c:2554-2561 | SR takes the 16-bit complement of the interrupt bit |
| Tim.Timer.ETRConfig | stm32f4xx_tim_mort.c:3012-3033 | SMCR keeps its low byte and takes the ETR settings |
| Tim.EtrKeepsLowByte | stm32f4xx_tim_mort.c:3024-3028 | SMCR's low byte is kept |
| Tim.EtrSetsHighByte | stm32f4xx_tim_mort.c:3024-3028 | the bits above the low byte are exactly `psc \| pol \| (filter << 8)` |
| Tim.EtrUpperHalfClear | stm32f4xx_tim_mort.c:3023-3031 | the 16-bit `tmpsmcr` leaves SMCR's high half clear |
| Tim.Timer.EncoderInterfaceConfig | stm32f4xx_tim_mort.c:3070-3112 | through the 16-bit temporaries, SMS takes the encoder mode, CC1S/CC2S select inputs TI1/TI2, CC1P/CC2P take the two polarities; other low-half bits are kept and the high halves cleared |
| Tim.EncoderPolarityFields | stm32f4xx_tim_mort.c:3103 | `pol1 \| (pol2 << 4)` holds each polarity in its own nibble |
| Encoders.MovedIffOneChannel | haplink_encoders.c:462-474 | the ISR's movement test fires, and the count changes, exactly when one of the two channels changed level and the other did not |
| Encoders.Phase | haplink_encoders.c:462-474 | each pair of channel levels has a Gray-code phase in 0..3 |
| Encoders.DeltaPhase | haplink_encoders.c:462-474 | the ISR adds +1 exactly for a forward quarter step of the Gray phase, -1 exactly for a backward one, and 0 exactly when the phase did not move by one |
| Encoders.ReverseCancels | haplink_encoders.c:462-474 | stepping from one reading to another and back leaves the count where it started |
| Encoders.TotalFollowsPhase | haplink_encoders.c:453-589 | over any run of interrupts without a missed double flip, the accumulated count agrees modulo 4 with the phase travelled from the first to the last reading |
| Encoders.StepPhase | haplink_encoders.c:462-474 | for one interrupt that flips at most one channel, the count change equals the phase change modulo 4 |
| Encoders.GrayCycle | haplink_encoders.c:462-474 | four forward quarter steps bring the channels back to where they were and add exactly 4 counts |
| Encoders.NextForward | haplink_encoders.c:462-474 | the forward Gray successor of a reading is a valid reading and counts as +1 |
| Encoders.Quadrature.constructor | haplink_encoders.c:224-245 | the first reading of both channels becomes both the previous and current levels, the count and the changed flag start at 0 |
| Encoders.Quadrature.Reset | haplink_encoders.c:224-245 | re-initialising reads both channels again and zeroes the count and the changed flag |
| Encoders.Quadrature.Update | haplink_encoders.c:460-477 | one interrupt adds the quadrature delta of the old and new levels to the count, raises the changed flag when the encoder moved, and stores the new levels as previous |
| Encoders.Quadrature.Counts | haplink_encoders.c:421-444 | the getter returns the accumulated count |
| Encoders.MotorOf | haplink_encoders.c:457-589 | EXTI lines 13/12 serve motor 1, 15/14 motor 2 and 11/10 motor 3 |
| Encoders.FirstPending | haplink_encoders.c:457-589 | the `else if` chain picks a line whose pending bit is set, or none (6) |
| Encoders.FirstPendingIsFirst | haplink_encoders.c:457-589 | every line examined before the chosen one had no pending bit: the chain takes the first pending line in its order |
| Encoders.PendingLine | haplink_encoders.c:457-568 | the sequence of `EXTI_GetITStatus` tests finds exactly the first pending line of the chain |
| Encoders.Encoders.constructor | haplink_encoders.c:74-93 | the three per-motor decoders are distinct objects |
| Encoders.Encoders.Init2 | haplink_encoders.c:126-142 | the two-motor init samples both encoders and zeroes their counts and flags |
| Encoders.Encoders.Init3 | haplink_encoders.c:333-354 | the three-motor init samples all three encoders and zeroes their counts and flags |
| Encoders.Encoders.Step | haplink_encoders.c:457-589 | the branch for motor m adds that motor's quadrature delta to its count, stores the new pin levels as its previous levels, sets its changed flag to 1 exactly when the levels moved (else keeps it), and leaves the other two motors untouched |
| Encoders.Encoders.Irq | haplink_encoders.c:453-589 | one interrupt serves only the first pending line: that motor's count moves by the quadrature delta, its previous pin levels become the levels read and its changed flag is set to 1 exactly when they moved, the other motors are unchanged, that line is no longer pending, the other five lines keep their pending state, and the next interrupt will serve the first pending line after it |
| Encoders.ClearedLine | haplink_encoders.c:457-589 | clearing one of the six lines leaves it not pending and keeps the pending state of the other five |
| Encoders.FirstPendingAgrees | haplink_encoders.c:457-589 | two pending registers that agree on the lines from some position on make the chain pick the same line from there |
| Encoders.NextIrqServesNext | haplink_encoders.c:457-589 | once the served line is cleared, the chain's first pending line is the first pending line after the served one |
| Encoders.ServedLine | haplink_encoders.c:457-589 | clearing the served line: it is no longer pending, the others are unchanged, and the next line served is the first pending one after it |
| Communication.FixedPoint | haplink_communication.c:161-168 | the packed position is a 16-bit value |
| Communication.FixedPointSpec | haplink_communication.c:161-168 | a non-negative offset position packs to the floor of 100·(x+offset); a negative one is clamped to 0 |
| Communication.Word | haplink_communication.c:109-111 | two received bytes, most significant first, form a 16-bit word |
| Communication.WordRoundTrip | haplink_communication.c:109-111 | splitting a 16-bit value into MSB and LSB and joining them gives it back, and the other way round |
| Communication.XHFrame | haplink_communication.c:156-173 | the 1-DOF frame is 4 bytes, starting with `p` and ending with `l` |
| Communication.RxRyFrame | haplink_communication.c:175-206 | the 2-DOF frame is 6 bytes, starting with `p` and ending with `l` |
| Communication.UnfixFixedPoint | haplink_communication.c:109-113 | decoding a packed position gives back the position to within 0.01 below, or the lower clamp |
| Communication.XHRoundTrip | haplink_communication.c:106-114 | a 1-DOF frame built by the sender and decoded by the receiver yields the sender's xH to within 0.01 (or -90 when xH was below it) |
| Communication.RxRyRoundTrip | haplink_communication.c:115-129 | a 2-DOF frame built by the sender and decoded by the receiver yields rx and ry each to within 0.01 |
| Communication.PackXH | haplink_communication.c:156-173 | the method writes exactly the 1-DOF frame into the first 4 bytes of the buffer and nothing else |
| Communication.PackRxRy | haplink_communication.c:175-206 | the method writes exactly the 2-DOF frame into the first 6 bytes of the buffer and nothing else |
| Communication.ReturnCodeSpec | haplink_communication.c:64-105 | the return code is -1 exactly for an unknown first byte, and the known codes are distinct |
| Communication.MotorCommandSpec | haplink_communication.c:80-105 | a duty command is issued exactly for `m1`/`m2` followed by `0` or `1`, to the named motor with duty 0 or 0.25 |
| Communication.Link.constructor | haplink_communication.c:46-52 | a new link is in the reset state with no tele position received |
| Communication.Link.Reset | haplink_communication.c:46-52 | reset sets acknowledged, and clears seen-life and both request flags |
| Communication.Link.Decode | haplink_communication.c:62-139 | decoding sets seen-life, sets acknowledged on `1`, data-requested on `3`, increments the tele request counter on `p`/`t`, stores the decoded tele position on `p`, and returns the message code and motor command |
| Communication.Link.TelePosition | haplink_communication.c:141-144 | returns the last decoded 1-DOF tele position |
| Communication.Link.RxTele | haplink_communication.c:146-149 | returns the last decoded tele rx |
| Communication.Link.RyTele | haplink_communication.c:151-154 | returns the last decoded tele ry |
| Communication.Link.ClearMessageAcknowledged | haplink_communication.c:230-233 | clears only the acknowledged flag |
| Communication.Link.ClearSeenLifeFromComputer | haplink_communication.c:235-238 | clears only the seen-life flag |
| Communication.Link.ClearDataHasBeenRequested | haplink_communication.c:240-243 | clears only the data-requested flag |
| Communication.Link.ClearTeleOperationHasBeenRequested | haplink_communication.c:245-248 | clears only the tele request counter |
| SerialLink.IndexOf | debug_mort.cpp:291-296 | the index found holds the terminator and no earlier byte does |
| SerialLink.Parse | debug_mort.cpp:265-304 | a received message stores a prefix of the input, fits the 20-byte buffer, and consumes no more than is there |
| SerialLink.ParsePosition | debug_mort.cpp:273-288 | a `p` frame stores 3 bytes (1-DOF) or 5 bytes (2-DOF) and consumes the frame with its terminator; the message size is 3 |
| SerialLink.ParseXHFrame | debug_mort.cpp:273-288 | a frame built by the 1-DOF sender is read whole by the receiver, and decoding the stored bytes gives back xH to within 0.01 |
| SerialLink.ParseRxRyFrame | debug_mort.cpp:273-288 | a frame built by the 2-DOF sender is read whole by the receiver, and decoding the stored bytes gives back rx and ry to within 0.01 |
| SerialLink.ParseCommand | debug_mort.cpp:289-298 | a one-byte command followed by `l` is stored as that byte with message size 1 |
| SerialLink.Serial.constructor | debug_mort.cpp:32-39 | a new port has no received message, size 0, fresh buffers and the given input stream |
| SerialLink.Serial.Getc | debug_mort.cpp:271 | `getc` returns the next byte of the stream and advances by one |
| SerialLink.Serial.ReceiveMessageCallback | debug_mort.cpp:265-304 | the callback stores exactly the parsed message in the buffer, keeps the rest of it, consumes the frame, sets the size, increments the message counter and resets the receive char |
| SerialLink.Serial.ReadPosition | debug_mort.cpp:273-288 | the position branch stores `p` and the next 2 (or 4) bytes and sets the size to 3 |
| SerialLink.Serial.ReadUntilEnd | debug_mort.cpp:289-298 | the `while (receivechar != 'l')` loop stores every byte up to the terminator and counts them |
| SerialLink.Serial.CheckReceiveMessage | debug_mort.cpp:306-309 | returns the received-message counter |
| SerialLink.Serial.ClearReceiveMessage | debug_mort.cpp:311-314 | clears the received-message counter |
| SerialLink.Serial.ManageIncomingMessage | debug_mort.cpp:255-261 | the stored message is handed to the decoder: acknowledgement, data requests and the tele-operation position are updated exactly as the decoder defines for the message's code, the motor command comes back, and seen-life is set |
| SerialLink.Serial.PrintTeleoperationComm | debug_mort.cpp:134-152 | when teleoperation data was requested the packed frame (4 or 6 bytes) is sent and the request counter cleared; otherwise nothing is sent and nothing changes |
| SerialLink.PrintProcessingComm | debug_mort.cpp:53-66 | a report is sent exactly when the last message was acknowledged and data was requested, and then both flags are cleared; otherwise both are kept |
| Motors.DirPinsDistinct | haplink_motors.c:87-100 | the fourteen direction pins are pairwise distinct: no two motors share a direction pin and a motor's two pins differ |
| Motors.ChannelOf | haplink_motors.c:410-524 | motors 1-4 are driven by TIM3 channels 1-4 and motors 5-7 by TIM4 channels 1-3 |
| Motors.ChannelsDistinct | haplink_motors.c:410-524 | two different motors never share a timer channel |
| Motors.Drive | haplink_motors.c:321-403 | `motorNDir1`/`Dir2` set one direction pin and clear the other, leaving every other pin as it was |
| Motors.DriveKeepsExclusive | haplink_motors.c:321-403 | if no motor had both direction pins high, selecting a direction keeps it so |
| Motors.AllOff | haplink_motors.c:303-319 | turning off the direction pins leaves every motor with both pins low, hence exclusive |
| Motors.Clamp | haplink_motors.c:413-420 | the duty is clamped to [0, 1], unchanged inside it, 1 above and 0 below |
| Motors.CompareValue | haplink_motors.c:410-423 | the compare value lies in 0..PERIOD_PWM, is the full period exactly for duty ≥ 1 and 0 exactly when the scaled duty is below one tick |
| Motors.CompareMonotone | haplink_motors.c:410-423 | a larger duty never gives a smaller compare value |
| Motors.Magnitude | haplink_motors.c:530-538 | the sign-flipped duty is non-negative and has the magnitude of the request |
| Motors.SignAndMagnitude | haplink_motors.c:528-541 | the direction chosen and the magnitude output together represent the requested signed duty |
| Motors.TorqueDuty | haplink_motors.c:639-654 | the duty derived from a torque is non-negative |
| Motors.TorqueSaturates | haplink_motors.c:639-654 | a torque saturates the PWM exactly when 65.13 times the torque magnitude reaches 1, and outputs nothing exactly when it is below one tick |
| Motors.Outputs.constructor | haplink_motors.c:123-137 | all compare values and printed duties start at 0 |
| Motors.Outputs.SetDirection | haplink_motors.c:321-403 | the direction pins become the `Drive` of the old pins, and exclusivity is kept |
| Motors.Outputs.TurnOffDirPins | haplink_motors.c:303-319 | all direction pins are cleared |
| Motors.Outputs.SetCompare | haplink_motors.c:422 | writing one motor's compare register changes that motor's compare and no other motor's |
| Motors.Outputs.UpdateDutyCycle | haplink_motors.c:410-524 | the motor's compare becomes the clamped duty times the period, and no other motor's changes |
| Motors.Outputs.OutputDutyCycle | haplink_motors.c:528-631 | a negative duty selects direction 1 and a non-negative one direction 2; the magnitude is recorded and output on that motor only |
| Motors.Outputs.OutputTorque | haplink_motors.c:639-799 | the torque's sign selects the direction and 65.13 times its magnitude is recorded and output on that motor only |
| Motors.Outputs.ZeroCompares | haplink_motors.c:222-228 | every compare value is zeroed |
| Motors.Outputs.ConfigureTimeBase | haplink_motors.c:240-245 | both timers get period PERIOD_PWM and prescaler 4 |
| Motors.Outputs.Configure | haplink_motors.c:219-294 | the direction pins are low, every compare is 0 and both timers have the PWM period and prescaler |
| Motors.StartTimers | haplink_motors.c:296-300 | after `TIM_Cmd(…, ENABLE)` on TIM3 and TIM4 both have CEN set |
| Motors.Outputs.Init | haplink_motors.c:219-301 | after init every compare is 0, every direction pin is low, both timers have the PWM period and prescaler, and both count (CEN set) |
| Vibration.OutputOf | haplink_vibration_motors.c:38-68 | vibration motor 1 is driven on output 3 and vibration motor 2 on output 4 |
| Vibration.ClampTwice | haplink_vibration_motors.c:30-38 | clamping the amplitude before `updateDutyCycle` changes nothing: the second clamp is idempotent |
| Vibration.Vibrators.constructor | haplink_vibration_motors.c:17-18 | both status values start at 0 |
| Vibration.Vibrators.Status | haplink_vibration_motors.c:90-106 | the queried status lies in [0, 1] |
| Vibration.Vibrators.On | haplink_vibration_motors.c:28-70 | turning a vibrator on stores the clamped amplitude as its status, outputs it on its own channel, and changes no other output or status |
| Vibration.Vibrators.Off | haplink_vibration_motors.c:47-80 | turning a vibrator off zeroes its output, keeps its status and changes no other output |
| Position.Radians | haplink_position.c:211-217 | the motor angle is counts·2·3.1416/48 |
| Position.RadiansLinear | haplink_position.c:211-217 | the angle is linear in the counts and one revolution of 48 counts is 2π |
| Position.Degrees | haplink_position.c:677-684 | the degree value is radians·180/3.1416 |
| Position.DegreesOfCounts | haplink_position.c:211-217 | one encoder count is 7.5 degrees of motor rotation |
| Position.HandleGain | haplink_position.c:328-329 | the handle displacement is the motor angle times R_HA·R_MA/R_A, and dividing it back recovers the motor angle |
| Position.PaddleInverse | haplink_position.c:422-423 | the paddle angle formulas can be solved back for both motor angles |
| Position.InitTipAsWritten | haplink_position.c:426-433 | the tip computed by the finger init has the same x as the update's tip but a y that differs by 2·L_B·cos(θ̃a+θ̃b) |
| Position.JacobianTurnsLinkB | haplink_position.c:572-579 | the Jacobian's second column is perpendicular to link b, as a derivative of the tip position must be |
| Position.JacobianTurnsLinkA | haplink_position.c:572-579 | the Jacobian's first column is perpendicular to the vector from the base to the tip |
| Position.InitTipNotTurnedByJacobian | haplink_position.c:426-433 | the init's tip is not consistent with the Jacobian whenever sin·cos of the link b angle is non-zero |
| Position.InitDisagreesWithUpdate | haplink_position.c:426-433 | whenever cos(θ̃a+θ̃b) ≠ 0 the init's tip differs from the tip the first update computes |
| Position.Finger.constructor | haplink_position.c:69-80 | a finger starts at position 0 with a zero Jacobian and its motor-angle sign and offsets fixed |
| Position.Finger.Angles | haplink_position.c:554-562 | motor angles come from the counts (negated for finger 2) and the paddle angles follow the capstan formulas |
| Position.Finger.Init | haplink_position.c:405-441 | init computes the angles and the tip (corrected sign, see Findings) and records it as the previous position |
| Position.Finger.Calculate | haplink_position.c:543-584 | an update computes the angles, the tip position and the Jacobian from the counts |
| Position.Finger.PaddleDegrees | haplink_position.c:687-704 | the paddle angles in degrees are radians·180/3.1416 |
| Position.InitThenCalculate | haplink_position.c:405-584 | with the corrected init, an init followed by an update leaves the previous position equal to the current one when nothing moved |
| Position.MirroredFingers | haplink_position.c:458-468 | finger 2, with negated motor angles and the same offsets, turned by the opposite counts gets finger 1's motor and paddle angles |
| Position.Handle.constructor | haplink_position.c:33-35 | the 1-DOF handle starts at angle and position 0 |
| Position.Handle.Calculate1Dof | haplink_position.c:313-330 | the handle angle and arc position follow from the motor angle of the counts |
| Position.Handle.AngleDegrees | haplink_position.c:677-737 | the handle's paddle and motor angles in degrees are radians·180/3.1416 |
| VirtualEnv.MotorsOf | haplink_virtual_environments.c:128-129 | each circle variant drives two distinct motors: 1/2, 4/5 or 6/7 |
| VirtualEnv.CentreOf | haplink_virtual_environments.c:140-141 | the circle centre is (40 mm, 80 mm), mirrored to (-40 mm, 80 mm) for motors 6/7 |
| VirtualEnv.SpringForce | haplink_virtual_environments.c:161-179 | outside the circle's radius the force is zero |
| VirtualEnv.SpringForceLaw | haplink_virtual_environments.c:161-179 | inside the circle the force has magnitude k·(R−dr) and points away from the centre along the user's offset |
| VirtualEnv.MirroredCircles | haplink_virtual_environments.c:200-239 | the M6M7 circle is the mirror image of the M4M5 circle: a mirrored user position gets the mirrored force |
| VirtualEnv.JointTorqueIsTranspose | haplink_virtual_environments.c:181-184 | the joint torques are 0.001·Jᵀ·F: their work along any joint motion equals the force's work along the Jacobian's image of it |
| VirtualEnv.MotorTorqueInverse | haplink_virtual_environments.c:186-187 | scaling the motor torques back by the capstan ratios recovers the joint torques |
| VirtualEnv.CircleForce | haplink_virtual_environments.c:161-179 | the force computed step by step is the spring force of the user's offset |
| VirtualEnv.Environment.constructor | haplink_virtual_environments.c:31-33 | the environment starts with zero force, zero torque and no motor torque recorded |
| Motors.Outputs.OutputTorquePair | haplink_virtual_environments.c:186-190 | two motors driven one after the other both reach their torque's compare value, and every other motor is unchanged |
| VirtualEnv.Environment.ApplyForce | haplink_virtual_environments.c:181-190 | the stored force becomes joint torques through Jᵀ, motor torques through the capstan ratios, and those are output on the variant's two motors, their direction pins set by the torque signs; no other motor's compare changes |
| VirtualEnv.Environment.RenderOutsideCircle | haplink_virtual_environments.c:138-191 | one rendering step stores the spring force of the user's offset and the resulting joint and motor torques, outputs them on the variant's two motors with direction pins chosen by their signs, and changes no other motor's compare |
| VirtualEnv.Environment.RenderZeroForce | haplink_virtual_environments.c:306-347 | the template environments output zero torque on both motors with direction 2, report no contact, and change no other motor's compare |
| HandEnv.Mul | hand_virtual_environment.c:37-41 | a product is a number exactly when both factors are numbers (NaN propagates) |
| HandEnv.Add | hand_virtual_environment.c:74-76 | a sum is a number exactly when both terms are numbers (NaN propagates) |
| HandEnv.SquaredDistance | hand_virtual_environment.c:99-105 | the squared distance to the sphere's centre is non-negative |
| HandEnv.SphereDistanceUnique | hand_virtual_environment.c:99-105 | the square root is determined: two non-negative distances with the same square are equal |
| HandEnv.SquareIncreasing | hand_virtual_environment.c:35 | for non-negative distances, one is smaller exactly when its square is smaller |
| HandEnv.ThumbForce | hand_virtual_environment.c:28-54 | outside the sphere the force is zero, and a thumb exactly at the centre produces NaN (division by a zero distance) |
| HandEnv.ThumbForceLaw | hand_virtual_environment.c:35-41 | inside the sphere the force is a number that points away from the centre, with work k·(R−d)·d along the offset |
| HandEnv.ThumbTorque | hand_virtual_environment.c:74-76 | each motor torque is one row of the (non-transposed) Jacobian times the force |
| HandEnv.TorqueIsNumber | hand_virtual_environment.c:74-87 | a torque is a number exactly when its Jacobian row and the force are all numbers |
| HandEnv.Thumb.constructor | hand_virtual_environment.c:25 | the thumb renderer drives the given motor outputs |
| HandEnv.Thumb.OutputIfNumber | hand_virtual_environment.c:85-87 | a number torque is output on the motor; a NaN torque leaves that motor's compare value and pins unchanged; other motors are unchanged |
| HandEnv.Thumb.RenderOutsideSphere | hand_virtual_environment.c:25-88 | one rendering step computes the sphere force and the Jacobian torques and outputs each torque on motors 1-3 unless it is NaN |
| Util.MakePVectorArray2 | processing/ProcessingHapticsHand/libraries/Shapes3D/src/shapes3d/utils/Util.java:51-60 | the new array has the shorter input's length and element i is (x[i], y[i], 0) |
| Util.MakePVectorArray3 | processing/ProcessingHapticsHand/libraries/Shapes3D/src/shapes3d/utils/Util.java:69-75 | the new array has the shortest input's length and element i is (x[i], y[i], z[i]) |
| Util.DeepCopy | processing/ProcessingHapticsHand/libraries/Shapes3D/src/shapes3d/utils/Util.java:176-187 | the copy is a fresh array with the same elements |
| Util.DeepCopy2 | processing/ProcessingHapticsHand/libraries/Shapes3D/src/shapes3d/utils/Util.java:189-203 | the copy is a fresh array of fresh rows, each row with the same elements as the original's |
| Util.Reversed | processing/ProcessingHapticsHand/libraries/Shapes3D/src/shapes3d/utils/Util.java:247-269 | the reversal has the input's length |
| Util.ReversedAt | processing/ProcessingHapticsHand/libraries/Shapes3D/src/shapes3d/utils/Util.java:247-269 | element i of the reversal is element len−1−i of the input |
| Util.ReversedTwice | processing/ProcessingHapticsHand/libraries/Shapes3D/src/shapes3d/utils/Util.java:247-269 | reversing twice gives back the original |
| Util.Reverse | processing/ProcessingHapticsHand/libraries/Shapes3D/src/shapes3d/utils/Util.java:262-269 | the in-place swap loop leaves the array holding the reversal of its old contents |
| Util.Normalised | processing/ProcessingHapticsHand/libraries/Shapes3D/src/shapes3d/utils/Util.java:290-297 | min/max normalisation gives left ≤ right and top ≤ bottom from the same two x and two y values |
| Util.BoxBox | processing/ProcessingHapticsHand/libraries/Shapes3D/src/shapes3d/utils/Util.java:289-309 | the result is empty exactly when the two normalised boxes do not overlap with positive area; otherwise it is a box inside both |
| Util.BoxBoxPositiveArea | processing/ProcessingHapticsHand/libraries/Shapes3D/src/shapes3d/utils/Util.java:299-308 | for non-degenerate inputs a returned overlap has positive width and height |
| Util.BoxBoxLargest | processing/ProcessingHapticsHand/libraries/Shapes3D/src/shapes3d/utils/Util.java:303-308 | every positive-area box inside both inputs lies inside the returned overlap: it is the whole intersection |
| Util.BoxBoxSymmetric | processing/ProcessingHapticsHand/libraries/Shapes3D/src/shapes3d/utils/Util.java:289-308 | swapping the two boxes gives the same result |
| Picking.Wrap32 | processing/ProcessingHapticsHand/libraries/Shapes3D/src/shapes3d/utils/Picked.java:74-79 | Java int arithmetic wraps to a 32-bit value congruent to the exact one and leaves in-range values alone |
| Picking.HashCode | processing/ProcessingHapticsHand/libraries/Shapes3D/src/shapes3d/utils/Picked.java:74-79 | the hash is a 32-bit int |
| Picking.CompareTo | processing/ProcessingHapticsHand/libraries/Shapes3D/src/shapes3d/utils/Picked.java:82-94 | the comparison returns −1, 0 or 1; 0 exactly when the shape hashes and parts are equal, negative exactly when ordered by shape hash then by part |
| Picking.EqualsEquivalence | processing/ProcessingHapticsHand/libraries/Shapes3D/src/shapes3d/utils/Picked.java:62-71 | `equals` (same shape object and part, flag ignored) is reflexive, symmetric and transitive |
| Picking.HashConsistent | processing/ProcessingHapticsHand/libraries/Shapes3D/src/shapes3d/utils/Picked.java:62-79 | equal picks have equal hash codes |
| Picking.CompareConsistent | processing/ProcessingHapticsHand/libraries/Shapes3D/src/shapes3d/utils/Picked.java:62-94 | equal picks compare as 0 |
| Picking.CompareAntisymmetric | processing/ProcessingHapticsHand/libraries/Shapes3D/src/shapes3d/utils/Picked.java:82-94 | a.compareTo(b) = −b.compareTo(a) |
| Picking.CompareTransitive | processing/ProcessingHapticsHand/libraries/Shapes3D/src/shapes3d/utils/Picked.java:82-94 | the ordering is transitive |
| Picking.CompareZeroWithoutEquals | processing/ProcessingHapticsHand/libraries/Shapes3D/src/shapes3d/utils/Picked.java:62-94 | two distinct shapes with colliding hashes compare as 0 without being equal: the order is not consistent with `equals` |
| AbstractPath.Tangent | processing/ProcessingHapticsHand/libraries/Shapes3D/src/shapes3d/path/AbstractPath.java:91-93 | the default tangent is a positive multiple of the chord point(t+1°) − point(t−1°), or zero when the chord is zero |
| AbstractPath.Orthogonal | processing/ProcessingHapticsHand/libraries/Shapes3D/src/shapes3d/path/Ring.java:95-99 | the ring's and spiral's orthogonal (−z, 0, x) lies in the horizontal plane, is perpendicular to the tangent, and as long as it when the tangent is horizontal |
| AbstractPath.PathState.Default | processing/ProcessingHapticsHand/libraries/Shapes3D/src/shapes3d/path/AbstractPath.java:56-59 | the default constructor uses 100 slices, an open path and no calculator yet |
| AbstractPath.PathState.constructor | processing/ProcessingHapticsHand/libraries/Shapes3D/src/shapes3d/path/AbstractPath.java:65-67 | the slice count is the argument and no calculator is chosen yet |
| AbstractPath.PathState.OrthogonalCalculator | processing/ProcessingHapticsHand/libraries/Shapes3D/src/shapes3d/path/AbstractPath.java:102-107 | the calculator is obtained from `getBest` only while none is stored; afterwards the stored one is used and `getBest` is not called again |
| AbstractPath.OrthogonalTwice | processing/ProcessingHapticsHand/libraries/Shapes3D/src/shapes3d/path/AbstractPath.java:102-107 | however often `orthogonal` is called, `getBest` runs once and every call uses its first answer |
| RingPath.Circle | processing/ProcessingHapticsHand/libraries/Shapes3D/src/shapes3d/path/Ring.java:46-48 | the circular ring has both radii equal to the given radius |
| RingPath.IsOpenPath | processing/ProcessingHapticsHand/libraries/Shapes3D/src/shapes3d/path/Ring.java:61 | a ring is a closed path |
| RingPath.Point | processing/ProcessingHapticsHand/libraries/Shapes3D/src/shapes3d/path/Ring.java:70-77 | every ring point lies in the horizontal plane y = 0, with x within the x radius |
| RingPath.PointAtStart | processing/ProcessingHapticsHand/libraries/Shapes3D/src/shapes3d/path/Ring.java:72-75 | the ring starts at (radX, 0, 0) |
| RingPath.TangentFlat | processing/ProcessingHapticsHand/libraries/Shapes3D/src/shapes3d/path/Ring.java:70-77 | the ring's default tangent is horizontal |
| RingPath.Tangent | processing/ProcessingHapticsHand/libraries/Shapes3D/src/shapes3d/path/Ring.java:86-88 | the tangent is zero when the chord between the points one degree either side is zero, and otherwise a positive multiple of that chord |
| RingPath.OrthogonalOfRing | processing/ProcessingHapticsHand/libraries/Shapes3D/src/shapes3d/path/Ring.java:95-99 | the ring's orthogonal is horizontal, perpendicular to the tangent and of the same length |
| SpiralPath.Make | processing/ProcessingHapticsHand/libraries/Shapes3D/src/shapes3d/path/Spiral.java:74-85 | the spiral's pitch is twirls·pitch and it starts at −pitch/2 |
| SpiralPath.Circular | processing/ProcessingHapticsHand/libraries/Shapes3D/src/shapes3d/path/Spiral.java:61-63 | the single-radius constructor uses the same radius on x and z |
| SpiralPath.IsOpenPath | processing/ProcessingHapticsHand/libraries/Shapes3D/src/shapes3d/path/Spiral.java:84 | a spiral is an open path |
| SpiralPath.Point | processing/ProcessingHapticsHand/libraries/Shapes3D/src/shapes3d/path/Spiral.java:94-100 | seen from above, every spiral point lies within the box of its x and z radii |
| SpiralPath.Tangent | processing/ProcessingHapticsHand/libraries/Shapes3D/src/shapes3d/path/Spiral.java:109-111 | the tangent is zero when the chord between the points one degree either side is zero, and otherwise a positive multiple of that chord |
| SpiralPath.HeightAffine | processing/ProcessingHapticsHand/libraries/Shapes3D/src/shapes3d/path/Spiral.java:97 | the height of a spiral point is affine in t with slope spiralPitch |
| SpiralPath.EndsSymmetric | processing/ProcessingHapticsHand/libraries/Shapes3D/src/shapes3d/path/Spiral.java:81-100 | the spiral runs from height startY at t = 0 to −startY at t = 1 |
| SpiralPath.OrthogonalOfSpiral | processing/ProcessingHapticsHand/libraries/Shapes3D/src/shapes3d/path/Spiral.java:117-121 | the spiral's orthogonal is horizontal and perpendicular to the tangent |
| LinearScale.Endpoints | processing/ProcessingHapticsHand/libraries/Shapes3D/src/shapes3d/contour/LinearScale.java:47-73 | the scale is sx0, sy0 at t = 0 and sx1, sy1 at t = 1 |
| LinearScale.IdentityIsOne | processing/ProcessingHapticsHand/libraries/Shapes3D/src/shapes3d/contour/LinearScale.java:35-37 | the no-argument scale is 1 on both axes for every t |
| LinearScale.MonotoneX | processing/ProcessingHapticsHand/libraries/Shapes3D/src/shapes3d/contour/LinearScale.java:61-63 | with sx1 ≥ sx0 the x scale never decreases as t grows |
| LinearScale.Make | processing/ProcessingHapticsHand/libraries/Shapes3D/src/shapes3d/contour/LinearScale.java:47-53 | the scale stores the start values and ranges that reach the end values |
| LinearScale.Identity | processing/ProcessingHapticsHand/libraries/Shapes3D/src/shapes3d/contour/LinearScale.java:35-37 | the no-argument scale starts at 1 on both axes with zero ranges |
| LinearScale.ScaleX | processing/ProcessingHapticsHand/libraries/Shapes3D/src/shapes3d/contour/LinearScale.java:61-63 | for t in [0, 1] the x scale lies between its two end values |
| LinearScale.ScaleY | processing/ProcessingHapticsHand/libraries/Shapes3D/src/shapes3d/contour/LinearScale.java:71-73 | for t in [0, 1] the y scale lies between its two end values |
| PathScale.Constrain | processing/ProcessingHapticsHand/libraries/Shapes3D/src/shapes3d/contour/PathScale.java:53-62 | t is clamped into [0, 1] and left alone inside it |
| PathScale.ScaleX | processing/ProcessingHapticsHand/libraries/Shapes3D/src/shapes3d/contour/PathScale.java:53-56 | the x scale is the y of the x curve at the clamped t: its end values outside [0, 1] |
| PathScale.ScaleY | processing/ProcessingHapticsHand/libraries/Shapes3D/src/shapes3d/contour/PathScale.java:59-62 | the y scale is the y of the y curve at the clamped t: its end values outside [0, 1] |
| LatheSurface.FixAngleAsWritten | processing/ProcessingHapticsHand/libraries/Shapes3D/src/shapes3d/contour/LatheSurface.java:113-121 | as written, `fixAngle` returns the same angle in [0, 2π], inclusive of 2π, and leaves angles in range alone |
| LatheSurface.AnglesAsWritten | processing/ProcessingHapticsHand/libraries/Shapes3D/src/shapes3d/contour/LatheSurface.java:65-77 | as written, a start of 2π and an end of 0 leave start == end: a zero sweep |
| LatheSurface.FixAngle | processing/ProcessingHapticsHand/libraries/Shapes3D/src/shapes3d/contour/LatheSurface.java:113-121 | the corrected `fixAngle` returns the same angle in [0, 2π) |
| LatheSurface.Lathe.constructor | processing/ProcessingHapticsHand/libraries/Shapes3D/src/shapes3d/contour/LatheSurface.java:65-77 | (corrected `fixAngle`, see Findings) the stored angles are the given ones up to whole turns, start < end, the sweep is at most 2π, and deltaAngle·nbrSegs is the sweep |
| LatheSurface.Lathe.Full | processing/ProcessingHapticsHand/libraries/Shapes3D/src/shapes3d/contour/LatheSurface.java:49-51 | the full surface covers 0..2π |
| LatheSurface.TurnsInOneTurn | processing/ProcessingHapticsHand/libraries/Shapes3D/src/shapes3d/contour/LatheSurface.java:113-121 | two angles in [0, 2π) a whole number of turns apart are equal, so the corrected `fixAngle` result is unique |
| Oval.SegmentUV | processing/ProcessingHapticsHand/libraries/Shapes3D/src/shapes3d/contour/Oval.java:96 | each segment's texture coordinate lies in the unit square |
| Oval.Mirrored | processing/ProcessingHapticsHand/libraries/Shapes3D/src/shapes3d/contour/Oval.java:117-119 | a mirrored texture coordinate keeps v and replaces u by 1 − u |
| Oval.MirroredTwice | processing/ProcessingHapticsHand/libraries/Shapes3D/src/shapes3d/contour/Oval.java:115-121 | mirroring twice gives back the texture coordinate |
| Oval.MirroredInSquare | processing/ProcessingHapticsHand/libraries/Shapes3D/src/shapes3d/contour/Oval.java:115-121 | mirroring keeps a texture coordinate in the unit square |
| Oval.Oval.constructor | processing/ProcessingHapticsHand/libraries/Shapes3D/src/shapes3d/contour/Oval.java:69-75 | a new oval has nbrSegs+1 vertices on the ellipse (the last repeating the first) and nbrSegs+2 texture coordinates starting at the centre |
| Oval.Oval.CalcSection | processing/ProcessingHapticsHand/libraries/Shapes3D/src/shapes3d/contour/Oval.java:89-103 | the section holds coords[s] = (rx·cos(−s·2π/n), ry·sin(−s·2π/n), 0), coords[n] = coords[0], uvNorm[0] = (0.5, 0.5) and uvNorm[s+1] the segment's coordinate |
| Oval.Oval.UVInSquare | processing/ProcessingHapticsHand/libraries/Shapes3D/src/shapes3d/contour/Oval.java:96-102 | every texture coordinate of a computed oval is in the unit square |
| Oval.Oval.Mirror | processing/ProcessingHapticsHand/libraries/Shapes3D/src/shapes3d/contour/Oval.java:115-121 | the mirror has the same radii, segments and vertices, and each texture coordinate mirrored |
| Triangulator.ShoelaceOfTriangle | processing/ProcessingHapticsHand/libraries/Shapes3D/src/shapes3d/utils/Triangulator.java:153-159 | twice the shoelace area of a triangle is its orientation cross product |
| Triangulator.Area | processing/ProcessingHapticsHand/libraries/Shapes3D/src/shapes3d/utils/Triangulator.java:153-159 | the loop computes half the shoelace sum over every edge (p, q) of the closed contour |
| Triangulator.CornerInside | processing/ProcessingHapticsHand/libraries/Shapes3D/src/shapes3d/utils/Triangulator.java:173-192 | with non-negative orientation a triangle's own corner counts as inside it (all three cross products ≥ 0) |
| Triangulator.Snip | processing/ProcessingHapticsHand/libraries/Shapes3D/src/shapes3d/utils/Triangulator.java:219-243 | `snip` accepts exactly an ear: a convex corner (cross product ≥ EPSILON) with no other remaining vertex inside the triangle |
| Triangulator.InitialOrder | processing/ProcessingHapticsHand/libraries/Shapes3D/src/shapes3d/utils/Triangulator.java:83-89 | the vertex list is 0..n−1 for a counter-clockwise contour and its reversal otherwise, a list of n distinct indices below n |
| Triangulator.RemoveAt | processing/ProcessingHapticsHand/libraries/Shapes3D/src/shapes3d/utils/Triangulator.java:121-122 | the shift loop removes the element at v from the first nv entries, keeping the order of the others |
| Triangulator.RemovePreserves | processing/ProcessingHapticsHand/libraries/Shapes3D/src/shapes3d/utils/Triangulator.java:120-123 | removing one vertex keeps the list distinct, removes exactly that vertex and adds none |
| Triangulator.Flatten | processing/ProcessingHapticsHand/libraries/Shapes3D/src/shapes3d/utils/Triangulator.java:114-116 | the result list holds three indices per triangle |
| Triangulator.ClipStep | processing/ProcessingHapticsHand/libraries/Shapes3D/src/shapes3d/utils/Triangulator.java:107-126 | cutting an ear adds the triangle of its three vertices and keeps the invariant: the triangles so far and the remaining polygon together cover each original vertex correctly |
| Triangulator.ProgressDone | processing/ProcessingHapticsHand/libraries/Shapes3D/src/shapes3d/utils/Triangulator.java:96-131 | when two vertices remain the triangles form a triangulation: n−2 triangles of distinct indices below n |
| Triangulator.InContourBelow | processing/ProcessingHapticsHand/libraries/Shapes3D/src/shapes3d/utils/Triangulator.java:223-238 | every index in the vertex list addresses the contour |
| Triangulator.CutEar | processing/ProcessingHapticsHand/libraries/Shapes3D/src/shapes3d/utils/Triangulator.java:111-123 | the ear's true vertex names are read, v is removed from the list, and the progress invariant holds with the new triangle |
| Triangulator.FlattenAppend | processing/ProcessingHapticsHand/libraries/Shapes3D/src/shapes3d/utils/Triangulator.java:114-116 | emitting a triangle appends its three indices to the result |
| Triangulator.TakeEar | processing/ProcessingHapticsHand/libraries/Shapes3D/src/shapes3d/utils/Triangulator.java:107-126 | one accepted ear extends the result by one triangle and the invariant holds for the shorter list |
| Triangulator.Triangulate | processing/ProcessingHapticsHand/libraries/Shapes3D/src/shapes3d/utils/Triangulator.java:76-132 | fewer than 3 vertices give null; any other non-null result is the flattening of a triangulation of the n vertices |
| Triangulator.ClipEars | processing/ProcessingHapticsHand/libraries/Shapes3D/src/shapes3d/utils/Triangulator.java:91-131 | the ear-clipping loop either gives up (null) or returns a triangulation of the n vertices |
| Triangulator.TriangulateList | processing/ProcessingHapticsHand/libraries/Shapes3D/src/shapes3d/utils/Triangulator.java:49-55 | the list form fails with a null-pointer error when the array form returns null, and otherwise reports success with 3·(n−2) indices |
| BezierCurve.Constrain | processing/ProcessingHapticsHand/libraries/Shapes3D/src/shapes3d/path/BCurve2D.java:217 | `PApplet.constrain` clamps an index into [lo, hi] and leaves in-range values alone |
| BezierCurve.ConstrainReal | processing/ProcessingHapticsHand/libraries/Shapes3D/src/shapes3d/path/BCurve2D.java:534-535 | the parameter is clamped into [lo, hi] and left alone inside it |
| BezierCurve.Inserted | processing/ProcessingHapticsHand/libraries/Shapes3D/src/shapes3d/path/BCurve2D.java:226-245 | inserting grows the sequence by the number of inserted points |
| BezierCurve.Removed | processing/ProcessingHapticsHand/libraries/Shapes3D/src/shapes3d/path/BCurve2D.java:327-344 | removing first..last leaves degree−1+first−last points |
| BezierCurve.RemoveInserted | processing/ProcessingHapticsHand/libraries/Shapes3D/src/shapes3d/path/BCurve2D.java:216-351 | removing the points just inserted gives back the original control points |
| BezierCurve.Column | processing/ProcessingHapticsHand/libraries/Shapes3D/src/shapes3d/path/BCurve2D.java:166-169 | column k of the point rows has one entry per row, each that row's k-th value |
| BezierCurve.AsWrittenGuardOverruns | processing/ProcessingHapticsHand/libraries/Shapes3D/src/shapes3d/path/BCurve2D.java:326-344 | the as-written guard admits first = 3, last = degree = 5, where the new array has only 2 slots and the first copy loop writes 3 |
| BezierCurve.AsWrittenExtraInputsOverrun | processing/ProcessingHapticsHand/libraries/Shapes3D/src/shapes3d/path/BCurve2D.java:326-344 | every input the as-written guard admits beyond the corrected one has last == degree and first beyond the new length, so it overruns |
| BezierCurve.GuardFits | processing/ProcessingHapticsHand/libraries/Shapes3D/src/shapes3d/path/BCurve2D.java:326-344 | under the corrected guard both copy loops stay inside the new array, and at least 2 points remain |
| BezierCurve.InsertThenRemoveAllowed | processing/ProcessingHapticsHand/libraries/Shapes3D/src/shapes3d/path/BCurve2D.java:216-351 | removing points just inserted into a curve of at least 2 points is always allowed and restores the degree |
| BezierCurve.LerpAdd | processing/ProcessingHapticsHand/libraries/Shapes3D/src/shapes3d/path/BCurve2D.java:446-447 | interpolation is linear in its end values |
| BezierCurve.LerpSame | processing/ProcessingHapticsHand/libraries/Shapes3D/src/shapes3d/path/BCurve2D.java:446-447 | interpolating between equal values gives that value |
| BezierCurve.Step | processing/ProcessingHapticsHand/libraries/Shapes3D/src/shapes3d/path/BCurve2D.java:445-448 | one de Casteljau round has one value fewer |
| BezierCurve.BezierAtZero | processing/ProcessingHapticsHand/libraries/Shapes3D/src/shapes3d/path/BCurve2D.java:440-451 | point(0) is the first control point |
| BezierCurve.BezierAtOne | processing/ProcessingHapticsHand/libraries/Shapes3D/src/shapes3d/path/BCurve2D.java:440-451 | point(1) is the last control point |
| BezierCurve.Bernstein | processing/ProcessingHapticsHand/libraries/Shapes3D/src/shapes3d/path/BCurve2D.java:504-513 | the Bernstein coefficient is 0 outside 0..j |
| BezierCurve.BernsteinSumSplit | processing/ProcessingHapticsHand/libraries/Shapes3D/src/shapes3d/path/BCurve2D.java:508-512 | one round of the coefficient recurrence is an interpolation of the previous round's sums |
| BezierCurve.PartitionOfUnity | processing/ProcessingHapticsHand/libraries/Shapes3D/src/shapes3d/path/BCurve2D.java:504-513 | the coefficients computed by `bCoefficients` sum to 1 for every t |
| BezierCurve.Samples | processing/ProcessingHapticsHand/libraries/Shapes3D/src/shapes3d/path/BCurve2D.java:543-548 | the sampling produces one parameter per step |
| BezierCurve.CurvePoints | processing/ProcessingHapticsHand/libraries/Shapes3D/src/shapes3d/path/BCurve2D.java:544-548 | one curve point is evaluated per sample |
| BezierCurve.PolylineNonNegative | processing/ProcessingHapticsHand/libraries/Shapes3D/src/shapes3d/path/BCurve2D.java:550-552 | a sum of chord lengths is never negative |
| BezierCurve.PolylineConstant | processing/ProcessingHapticsHand/libraries/Shapes3D/src/shapes3d/path/BCurve2D.java:550-552 | a polyline through one repeated point has length 0 |
| BezierCurve.TwoStepLength | processing/ProcessingHapticsHand/libraries/Shapes3D/src/shapes3d/path/BCurve2D.java:572-584 | `length(2)` is the chord from the first to the last control point |
| BezierCurve.SectionAsWrittenOvershoots | processing/ProcessingHapticsHand/libraries/Shapes3D/src/shapes3d/path/BCurve2D.java:533-555 | as written, the last sample is the first plus 1; for t0 = t1 = 0.5 the samples are 0.5 and 1.5 |
| BezierCurve.SamplesBetween | processing/ProcessingHapticsHand/libraries/Shapes3D/src/shapes3d/path/BCurve2D.java:543-548 | steps of (hi−lo)/(steps−1) from lo start at lo, end at hi and stay in between |
| BezierCurve.SectionSamplesSpan | processing/ProcessingHapticsHand/libraries/Shapes3D/src/shapes3d/path/BCurve2D.java:533-548 | the corrected section samples run from the smaller to the larger clamped parameter and stay in [0, 1] |
| BezierCurve.EmptySectionLength | processing/ProcessingHapticsHand/libraries/Shapes3D/src/shapes3d/path/BCurve2D.java:536-553 | with the corrected sampling an empty section (t0 = t1) has length 0 for any step count |
| BezierCurve.InsertedIndex | processing/ProcessingHapticsHand/libraries/Shapes3D/src/shapes3d/path/BCurve2D.java:226-245 | element k after insertion is the old point before pos, an inserted point next, then the old point shifted by the count |
| BezierCurve.RemovedIndex | processing/ProcessingHapticsHand/libraries/Shapes3D/src/shapes3d/path/BCurve2D.java:335-344 | element k after removal is the old point before first, then the old point after last |
| BezierCurve.CopyInserting | processing/ProcessingHapticsHand/libraries/Shapes3D/src/shapes3d/path/BCurve2D.java:220-247 | the three copy loops fill fresh arrays with exactly the inserted sequence |
| BezierCurve.CopyRemoving | processing/ProcessingHapticsHand/libraries/Shapes3D/src/shapes3d/path/BCurve2D.java:328-346 | the two copy loops fill fresh arrays with exactly the removed sequence |
| BezierCurve.BCurve2D.FromXY | processing/ProcessingHapticsHand/libraries/Shapes3D/src/shapes3d/path/BCurve2D.java:145-153 | degree is the shorter length and the control points are the first degree x and y values |
| BezierCurve.BCurve2D.FromPoints | processing/ProcessingHapticsHand/libraries/Shapes3D/src/shapes3d/path/BCurve2D.java:188-196 | one control point per PVector, with its x and y |
| BezierCurve.BCurve2D.FromRows | processing/ProcessingHapticsHand/libraries/Shapes3D/src/shapes3d/path/BCurve2D.java:162-170 | one control point per row, from its first two values |
| BezierCurve.BCurve2D.InsertCtrlPoints | processing/ProcessingHapticsHand/libraries/Shapes3D/src/shapes3d/path/BCurve2D.java:216-249 | pos is clamped to [0, degree]; the new points go in at pos in order and the degree grows by their number |
| BezierCurve.BCurve2D.InsertCtrlPoint | processing/ProcessingHapticsHand/libraries/Shapes3D/src/shapes3d/path/BCurve2D.java:308-313 | one point is inserted at the clamped position |
| BezierCurve.BCurve2D.InsertCtrlPointsXY | processing/ProcessingHapticsHand/libraries/Shapes3D/src/shapes3d/path/BCurve2D.java:259-267 | min(nbrPts, lengths) points are inserted at the clamped position |
| BezierCurve.BCurve2D.InsertCtrlPointsOf | processing/ProcessingHapticsHand/libraries/Shapes3D/src/shapes3d/path/BCurve2D.java:278-286 | the first nbrPts (clamped to the array length) points' x and y coordinates are inserted into the control-point arrays at the position clamped to [0, degree] |
| BezierCurve.BCurve2D.RemoveCtrlPoints | processing/ProcessingHapticsHand/libraries/Shapes3D/src/shapes3d/path/BCurve2D.java:325-351 | with the corrected guard, success removes points first..last; failure changes nothing |
| BezierCurve.BCurve2D.RemoveCtrlPoint | processing/ProcessingHapticsHand/libraries/Shapes3D/src/shapes3d/path/BCurve2D.java:361-363 | one point is removed exactly when it exists and at least 3 points are there |
| BezierCurve.BCurve2D.GetCtrlPoint | processing/ProcessingHapticsHand/libraries/Shapes3D/src/shapes3d/path/BCurve2D.java:395-398 | the index is clamped to [0, degree−1]: out-of-range requests get the first or last control point |
| BezierCurve.BCurve2D.UpdateCtrlPoint | processing/ProcessingHapticsHand/libraries/Shapes3D/src/shapes3d/path/BCurve2D.java:384-388 | only the clamped slot changes, and reading it back gives the new point |
| BezierCurve.BCurve2D.UpdateCtrlPointTo | processing/ProcessingHapticsHand/libraries/Shapes3D/src/shapes3d/path/BCurve2D.java:371-375 | only the clamped slot changes, to the PVector's x and y |
| BezierCurve.BCurve2D.Point | processing/ProcessingHapticsHand/libraries/Shapes3D/src/shapes3d/path/BCurve2D.java:440-451 | the de Casteljau loops compute the Bézier polynomial of the control points at t, with z = 0 |
| BezierCurve.BCurve2D.CasteljauRound | processing/ProcessingHapticsHand/libraries/Shapes3D/src/shapes3d/path/BCurve2D.java:445-448 | one inner loop turns the first j+1 scratch values into one de Casteljau round |
| BezierCurve.BCurve2D.BCoefficients | processing/ProcessingHapticsHand/libraries/Shapes3D/src/shapes3d/path/BCurve2D.java:504-513 | after the loops b[0] = 0 and b[k] is the Bernstein coefficient of degree−2, k−1 at t |
| BezierCurve.BCurve2D.BernsteinRound | processing/ProcessingHapticsHand/libraries/Shapes3D/src/shapes3d/path/BCurve2D.java:509-511 | one outer round raises the coefficients' degree by one |
| BezierCurve.BCurve2D.Length | processing/ProcessingHapticsHand/libraries/Shapes3D/src/shapes3d/path/BCurve2D.java:572-584 | the length is the sum of steps−1 chords between equally spaced curve points, 0 for steps ≤ 1 |
| BezierCurve.BCurve2D.SectionPolyline | processing/ProcessingHapticsHand/libraries/Shapes3D/src/shapes3d/path/BCurve2D.java:544-552 | the section's length is the polyline length through the curve points of the samples |
| BezierCurve.BCurve2D.LengthSectionAsWritten | processing/ProcessingHapticsHand/libraries/Shapes3D/src/shapes3d/path/BCurve2D.java:533-555 | as written: 0 or −1 for steps ≤ 1, else the polyline over the overshooting samples |
| BezierCurve.BCurve2D.LengthSection | processing/ProcessingHapticsHand/libraries/Shapes3D/src/shapes3d/path/BCurve2D.java:533-555 | 0 when the clamped ends agree and −1 otherwise for steps ≤ 1; otherwise the polyline over samples spanning the clamped section |
| ShapeParts.OrientColumn | processing/ProcessingHapticsHand/libraries/Shapes3D/src/shapes3d/Extrusion.java:161-171 | under an orientation one grid column is moved by the rotation-and-translation and its normal by the rotation then normalised; every other column is untouched |
| ShapeParts.Orient | processing/ProcessingHapticsHand/libraries/Shapes3D/src/shapes3d/Ellipsoid.java:140-152 | a null orientation leaves coordinates and normals as they were; otherwise every coordinate becomes R·c + origin and every normal normalise(R·n) |
| Extrusion.TexCoord | processing/ProcessingHapticsHand/libraries/Shapes3D/src/shapes3d/Extrusion.java:122-142 | u = col/nbrSlices runs from 0 at the first column to 1 at the last and stays in [0, 1]; v is the cross-section's own v for that row |
| Extrusion.RowNext | processing/ProcessingHapticsHand/libraries/Shapes3D/src/shapes3d/Extrusion.java:148 | the next row is row + 1, except that the last row wraps to row 1 (row nbrSegs repeats row 0) |
| Extrusion.ColNext | processing/ProcessingHapticsHand/libraries/Shapes3D/src/shapes3d/Extrusion.java:150 | the neighbouring column is always a different, in-range column: the next one, or for the last column the one before it |
| Extrusion.NormalsFaceOneWay | processing/ProcessingHapticsHand/libraries/Shapes3D/src/shapes3d/Extrusion.java:147-158 | with the last column's look-back flipped, every normal is normalise((c[lo] − c[lo+1]) × (next row − here)) for the same forward column pair, so all columns face the same way |
| Extrusion.SeamMatches | processing/ProcessingHapticsHand/libraries/Shapes3D/src/shapes3d/Extrusion.java:133-158 | when the cross-section is closed (last vertex equals the first) the last row coincides with row 0 in both position and normal |
| Extrusion.FillColumn | processing/ProcessingHapticsHand/libraries/Shapes3D/src/shapes3d/Extrusion.java:125-143 | one column's vertices are the section vertex scaled at t, rotated by the path frame and moved to the path point, with their texture coordinates; other columns are unchanged |
| Extrusion.CalcCoords | processing/ProcessingHapticsHand/libraries/Shapes3D/src/shapes3d/Extrusion.java:119-144 | a fresh (nbrSlices+1) × (nbrSegs+1) grid holding every vertex and texture coordinate of the sweep |
| Extrusion.NormalRow | processing/ProcessingHapticsHand/libraries/Shapes3D/src/shapes3d/Extrusion.java:147-158 | every normal in one row is the normalised cross product of the step to the neighbouring column and the step to the next row, negated in the last column; other rows are unchanged |
| Extrusion.CalcNormals | processing/ProcessingHapticsHand/libraries/Shapes3D/src/shapes3d/Extrusion.java:145-159 | a fresh normal grid of the coordinate grid's size whose every entry is that surface normal |
| Extrusion.CapsFaceApart | processing/ProcessingHapticsHand/libraries/Shapes3D/src/shapes3d/Extrusion.java:188-198 | when the end cross-section is the start one shifted, the end cap's normal is exactly the negation of the start cap's: the two caps face away from each other |
| Extrusion.CopyColumn | processing/ProcessingHapticsHand/libraries/Shapes3D/src/shapes3d/Extrusion.java:183-186 | copies column col of the coordinate grid, one entry per cross-section vertex |
| Extrusion.MakeParts | processing/ProcessingHapticsHand/libraries/Shapes3D/src/shapes3d/Extrusion.java:177-207 | a closed path gives only the body mesh; an open one gives the body plus a start cap from column 0 and a mirrored end cap from the last column, with pick colours +0, +1, +2 and the two cap normals |
| Extrusion.CalcShape | processing/ProcessingHapticsHand/libraries/Shapes3D/src/shapes3d/Extrusion.java:113-174 | the grids have (nbrSlices+1) × (nbrSegs+1) entries; without orientation they hold the sweep's vertices and normals, with one they hold the moved vertices and the rotated, normalised normals |
| Extrusion.Extrusion.constructor | processing/ProcessingHapticsHand/libraries/Shapes3D/src/shapes3d/Extrusion.java:96-107 | the new extrusion keeps its path, section and orientation and holds exactly the grids and parts calcShape and makeParts define; an open extrusion's parts are the mesh and its two end caps with their pick colours, the first and last cross-sections and their normals |
| Ellipsoid.TexCoord | processing/ProcessingHapticsHand/libraries/Shapes3D/src/shapes3d/Ellipsoid.java:109-120 | u = col/(nbrSegs+1) and v = row/(nbrSlices+1) both lie in [0, 1), starting at 0 |
| Ellipsoid.TexCoordIncreasing | processing/ProcessingHapticsHand/libraries/Shapes3D/src/shapes3d/Ellipsoid.java:109-120 | u strictly increases with the column and v strictly increases with the row |
| Ellipsoid.ColPrev | processing/ProcessingHapticsHand/libraries/Shapes3D/src/shapes3d/Ellipsoid.java:131 | the previous column is col − 1, and column 0 wraps to nbrSegs − 1, always below nbrSegs |
| Ellipsoid.ColNext | processing/ProcessingHapticsHand/libraries/Shapes3D/src/shapes3d/Ellipsoid.java:132 | the next column is col + 1, and the last column wraps to column 1, always above 0 |
| Ellipsoid.GridNormal | processing/ProcessingHapticsHand/libraries/Shapes3D/src/shapes3d/Ellipsoid.java:125-138 | the north pole row has normal −J and the south pole row +J |
| Ellipsoid.LastColumnTurn | processing/ProcessingHapticsHand/libraries/Shapes3D/src/shapes3d/Ellipsoid.java:103-111 | the last column's east-west angle is exactly −2π: the columns make one full turn |
| Ellipsoid.SeamCloses | processing/ProcessingHapticsHand/libraries/Shapes3D/src/shapes3d/Ellipsoid.java:129-138 | with periodic sine and cosine the last column coincides with column 0 in position and normal |
| Ellipsoid.NorthPole | processing/ProcessingHapticsHand/libraries/Shapes3D/src/shapes3d/Ellipsoid.java:105-118 | row 0 of every column is the single point (0, −radY, 0) |
| Ellipsoid.OnSphere | processing/ProcessingHapticsHand/libraries/Shapes3D/src/shapes3d/Ellipsoid.java:55-57 | for a sphere every vertex lies at distance rad from the centre (the squared length of v is rad²) |
| Ellipsoid.FillRow | processing/ProcessingHapticsHand/libraries/Shapes3D/src/shapes3d/Ellipsoid.java:105-121 | one row of vertices and texture coordinates is filled; the other rows are unchanged |
| Ellipsoid.CalcCoords | processing/ProcessingHapticsHand/libraries/Shapes3D/src/shapes3d/Ellipsoid.java:100-122 | a fresh (nbrSegs+1) × (nbrSlices+1) grid holding every vertex and texture coordinate |
| Ellipsoid.PoleNormals | processing/ProcessingHapticsHand/libraries/Shapes3D/src/shapes3d/Ellipsoid.java:125-128 | every column gets −J at the north pole and +J at the south pole; interior rows are unchanged |
| Ellipsoid.InteriorRow | processing/ProcessingHapticsHand/libraries/Shapes3D/src/shapes3d/Ellipsoid.java:129-138 | every normal of one interior row is the normalised cross product of the east-west and north-south central differences, with the columns wrapping at the seam; other rows are unchanged |
| Ellipsoid.CalcNormals | processing/ProcessingHapticsHand/libraries/Shapes3D/src/shapes3d/Ellipsoid.java:123-138 | a fresh normal grid with the pole normals and the central-difference normal everywhere else |
| Ellipsoid.CalcShape | processing/ProcessingHapticsHand/libraries/Shapes3D/src/shapes3d/Ellipsoid.java:99-156 | without orientation the grids hold the ellipsoid's vertices and normals; with one, the moved vertices and rotated, normalised normals; uv is unaffected |
| Ellipsoid.Ellipsoid.constructor | processing/ProcessingHapticsHand/libraries/Shapes3D/src/shapes3d/Ellipsoid.java:82-93 | the new ellipsoid holds exactly those grids and a single surface mesh part |
| Ellipsoid.Ellipsoid.Sphere | processing/ProcessingHapticsHand/libraries/Shapes3D/src/shapes3d/Ellipsoid.java:55-57 | a sphere is the ellipsoid with all three radii equal and no orientation |
| Box.Quad | processing/ProcessingHapticsHand/libraries/Shapes3D/src/shapes3d/Box.java:125-151 | each of the six faces is a 2 × 2 grid of corners |
| Box.FaceIsItsSide | processing/ProcessingHapticsHand/libraries/Shapes3D/src/shapes3d/Box.java:89-105 | a corner belongs to a face exactly when it lies on that face's plane (its dot product with the face normal is the half extent), both directions |
| Box.FacesWindOutward | processing/ProcessingHapticsHand/libraries/Shapes3D/src/shapes3d/Box.java:99-151 | each face's corner order turns, by the cross product of its two edges, in the direction of that face's normal, scaled by the face's area |
| Box.CornersDistinct | processing/ProcessingHapticsHand/libraries/Shapes3D/src/shapes3d/Box.java:89-97 | with non-zero sizes the eight corners are pairwise different points |
| Box.CornerArray | processing/ProcessingHapticsHand/libraries/Shapes3D/src/shapes3d/Box.java:89-97 | the source's corner table agrees with the bit pattern: corner i has +w/2 exactly when bit 2 of i is set, +h/2 for bit 1 and +d/2 for bit 0 |
| Box.CornerInThreeFaces | processing/ProcessingHapticsHand/libraries/Shapes3D/src/shapes3d/Box.java:125-151 | every corner lies on exactly one face of each opposite pair, so it belongs to exactly three faces |
| Box.NormalArray | processing/ProcessingHapticsHand/libraries/Shapes3D/src/shapes3d/Box.java:99-105 | the six face normals are +J, −J, +K, −K, −I, +I for bottom, top, front, back, left, right |
| Box.OrientAll | processing/ProcessingHapticsHand/libraries/Shapes3D/src/shapes3d/Box.java:107-118 | every element of the array is replaced by the given map of its old value |
| Box.CalcShape | processing/ProcessingHapticsHand/libraries/Shapes3D/src/shapes3d/Box.java:84-121 | corners and normals are the plain ones without orientation, and moved/rotated by the orientation otherwise |
| Box.MakeParts | processing/ProcessingHapticsHand/libraries/Shapes3D/src/shapes3d/Box.java:123-152 | six flat faces, face f using its four corners, normal f and pick colour + f |
| Box.Box.constructor | processing/ProcessingHapticsHand/libraries/Shapes3D/src/shapes3d/Box.java:68-78 | the new box holds exactly the (oriented) corners and normals and the six faces built from them |
| Sky.CropInside | processing/ProcessingHapticsHand/libraries/Shapes3D/src/shapes3d/SkyBox.java:105-113 | every face's crop (a cell of width/4 × height/3 pixels) comes from the given image and lies inside it |
| Sky.CropsDisjoint | processing/ProcessingHapticsHand/libraries/Shapes3D/src/shapes3d/SkyBox.java:105-113 | the six crops are pairwise non-overlapping regions of the composite image |
| Sky.FaceTextured | processing/ProcessingHapticsHand/libraries/Shapes3D/src/shapes3d/SkyBox.java:108-113 | applying a texture with one face's flag changes that face's texture and nothing else |
| Sky.Build | processing/ProcessingHapticsHand/libraries/Shapes3D/src/shapes3d/SkyBox.java:66-70 | the skybox is a cube of side size (w = h = d) with the given orientation; its six faces carry Box's tags "Bottom Face" … "Right Face" and are drawn in TEXTURE mode |
| Sky.SkyBox.constructor | processing/ProcessingHapticsHand/libraries/Shapes3D/src/shapes3d/SkyBox.java:66-70 | the orientation has origin (0, zero_pos, 0) and up (0, −1, 0); the cube has side size and every face carries its Box tag and is drawn textured |
| Sky.SkyBox.Sized | processing/ProcessingHapticsHand/libraries/Shapes3D/src/shapes3d/SkyBox.java:52-54 | the one-argument constructor is the two-argument one with zero_pos = 0: the same cube, face tags and TEXTURE mode |
| Sky.SkyBox.TextureFace | processing/ProcessingHapticsHand/libraries/Shapes3D/src/shapes3d/SkyBox.java:108-113 | one `texture(image, part)` call gives face pn the region and leaves the other faces unchanged |
| Sky.SkyBox.Texture | processing/ProcessingHapticsHand/libraries/Shapes3D/src/shapes3d/SkyBox.java:105-115 | after texturing, each face holds exactly its own cell of the composite image (top, left, front, right, back, bottom layout) and nothing else of the faces changes |
| Terrains.Trunc | processing/ProcessingHapticsHand/libraries/Shapes3D/src/shapes3d/Terrain.java:321-322 | Java's `(int)` cast truncates toward zero: the largest integer ≤ r for r ≥ 0, the smallest ≥ r for r < 0 |
| Terrains.NextIndexInside | processing/ProcessingHapticsHand/libraries/Shapes3D/src/shapes3d/Terrain.java:374-376 | the next row or column (wrapping the last to 1) stays inside the map |
| Terrains.SampleUVInUnit | processing/ProcessingHapticsHand/libraries/Shapes3D/src/shapes3d/Terrain.java:357-370 | every sample's texture coordinates lie in [0, 1], reaching 1 at the last column |
| Terrains.UpNormalPointsUp | processing/ProcessingHapticsHand/libraries/Shapes3D/src/shapes3d/Terrain.java:377-383 | after the flip of a downward cross product and normalisation, every terrain normal has y ≥ 0 |
| Terrains.CalcBounds | processing/ProcessingHapticsHand/libraries/Shapes3D/src/shapes3d/Terrain.java:429-447 | the overlap of the world square [0, worldSize]² and rectangle B is empty exactly when they do not overlap; otherwise it is an ordered rectangle inside both |
| Terrains.BoundsHaveArea | processing/ProcessingHapticsHand/libraries/Shapes3D/src/shapes3d/Terrain.java:429-447 | a rectangle with distinct corners overlaps the world in a rectangle of positive width and height, when it overlaps at all |
| Terrains.BoundsOfInnerBox | processing/ProcessingHapticsHand/libraries/Shapes3D/src/shapes3d/Terrain.java:429-447 | a rectangle inside the world square is its own overlap |
| Terrains.CellHeightIsPlanar | processing/ProcessingHapticsHand/libraries/Shapes3D/src/shapes3d/Terrain.java:340-351 | moving the opposite corner onto the plane and then interpolating bilinearly gives the plane through the three corners of the triangle the position is in |
| Terrains.CellHeight | processing/ProcessingHapticsHand/libraries/Shapes3D/src/shapes3d/Terrain.java:340-351 | the interpolated height reproduces all four corner heights at the cell's corners |
| Terrains.FillRow | processing/ProcessingHapticsHand/libraries/Shapes3D/src/shapes3d/Terrain.java:364-371 | one row of the grid gets (x·mapScale, height, z·mapScale) and its texture coordinates; other rows are unchanged |
| Terrains.CalcCoords | processing/ProcessingHapticsHand/libraries/Shapes3D/src/shapes3d/Terrain.java:357-371 | a fresh mapSize × mapSize grid holding every height-map sample and its texture coordinates |
| Terrains.NormalRow | processing/ProcessingHapticsHand/libraries/Shapes3D/src/shapes3d/Terrain.java:373-385 | one row of normals is filled with the upward cross-product normal; other rows are unchanged |
| Terrains.CalcNormals | processing/ProcessingHapticsHand/libraries/Shapes3D/src/shapes3d/Terrain.java:372-387 | a fresh normal grid whose every entry is the upward normal of its sample |
| Terrains.Terrain.constructor | processing/ProcessingHapticsHand/libraries/Shapes3D/src/shapes3d/Terrain.java:67-79 | mapScale = worldSize/(mapSize − 1), the view starts at the origin with a horizon of worldSize/4, and the grids are those of calcShape with one mesh part |
| Terrains.Terrain.Height | processing/ProcessingHapticsHand/libraries/Shapes3D/src/shapes3d/Terrain.java:317-353 | a height exists exactly when the truncated cell indices are inside the map |
| Terrains.Terrain.HeightAtSample | processing/ProcessingHapticsHand/libraries/Shapes3D/src/shapes3d/Terrain.java:317-353 | at a sample position the height is that sample's own height |
| Terrains.Terrain.WorldPosition | processing/ProcessingHapticsHand/libraries/Shapes3D/src/shapes3d/Terrain.java:279-283 | only the view centre moves, to (x, z) |
| Terrains.Terrain.WorldPositionVec | processing/ProcessingHapticsHand/libraries/Shapes3D/src/shapes3d/Terrain.java:285-288 | the vector form takes x from pos.x and z from pos.y |
| Terrains.Terrain.WorldHorizon | processing/ProcessingHapticsHand/libraries/Shapes3D/src/shapes3d/Terrain.java:251-254 | only the horizon changes, to the given value |
| Shapes.FlagSelectsOnly | processing/ProcessingHapticsHand/libraries/Shapes3D/src/shapes3d/Shape3D.java:463-468 | the flag of part q selects part pn exactly when pn = q (for the eight parts) |
| Shapes.AllSelects | processing/ProcessingHapticsHand/libraries/Shapes3D/src/shapes3d/utils/SConstants.java:57 | the ALL mask (0b11111111) selects every one of the eight parts |
| Shapes.FlagIsBit | processing/ProcessingHapticsHand/libraries/Shapes3D/src/shapes3d/Shape3D.java:463-467 | the flag the loop holds at part pn is 1 << pn for pn < 32 and 0 once the 32-bit int has shifted its bit out |
| Shapes.SelectedFrom32 | processing/ProcessingHapticsHand/libraries/Shapes3D/src/shapes3d/Shape3D.java:463-467 | from part 32 on the flag is 0, so the test `flag == (parts & flag)` selects the part whatever the mask |
| Shapes.FlagAboveEight | processing/ProcessingHapticsHand/libraries/Shapes3D/src/shapes3d/Shape3D.java:443 | parts 8 to 31 have non-zero flags that lie outside ALL |
| Shapes.UsedMaskStopsAtEight | processing/ProcessingHapticsHand/libraries/Shapes3D/src/shapes3d/Shape3D.java:442-445 | a mask cut down by `& ALL` never selects parts 8 to 31 |
| Shapes.FromArray | processing/ProcessingHapticsHand/libraries/Shapes3D/src/shapes3d/Shape3D.java:929-934 | an array gives a vector exactly when it has at least three entries, and then its first three in order |
| Shapes.Negated | processing/ProcessingHapticsHand/libraries/Shapes3D/src/shapes3d/Shape3D.java:1124-1131 | negating an array keeps its length and negates each entry |
| Shapes.SetFromTwice | processing/ProcessingHapticsHand/libraries/Shapes3D/src/shapes3d/Shape3D.java:1050-1057 | setting a vector from the same array twice is the same as once |
| Shapes.TurnedByUndone | processing/ProcessingHapticsHand/libraries/Shapes3D/src/shapes3d/Shape3D.java:1124-1131 | turning by an array and then by its negation gives back the original rotation, including when the array is too short |
| Shapes.TurnsCommute | processing/ProcessingHapticsHand/libraries/Shapes3D/src/shapes3d/Shape3D.java:1124-1131 | two `rotateBy(float[])` calls give the same rotation in either order |
| Shapes.ColourSplits | processing/ProcessingHapticsHand/libraries/Shapes3D/src/shapes3d/Shape3D.java:343-346 | colour pickColor + i with i < 8 has low three bits i and base pickColor when pickColor's low bits are clear |
| Shapes.ColourJoins | processing/ProcessingHapticsHand/libraries/Shapes3D/src/shapes3d/Shape3D.java:149-152 | every pixel colour is its base plus its low three bits, with the base's low bits clear and the part below 8 |
| Shapes.PartOf | processing/ProcessingHapticsHand/libraries/Shapes3D/src/shapes3d/Shape3D.java:151 | the part a colour names (c & 0x07) is between 0 and 7 |
| Shapes.PartOfBits | processing/ProcessingHapticsHand/libraries/Shapes3D/src/shapes3d/Shape3D.java:151 | that part number is exactly the colour's low three bits |
| Shapes.PickFlagSelectsPart | processing/ProcessingHapticsHand/libraries/Shapes3D/src/shapes3d/Shape3D.java:151-152 | the flag a pick reports (1 << part) selects exactly the picked part |
| Shapes.Updated | processing/ProcessingHapticsHand/libraries/Shapes3D/src/shapes3d/Shape3D.java:463-468 | the flag loop keeps the number of parts and changes each part by the given map exactly when the mask selects it |
| Shapes.VisibleTwice | processing/ProcessingHapticsHand/libraries/Shapes3D/src/shapes3d/Shape3D.java:874-882 | making the same parts visible (or invisible) twice is the same as once |
| Shapes.PickRoundTrip | processing/ProcessingHapticsHand/libraries/Shapes3D/src/shapes3d/Shape3D.java:149-156 | a registered colour picks its shape, and that shape's pick colour plus the picked part gives the colour back |
| Shapes.Registry.constructor | processing/ProcessingHapticsHand/libraries/Shapes3D/src/shapes3d/Shape3D.java:70-86 | the registry starts with pick colour 0xFF000000, shape count 0, no colours and no shapes |
| Shapes.Registry.NextPickColor | processing/ProcessingHapticsHand/libraries/Shapes3D/src/shapes3d/Shape3D.java:106-109 | each new pick colour is 8 above the last, so its low three bits stay clear |
| Shapes.Registry.NextShapeNo | processing/ProcessingHapticsHand/libraries/Shapes3D/src/shapes3d/Shape3D.java:347 | the shape count goes up by one and the new shape gets the new count |
| Shapes.Registry.RegisterColours | processing/ProcessingHapticsHand/libraries/Shapes3D/src/shapes3d/Shape3D.java:344-346 | the eight colours with the shape's base map to it; every other entry of the colour map is unchanged |
| Shapes.Registry.AddShape | processing/ProcessingHapticsHand/libraries/Shapes3D/src/shapes3d/Shape3D.java:349 | the shape is appended to the list of shapes made |
| Shapes.Pick | processing/ProcessingHapticsHand/libraries/Shapes3D/src/shapes3d/Shape3D.java:149-157 | a pixel colour picks something exactly when it is registered, and then names the shape, the part (c & 7) and its flag (1 << part), whose colour is the pixel's |
| Shapes.MarqueeNextPixel | processing/ProcessingHapticsHand/libraries/Shapes3D/src/shapes3d/Shape3D.java:218-226 | adding the next pixel of a row adds its pick, if the colour is registered, and nothing else |
| Shapes.MarqueeNextRow | processing/ProcessingHapticsHand/libraries/Shapes3D/src/shapes3d/Shape3D.java:216-227 | the marquee's picks are those of the rows above plus those of the next row |
| Shapes.PixelIndexInside | processing/ProcessingHapticsHand/libraries/Shapes3D/src/shapes3d/Shape3D.java:217-219 | a pixel inside the buffer has an index h + v·width inside the pixel array |
| Shapes.MarqueeRow | processing/ProcessingHapticsHand/libraries/Shapes3D/src/shapes3d/Shape3D.java:218-226 | scanning one row adds exactly that row's registered picks to the selection |
| Shapes.MarqueePick | processing/ProcessingHapticsHand/libraries/Shapes3D/src/shapes3d/Shape3D.java:174-231 | a marquee outside the buffer picks nothing; otherwise the selection is exactly the set of picks of every registered pixel in the clipped marquee |
| Shapes.FlagsHoldEachPick | processing/ProcessingHapticsHand/libraries/Shapes3D/src/shapes3d/Shape3D.java:244-248 | the merged flags of a shape include the flag of every pick of that shape |
| Shapes.FlagsOnlyFromPicks | processing/ProcessingHapticsHand/libraries/Shapes3D/src/shapes3d/Shape3D.java:244-248 | the merged flags hold no bit that none of that shape's picks has |
| Shapes.NoPicksNoFlags | processing/ProcessingHapticsHand/libraries/Shapes3D/src/shapes3d/Shape3D.java:244-248 | a shape that was not picked has no merged flags |
| Shapes.MergePicks | processing/ProcessingHapticsHand/libraries/Shapes3D/src/shapes3d/Shape3D.java:242-255 | the merge has one entry per picked shape and no other, each with part −1 and the OR of that shape's pick flags |
| Shapes.Shape3D.constructor | processing/ProcessingHapticsHand/libraries/Shapes3D/src/shapes3d/Shape3D.java:339-350 | a new shape takes the next pick colour and shape number, owns its eight colours in the colour map (other entries unchanged), is appended to the shapes made and starts at the origin using ALL parts |
| Shapes.Shape3D.Use | processing/ProcessingHapticsHand/libraries/Shapes3D/src/shapes3d/Shape3D.java:442-445 | the default mask becomes mask & ALL, so it selects no part from 8 on |
| Shapes.Shape3D.ForParts | processing/ProcessingHapticsHand/libraries/Shapes3D/src/shapes3d/Shape3D.java:463-468 | the parts change exactly as the flag loop over the mask says |
| Shapes.Shape3D.Tag | processing/ProcessingHapticsHand/libraries/Shapes3D/src/shapes3d/Shape3D.java:462-470 | the selected parts get the tag; the others keep theirs |
| Shapes.Shape3D.DrawMode | processing/ProcessingHapticsHand/libraries/Shapes3D/src/shapes3d/Shape3D.java:509-517 | the selected parts get the draw mode; the others keep theirs |
| Shapes.Shape3D.Visible | processing/ProcessingHapticsHand/libraries/Shapes3D/src/shapes3d/Shape3D.java:874-882 | the selected parts get the visibility; the others keep theirs |
| Shapes.Shape3D.VisibleUsed | processing/ProcessingHapticsHand/libraries/Shapes3D/src/shapes3d/Shape3D.java:864-866 | the one-argument form uses the default mask |
| Shapes.Shape3D.SetTexture | processing/ProcessingHapticsHand/libraries/Shapes3D/src/shapes3d/Shape3D.java:735-743 | the selected parts get the texture; the others keep theirs |
| Shapes.Shape3D.MoveToArray | processing/ProcessingHapticsHand/libraries/Shapes3D/src/shapes3d/Shape3D.java:929-936 | the position takes the array's first three entries when it has three, and is unchanged otherwise |
| Shapes.Shape3D.RotateToArray | processing/ProcessingHapticsHand/libraries/Shapes3D/src/shapes3d/Shape3D.java:1050-1057 | the rotation takes the array's first three entries when it has three, and is unchanged otherwise |
| Shapes.Shape3D.RotateBy | processing/ProcessingHapticsHand/libraries/Shapes3D/src/shapes3d/Shape3D.java:1110-1115 | the angles are added to the rotation |
| Shapes.Shape3D.RotateByArray | processing/ProcessingHapticsHand/libraries/Shapes3D/src/shapes3d/Shape3D.java:1124-1131 | the first three entries are added to the rotation when the array has three, and it is unchanged otherwise |
| Groups.Present | processing/ProcessingHapticsHand/libraries/Shapes3D/src/shapes3d/ShapeGroup.java:52-61 | keeping the non-null shapes never gives more shapes than were passed |
| Groups.PresentExactly | processing/ProcessingHapticsHand/libraries/Shapes3D/src/shapes3d/ShapeGroup.java:52-61 | a shape is kept exactly when it was passed (non-null), both directions |
| Groups.PresentAppend | processing/ProcessingHapticsHand/libraries/Shapes3D/src/shapes3d/ShapeGroup.java:52-61 | filtering two lists one after the other is filtering their concatenation |
| Groups.AllNullAddsNothing | processing/ProcessingHapticsHand/libraries/Shapes3D/src/shapes3d/ShapeGroup.java:52-61 | passing only nulls adds nothing |
| Groups.ShapeGroup.constructor | processing/ProcessingHapticsHand/libraries/Shapes3D/src/shapes3d/ShapeGroup.java:40-44 | a new group is at the origin, unrotated, with no children |
| Groups.ShapeGroup.AddChild | processing/ProcessingHapticsHand/libraries/Shapes3D/src/shapes3d/ShapeGroup.java:52-61 | the non-null shapes passed are appended in order; a null or empty argument adds nothing |
| Groups.ShapeGroup.Children | processing/ProcessingHapticsHand/libraries/Shapes3D/src/shapes3d/ShapeGroup.java:67-69 | the children, in order |
| Groups.ShapeGroup.Child | processing/ProcessingHapticsHand/libraries/Shapes3D/src/shapes3d/ShapeGroup.java:76-78 | null exactly when n is not an index of the list, otherwise child n |
| Groups.ShapeGroup.Visible | processing/ProcessingHapticsHand/libraries/Shapes3D/src/shapes3d/ShapeGroup.java:86-91 | each child's parts under its default mask get the visibility; nothing else of a child changes, its position and rotation included |
| Groups.ShapeGroup.MoveTo | processing/ProcessingHapticsHand/libraries/Shapes3D/src/shapes3d/ShapeGroup.java:112-117 | the group's position becomes (x, y, z) |
| Groups.ShapeGroup.MoveToArray | processing/ProcessingHapticsHand/libraries/Shapes3D/src/shapes3d/ShapeGroup.java:126-133 | the position takes the array's first three entries when it has three, and is unchanged otherwise |
| Groups.ShapeGroup.RotateToArray | processing/ProcessingHapticsHand/libraries/Shapes3D/src/shapes3d/ShapeGroup.java:191-198 | the rotation takes the array's first three entries when it has three, and is unchanged otherwise |
| Groups.ShapeGroup.RotateBy | processing/ProcessingHapticsHand/libraries/Shapes3D/src/shapes3d/ShapeGroup.java:251-256 | the angles are added to the rotation |
| Groups.ShapeGroup.RotateByArray | processing/ProcessingHapticsHand/libraries/Shapes3D/src/shapes3d/ShapeGroup.java:265-272 | the first three entries are added to the rotation when the array has three, and it is unchanged otherwise |
| Md2.UByte | processing/ProcessingHapticsHand/libraries/Shapes3D/src/shapes3d/utils/MD2.java:228-232 | `getUByte` turns a signed byte into its unsigned value in [0, 256) |
| Md2.ByteOfUByte | processing/ProcessingHapticsHand/libraries/Shapes3D/src/shapes3d/utils/MD2.java:228-232 | the unsigned value gives back the original signed byte |
| Md2.UByteOfByte | processing/ProcessingHapticsHand/libraries/Shapes3D/src/shapes3d/utils/MD2.java:228-232 | every value in [0, 256) is the unsigned value of exactly the byte that encodes it |
| Md2.CharKeepsByte | processing/ProcessingHapticsHand/libraries/Shapes3D/src/shapes3d/utils/MD2.java:262 | `(char)` of a byte keeps the byte's value mod 256 and is below 128 exactly for non-negative bytes |
| Md2.U32 | processing/ProcessingHapticsHand/libraries/Shapes3D/src/shapes3d/utils/MD2.java:114 | four little-endian bytes give an unsigned value in [0, 2³²) |
| Md2.I32 | processing/ProcessingHapticsHand/libraries/Shapes3D/src/shapes3d/utils/MD2.java:139-154 | `getInt` reads four little-endian bytes as a 32-bit two's-complement value |
| Md2.IntBytes | processing/ProcessingHapticsHand/libraries/Shapes3D/src/shapes3d/utils/MD2.java:114 | every 32-bit value has a four-byte little-endian encoding |
| Md2.IntRoundTrip | processing/ProcessingHapticsHand/libraries/Shapes3D/src/shapes3d/utils/MD2.java:114 | decoding the little-endian encoding of a 32-bit value gives the value back |
| Md2.U16 | processing/ProcessingHapticsHand/libraries/Shapes3D/src/shapes3d/utils/MD2.java:206 | `getChar` reads two little-endian bytes as an unsigned value in [0, 2¹⁶) |
| Md2.ShortBytes | processing/ProcessingHapticsHand/libraries/Shapes3D/src/shapes3d/utils/MD2.java:205-221 | every 16-bit value, signed or unsigned, has a two-byte encoding |
| Md2.Short | processing/ProcessingHapticsHand/libraries/Shapes3D/src/shapes3d/utils/MD2.java:205-209 | the intended `getShort` gives a signed 16-bit value in [−2¹⁵, 2¹⁵) |
| Md2.UShort | processing/ProcessingHapticsHand/libraries/Shapes3D/src/shapes3d/utils/MD2.java:217-221 | the intended `getUShort` gives an unsigned 16-bit value in [0, 2¹⁶) |
| Md2.ShortRoundTrip | processing/ProcessingHapticsHand/libraries/Shapes3D/src/shapes3d/utils/MD2.java:205-209 | the corrected `getShort` decodes every signed 16-bit value back from its encoding |
| Md2.UShortRoundTrip | processing/ProcessingHapticsHand/libraries/Shapes3D/src/shapes3d/utils/MD2.java:217-221 | the corrected `getUShort` decodes every unsigned 16-bit value back from its encoding |
| Md2.ShortAsWrittenLosesSign | processing/ProcessingHapticsHand/libraries/Shapes3D/src/shapes3d/utils/MD2.java:205-209 | as written, `getShort` reads the encoding of −1 as +1 |
| Md2.UShortAsWrittenGoesNegative | processing/ProcessingHapticsHand/libraries/Shapes3D/src/shapes3d/utils/MD2.java:217-221 | as written, `getUShort` reads the encoding of 65535 as −1 |
| Md2.ShortAsWritten | processing/ProcessingHapticsHand/libraries/Shapes3D/src/shapes3d/utils/MD2.java:205-209 | as written, `getShort` never returns a negative value: its result is in [0, 2¹⁵] |
| Md2.UShortAsWritten | processing/ProcessingHapticsHand/libraries/Shapes3D/src/shapes3d/utils/MD2.java:217-221 | as written, `getUShort` returns a signed 16-bit value in [−2¹⁵, 2¹⁵) |
| Md2.AsWrittenSwapped | processing/ProcessingHapticsHand/libraries/Shapes3D/src/shapes3d/utils/MD2.java:205-221 | as written, `getUShort` is the signed read and `getShort` is its absolute value |
| Md2.Buffer.constructor | processing/ProcessingHapticsHand/libraries/Shapes3D/src/shapes3d/utils/MD2.java:111-116 | the wrapped buffer starts at position 0 over the file's bytes |
| Md2.Buffer.Get | processing/ProcessingHapticsHand/libraries/Shapes3D/src/shapes3d/utils/MD2.java:190 | `get` returns the byte at the position and advances by one |
| Md2.Buffer.GetInt | processing/ProcessingHapticsHand/libraries/Shapes3D/src/shapes3d/utils/MD2.java:139-154 | `getInt` returns the little-endian 32-bit value at the position and advances by four |
| Md2.Buffer.GetFloat | processing/ProcessingHapticsHand/libraries/Shapes3D/src/shapes3d/utils/MD2.java:173-178 | `getFloat` returns the float whose bits are the four bytes at the position and advances by four |
| Md2.Buffer.SetPosition | processing/ProcessingHapticsHand/libraries/Shapes3D/src/shapes3d/utils/MD2.java:158 | `position(p)` moves to p and changes nothing else |
| Md2.TakeUntilStops | processing/ProcessingHapticsHand/libraries/Shapes3D/src/shapes3d/utils/MD2.java:261-267 | the text read is a prefix of the bytes with no stop character in it, and is followed by the stop character when it ends early |
| Md2.TakeUntilUnique | processing/ProcessingHapticsHand/libraries/Shapes3D/src/shapes3d/utils/MD2.java:261-267 | that description has exactly one solution: any prefix with those properties is the text read |
| Md2.Chars | processing/ProcessingHapticsHand/libraries/Shapes3D/src/shapes3d/utils/MD2.java:262 | every byte gives one character |
| Md2.ReadString | processing/ProcessingHapticsHand/libraries/Shapes3D/src/shapes3d/utils/MD2.java:257-270 | the string is the n-byte field up to its first stop character and the position moves past the whole field; a field past the end of the data fails |
| Md2.LoadHeader | processing/ProcessingHapticsHand/libraries/Shapes3D/src/shapes3d/utils/MD2.java:137-155 | the header is the 4-character ident followed by sixteen little-endian ints in the source's order, and reading moves past all 68 bytes; a short file fails |
| Md2.FitsStep | processing/ProcessingHapticsHand/libraries/Shapes3D/src/shapes3d/utils/MD2.java:171-194 | when frame j fits in the data, the frames up to j + 1 fit |
| Md2.FitsStop | processing/ProcessingHapticsHand/libraries/Shapes3D/src/shapes3d/utils/MD2.java:171-194 | when some frame does not fit in the data, the frames as a whole do not fit |
| Md2.PointRun | processing/ProcessingHapticsHand/libraries/Shapes3D/src/shapes3d/utils/MD2.java:180-193 | a run of n four-byte points gives n points |
| Md2.FramePoints | processing/ProcessingHapticsHand/libraries/Shapes3D/src/shapes3d/utils/MD2.java:171-194 | each frame gives numXYZ points |
| Md2.FramesStep | processing/ProcessingHapticsHand/libraries/Shapes3D/src/shapes3d/utils/MD2.java:171-194 | the points of j + 1 frames are those of j frames followed by frame j's |
| Md2.PointAt | processing/ProcessingHapticsHand/libraries/Shapes3D/src/shapes3d/utils/MD2.java:180-192 | the points array has numFrames·numXYZ entries and entry j·numXYZ + i is point i of frame j |
| Md2.NamesStep | processing/ProcessingHapticsHand/libraries/Shapes3D/src/shapes3d/utils/MD2.java:179 | the names of j + 1 frames are those of j frames followed by frame j's name |
| Md2.ReadTriple | processing/ProcessingHapticsHand/libraries/Shapes3D/src/shapes3d/utils/MD2.java:173-178 | three floats are read in order and the position moves 12 bytes |
| Md2.ReadFrameHeader | processing/ProcessingHapticsHand/libraries/Shapes3D/src/shapes3d/utils/MD2.java:173-179 | a frame's header is its scale, its translation and its 16-byte name, 40 bytes in all |
| Md2.ReadPoint | processing/ProcessingHapticsHand/libraries/Shapes3D/src/shapes3d/utils/MD2.java:181-191 | a point is scale·unsigned byte + translation on each axis, and the normal-index byte is skipped: 4 bytes in all |
| Md2.ReadFramePoints | processing/ProcessingHapticsHand/libraries/Shapes3D/src/shapes3d/utils/MD2.java:180-193 | the frame's points are stored after the earlier ones and the bounding box grows to hold them |
| Md2.FrameAt | processing/ProcessingHapticsHand/libraries/Shapes3D/src/shapes3d/utils/MD2.java:172-179 | frame j starts at offsetFrames + framesize·j with its header and then its points |
| Md2.ReadFrame | processing/ProcessingHapticsHand/libraries/Shapes3D/src/shapes3d/utils/MD2.java:172-179 | the position moves to frame j's start and its header is read |
| Md2.ReadNextFrame | processing/ProcessingHapticsHand/libraries/Shapes3D/src/shapes3d/utils/MD2.java:171-194 | after frame j the points array holds the points of frames 0..j and the box is theirs |
| Md2.ReadFrames | processing/ProcessingHapticsHand/libraries/Shapes3D/src/shapes3d/utils/MD2.java:171-194 | reading succeeds exactly when every frame fits; then the array holds every frame's points, the names are the frames' names and the box is the points' box |
| Md2.GetPointList | processing/ProcessingHapticsHand/libraries/Shapes3D/src/shapes3d/utils/MD2.java:157-197 | on success the points are every frame's points in order and modOffset and modSize are the centre and extent of their bounding box |
| Md2.ScanBack | processing/ProcessingHapticsHand/libraries/Shapes3D/src/shapes3d/utils/MD2.java:312-314 | scanning back stops at 0 or at the last non-digit, with only digits after it |
| Md2.Stripped | processing/ProcessingHapticsHand/libraries/Shapes3D/src/shapes3d/utils/MD2.java:306-319 | the result is a prefix of the name that keeps at least two characters and ends in a non-digit, with only digits cut; it is empty exactly when every character after the first is a digit |
| Md2.StripIdempotent | processing/ProcessingHapticsHand/libraries/Shapes3D/src/shapes3d/utils/MD2.java:306-319 | stripping twice is stripping once |
| Md2.StripTrailingNumber | processing/ProcessingHapticsHand/libraries/Shapes3D/src/shapes3d/utils/MD2.java:306-319 | a null or empty name gives "" and any other its stripped form |
| Md2.FrameInState | processing/ProcessingHapticsHand/libraries/Shapes3D/src/shapes3d/utils/MD2.java:277-299 | every frame lies in one of the animation states found |
| Md2.ExtendLast | processing/ProcessingHapticsHand/libraries/Shapes3D/src/shapes3d/utils/MD2.java:288-289 | a frame with the current state's name extends that state to it |
| Md2.StartNext | processing/ProcessingHapticsHand/libraries/Shapes3D/src/shapes3d/utils/MD2.java:291-293 | a frame with another name closes the state and starts a new one at that frame |
| Md2.GetModelStates | processing/ProcessingHapticsHand/libraries/Shapes3D/src/shapes3d/utils/MD2.java:277-299 | no frames gives no state list; otherwise the states are the maximal runs of consecutive frames with the same stripped name, in order |
| Md2.VertexRun | processing/ProcessingHapticsHand/libraries/Shapes3D/src/shapes3d/utils/MD2.java:341-347 | n vertices are read, 12 bytes each |
| Md2.CountsMatch | processing/ProcessingHapticsHand/libraries/Shapes3D/src/shapes3d/utils/MD2.java:335-348 | the vertex counts of the commands (the length of each) add up to the number of vertices read |
| Md2.GlStep | processing/ProcessingHapticsHand/libraries/Shapes3D/src/shapes3d/utils/MD2.java:337-347 | reading one command appends it and its vertices, and the rest is read from just after them |
| Md2.ReadVertices | processing/ProcessingHapticsHand/libraries/Shapes3D/src/shapes3d/utils/MD2.java:341-347 | n (s, t, index) vertices are read in order and the position moves 12·n bytes |
| Md2.ReadCommand | processing/ProcessingHapticsHand/libraries/Shapes3D/src/shapes3d/utils/MD2.java:337-347 | one command read moves the position forward and keeps the lists a prefix of the whole list, or fails when the data runs out |
| Md2.GetGLcommands | processing/ProcessingHapticsHand/libraries/Shapes3D/src/shapes3d/utils/MD2.java:326-366 | reading succeeds exactly when the command list from offsetGLcmds to offsetEnd fits the data, and then gives exactly that list of commands and vertices |
| Md2.Md2Library.constructor | processing/ProcessingHapticsHand/libraries/Shapes3D/src/shapes3d/utils/MD2.java:105-106 | the model cache starts empty |
| Md2.Md2Library.GetModelData | processing/ProcessingHapticsHand/libraries/Shapes3D/src/shapes3d/utils/MD2.java:105-132 | a cached model comes back unchanged; otherwise a loadable file gives a fresh model decoded from it, which is cached, and an unreadable one gives nothing and leaves the cache alone |
| Md2Models.BoxHoldsAll | processing/ProcessingHapticsHand/libraries/Shapes3D/src/shapes3d/utils/MD2.java:184-189 | the running min/max box holds every point |
| Md2Models.BoxIsHull | processing/ProcessingHapticsHand/libraries/Shapes3D/src/shapes3d/utils/MD2.java:162-189 | starting from ±Float.MAX_VALUE, the running box of points in float range is their exact bounding box |
| Md2Models.HullIsTight | processing/ProcessingHapticsHand/libraries/Shapes3D/src/shapes3d/utils/MD2.java:184-189 | each side of the bounding box is reached by some point |
| Md2Models.HullMoves | processing/ProcessingHapticsHand/libraries/Shapes3D/src/shapes3d/utils/MD2_Data.java:86-89 | moving every point by −o moves the bounding box by −o |
| Md2Models.CentringCentres | processing/ProcessingHapticsHand/libraries/Shapes3D/src/shapes3d/utils/MD2_Data.java:76-90 | centring on the box centre puts the new box's centre at the origin and keeps its size |
| Md2Models.HullMaps | processing/ProcessingHapticsHand/libraries/Shapes3D/src/shapes3d/utils/MD2_Data.java:97-100 | a monotone map of every coordinate maps the bounding box's corners |
| Md2Models.HullScales | processing/ProcessingHapticsHand/libraries/Shapes3D/src/shapes3d/utils/MD2_Data.java:97-100 | scaling by s ≥ 0 scales the bounding box's corners |
| Md2Models.ScalingKeepsSize | processing/ProcessingHapticsHand/libraries/Shapes3D/src/shapes3d/utils/MD2_Data.java:97-100 | scaling by s ≥ 0 scales the size by s, so `scaleModel` keeps modSize equal to the size of the points |
| Md2Models.Md2Data.constructor | processing/ProcessingHapticsHand/libraries/Shapes3D/src/shapes3d/utils/MD2_Data.java:57-70 | every field holds the value passed |
| Md2Models.Md2Data.CentreModelBy | processing/ProcessingHapticsHand/libraries/Shapes3D/src/shapes3d/utils/MD2_Data.java:86-90 | every point moves by −offset and the offset becomes zero |
| Md2Models.Md2Data.CentreModel | processing/ProcessingHapticsHand/libraries/Shapes3D/src/shapes3d/utils/MD2_Data.java:76-78 | the points move by −modOffset and the offset becomes zero |
| Md2Models.Md2Data.ScaleModel | processing/ProcessingHapticsHand/libraries/Shapes3D/src/shapes3d/utils/MD2_Data.java:97-101 | every point and the size are scaled by the factor |
| Md2Models.Md2Data.OrientModel | processing/ProcessingHapticsHand/libraries/Shapes3D/src/shapes3d/utils/MD2_Data.java:107-125 | every point is mapped by the orientation and modOffset and modSize become the centre and extent of the new points' box |


## Left out

- Rendering and drawing: every `draw` and `drawPickBuffer`, fill, stroke, stroke weight, scale, movie, uv transforms and mesh settings. `_Mesh2D`, `_Oval` and the `Messages` console output are left out too. They are output, not logic, so a part is modelled only by its pick colour, tag, draw mode, visibility and texture. The geometric parts (`ShapeParts.Part`: faces, meshes, caps) carry no tag: the face names `makeParts` gives a box (Box.java:131-151, kept in `Box.FaceTags` and used by the sky box) and the "Terrain map" tag of the terrain mesh (Terrain.java:394) are not attached to them. Only a shape's `PartState` list holds tags.
- The pick buffer: `Shape3D.pick` creating and drawing its colour buffer is left out. Picking is modelled from the pixel colours the buffer holds, given as a sequence.
- Shapes.MarqueePick: the selection is a set. The sort by `Picked.compareTo` into an array is not modelled, and the order of `mergePicks`' HashMap is not modelled either. The model also requires the buffer to have positive width and height.
- Shapes.Registry.NextShapeNo: the shape counter is an unbounded integer. The 32-bit overflow of `nextShapeNo` after 2³¹ shapes is not modelled.
- Shapes.Shape3D.constructor: `tagNo` is a `const` here, while in Java it is a public field that user code may reassign; the shape-level `tag` string that Shape3D.java:348 builds from the class name and `tagNo` is not modelled, since it is a display label only.
- Static fields of Shape3D and MD2 are fields of one registry or buffer object that is passed explicitly. `releaseMemory` nulling the grids is not modelled.
- Texture, image and file loading (`loadImage`, `loadBytes`, `Textures`, `PImage.get`, `System.gc`) are left out. Images are their identity and size, and a model file is an optional byte sequence passed in.
- Md2.Md2Library.GetModelData: the cache is keyed by the model file only, as in the source, so a second skin for the same model is ignored. The skin image is an identity number.
- Md2.Buffer.GetFloat: IEEE-754 decoding of the four bytes is the `asFloat` parameter.
- Md2.Buffer.GetInt: reads beyond the data, which throw in the source, are excluded by requires. The operations built on the buffer report such a short file as a failure.
- Md2.ReadString: n is required to be non-negative. The header and frame fields always pass 4 or 16.
- Md2.GetPointList: the offsets read from the header are unbounded integers, so the 32-bit overflow of `offsetFrames + framesize * j` is not modelled.
- Md2Models.Md2Data.OrientModel: `Orientation.applyTRto` is a function parameter, so the points are stated as its images and the box as their hull.
- PVector objects are values in the model, so aliasing between arrays that share PVector objects (the MD2 points, `Util.deepCopy`) is not modelled.
- Floating-point rounding and IEEE behaviour (NaN apart from the one guard in the hand environment, infinities, `float` versus `double`) are not modelled. Reals stand for both.
- Vectors.Normalize: `sqrt` is a parameter, so the model proves the result is a positive multiple of the input, or the input itself when its magnitude is 0 or 1. It does not prove unit length.
- Ellipsoid.Fits and Extrusion.Fits: zero segment or slice counts are excluded. In the source the `double` division by such a count gives an infinity or NaN rather than throwing, and the grids built from it are not meaningful.
- The grid normals of the extrusion and the ellipsoid, and their orientation, are `Vector3D` values in the source, whose `normalize` throws an ArithmeticException on a zero norm. The model's `Normalize` follows `PVector.normalize` and leaves a zero vector as it is. So for a degenerate surface (two coincident grid points, a zero cross product) the members below return a zero normal where the source throws:
- Extrusion.NormalRow: a zero cross product gives a zero normal; the source throws at Extrusion.java:157.
- Extrusion.CalcNormals: the same zero normal, through NormalRow.
- Extrusion.CalcShape: the same zero normal, through CalcNormals and Orient.
- Extrusion.Extrusion.constructor: the same zero normal, through CalcShape.
- Ellipsoid.GridNormal: a zero central-difference cross product gives a zero normal; the source throws at Ellipsoid.java:136.
- Ellipsoid.InteriorRow: the same zero normal, through GridNormal.
- Ellipsoid.CalcNormals: the same zero normal, through InteriorRow.
- Ellipsoid.CalcShape: the same zero normal, through CalcNormals and Orient.
- Ellipsoid.Ellipsoid.constructor: the same zero normal, through CalcShape.
- Ellipsoid.Ellipsoid.Sphere: the same zero normal, through CalcShape.
- ShapeParts.OrientColumn: a normal whose rotation is zero stays zero; the source throws at Extrusion.java:168 and Ellipsoid.java:148.
- ShapeParts.Orient: the same, through OrientColumn.
- Extrusion.Extrusion.constructor: an open extrusion needs a section of at least two segments. With one segment the source's `startCoords` has two entries, and `startCoords[2]` at Extrusion.java:188 throws an ArrayIndexOutOfBoundsException. The model excludes that case by requires instead of modelling the exception.
- Terrains.Terrain.constructor: it requires a square grid of at least two samples and a positive world size. `Heightmap` producing the grid is not part of this model.
- Terrains.Terrain.Height: a position whose cell is outside the map, which throws in the source, gives None.
- Terrains: `draw`, the camera, `TerrainCamera` and the view-distance tiling are left out.
- Sky.SkyBox.constructor: making an orientation from the origin and up vectors is the `orient` parameter.
- Lissajous, DoubleCone, SkyDome, Camera, Perspective, Util.slerp, UV and MD2_Vertex are left out. They are trigonometry on unseen classes, camera code or plain data.
- `Vector3D` is modelled by the same value type as `PVector`, with the normalisation difference stated above. Classes outside this model are parameters: `Rotation`, `Orientation`, `PathOrthogonal`, `TransformUV`, `Polygon` and `FixedScale`. The same holds for the delta-thumb position and Jacobian of the hand environment.
- Triangulator: the shoelace area and the cross products use reals, with the source's EPSILON.
- BezierCurve.BCurve2D.InsertCtrlPoints: it requires `nbrPts` to be at most the length of the arrays passed. The source throws an ArrayIndexOutOfBounds exception otherwise.
- BezierCurve.BCurve2D.Point: the point is specified through `Bezier`, the recursive De Casteljau function built from `Step` rounds, with the scratch arrays as fields. No closed Bernstein form is proved for the point.
- Interrupt concurrency between the ISRs and the main loop is out of scope, since they share counts, `receivedMessage` and `timeHigh`. One sequential step of each handler is modelled.
- GPIO reads inside the encoder ISR, RCC clock enables, and the hardware effects of NVIC (interrupt dispatch, priorities taking effect) are left out. Pin levels are parameters. Two hardware effects are modelled: EXTI's PR is write-1-to-clear, and a GPIO BSRR write sets or resets the matching ODR bits.
- `main.cpp`'s super-loop, `nucleo_led.c`, `haplink_fsr.c`, `delta_thumb.c`, the ADC/DMA set-up, the timer ISR and the `pc.printf` debug printers are left out. The velocity computation in `calculatePositionMotor1` is commented out in the source, so there is nothing to model.
- SerialLink.Serial.ReceiveMessageCallback: the source does not bound frames that are not position frames by the 20-byte `communicationBuf`. The model requires such frames to fit.
- Communication.PackXH and Communication.PackRxRy: converting a `double` of 65536 or more to `uint16_t` is undefined in C, so the model requires the scaled value to be below 65536.
- Register masks defined only in headers outside this model (such as `TIM_CR1_CKD_MORT` and `TIM_CCMR1_CC1S_0_MORT`) are parameters.
- `TIM_SelectOCxM_mort` does raw pointer arithmetic on the register block, and `TIM_DeInit_mort` only calls the RCC reset, so both are left out. `SysTick_CLKSourceConfig_mort` writes the SysTick block, which is not modelled.
- The `assert_param` calls in stm32f4xx_tim_mort.c name predicates without the `_MORT` suffix. The model uses the header's `IS_TIM_*_MORT` predicates as preconditions.
- Encoders.Quadrature.Update: the count is an unbounded integer. The wrap of the firmware's `int32_t` counter after 2³¹ steps in one direction is not modelled.
- BezierCurve.BCurve2D.Point: it requires a curve of degree 1 or more, because `point` reads `pxi[0]` of the control-point arrays, which throws on a curve without control points.
- BezierCurve.BCurve2D.Length: it requires degree 1 or more, for the same reason, since it evaluates `point`.
- BezierCurve.BCurve2D.SectionPolyline: it requires degree 1 or more, for the same reason.
- BezierCurve.BCurve2D.BCoefficients: it requires degree 2 or more, because `bCoefficients` writes `b[1]`, which throws for a curve of fewer than two control points.
- BezierCurve.BCurve2D.InsertCtrlPointsXY: it requires `nbrPts >= 0`. A negative count makes the source allocate a negative-length array, which throws.
- LatheSurface.Lathe.constructor: it requires `nbrSegs != 0`, since the source divides the sweep by it.
- Md2.GetPointList: the point array's size `numFrames * numXYZ` is an unbounded integer, so its 32-bit overflow in `getPointList` is not modelled.
- Nvic.Priority: it requires at most four pre-emption bits (PRIGROUP 3 to 7). With PRIGROUP 0 to 2, AIRCR's reset value among them, `0x4 - tmppriority` wraps in its `uint8_t` and the C shift by it is undefined. No file of the firmware sets the grouping before `NVICInit`; the start-up code that runs before `main` is not part of this model.
- Nvic.Controller.Init: when enabling, it requires at most four pre-emption bits, for the reason given for Nvic.Priority. Disabling requires nothing.
- Oval.Oval.constructor: it requires `nbrSegs > 0`. For 0 the source throws a NullPointerException at `coords[0].copy()`, and a negative count fails on the array sizes.
- Oval.Oval.CalcSection: it requires `nbrSegs > 0`, for the same reason.
- BezierCurve.BCurve2D.GetCtrlPoint: it requires degree 1 or more. On a curve without control points `constrain(pos, 0, degree - 1)` gives −1 and `px[-1]` throws.
- BezierCurve.BCurve2D.UpdateCtrlPoint: it requires degree 1 or more, because with degree 0 the source writes `px[-1]`, which throws.
- BezierCurve.BCurve2D.UpdateCtrlPointTo: it requires degree 1 or more, for the same reason.
- Shapes.Pick: the source also calls `fireEvent` on the picked shape, which runs the sketch's event handler. That call into user code is not modelled.


## Findings

| source | as written | input that shows it | evidently intended | confidence | as-written member | corrected member |
|---|---|---|---|---|---|---|
| haplink_position.c:433 | `initPositionFinger` stores the tip's `ry` with the sign opposite to the one `calculatePositionFinger` computes at line 573 for the same angles | any angles with cos(θ̃a+θ̃b) ≠ 0 | the initial tip equals the tip the update computes, so the first velocity estimate is not a jump | not executed | Position.InitDisagreesWithUpdate | Position.InitThenCalculate |
| processing/ProcessingHapticsHand/libraries/Shapes3D/src/shapes3d/contour/LatheSurface.java:113-121 | `fixAngle` brings an angle into [0, 2π] with 2π kept, so the constructor can be left with equal start and end angles | start = 2π, end = 0: the start stays 2π, the end becomes 0 + 2π, and the sweep is zero | angles reduced into [0, 2π), so the end lies strictly after the start and the sweep is positive | not executed | LatheSurface.AnglesAsWritten | LatheSurface.FixAngle |
| processing/ProcessingHapticsHand/libraries/Shapes3D/src/shapes3d/path/BCurve2D.java:326-344 | `removeCtrlPoints` accepts `last <= degree`, and with `last == degree` the new arrays of `degree - 1 + first - last` points are shorter than the `first` points copied into them | degree 5, first 3, last 5: arrays of 2 points receive 3 | the test `last < degree`, under which both copy loops stay inside the new arrays | not executed | BezierCurve.AsWrittenExtraInputsOverrun | BezierCurve.BCurve2D.RemoveCtrlPoints |
| processing/ProcessingHapticsHand/libraries/Shapes3D/src/shapes3d/path/BCurve2D.java:533-555 | `length(t0, t1, steps)` steps from t0 by 1/(steps−1), ignoring t1, so it samples past the section | t0 = t1 = 0.5, steps = 2 samples 0.5 and 1.5 | the step (t1 − t0)/(steps − 1), so the samples run from t0 to t1 and an empty section has length 0 | not executed | BezierCurve.SectionAsWrittenOvershoots | BezierCurve.SectionSamplesSpan |
| processing/ProcessingHapticsHand/libraries/Shapes3D/src/shapes3d/utils/MD2.java:205-209 | `getShort` turns a 16-bit value ch above 32767 into 65536 − ch, the magnitude of the negative short, so the sign is lost | the two bytes of −1 (0xFF, 0xFF) read as +1 | the signed 16-bit little-endian value, so every short round-trips | not executed | Md2.ShortAsWrittenLosesSign | Md2.ShortRoundTrip |
| processing/ProcessingHapticsHand/libraries/Shapes3D/src/shapes3d/utils/MD2.java:217-221 | `getUShort` turns a 16-bit value ch above 32767 into −(65536 − ch), so values of 32768 and more come back negative | the bytes of 65535 (0xFF, 0xFF) read as −1 | the unsigned 16-bit little-endian value, so every value in [0, 65536) round-trips | not executed | Md2.UShortAsWrittenGoesNegative | Md2.UShortRoundTrip |
