# MK4duo step timing and temperature-interrupt counters, in Dafny

This project models the part of the MK4duo 3D-printer firmware that turns a
step rate into a stepper-timer period and prepares a motion block for
execution, together with the counters of the AVR temperature interrupt.

* `config.dfy` (module `Config`): the build constants of an AVR build at
  16 MHz (`F_CPU`, `MAX_STEP_FREQUENCY`, `DOUBLE_STEP_FREQUENCY`,
  `OVERSAMPLENR`, ...) and the conversions to `uint16_t` and `uint32_t`.
* `arith.dfy` (module `Arith`): facts about division and powers of two.
* `timer_math.dfy` (module `TimerMath`): the arithmetic shared by
  `HAL_calc_timer_interval` and `Stepper::calc_timer`: the clamp to
  `MAX_STEP_FREQUENCY`, the double/quad-stepping decision, the table offset,
  the lookups in `speed_lookuptable_fast` and `speed_lookuptable_slow`, and
  the clamp to a period of at least 100. The two tables are a parameter
  (256 rows of two 16-bit words each).
* `hal_avr.dfy` (module `HalAvr`): `HAL_calc_timer_interval` as a function
  returning the period together with the `step_loops` it writes and the
  "Steprate too high" diagnostic, plus lemmas about it.
* `stepper.dfy` (module `Motion`): the static members of `Stepper` used when
  a block starts, as the fields of class `Stepper`; `calc_timer` (AVR table
  version and SAM3X8E division version), `trapezoid_generator_reset` with
  its ADVANCE, COLOR_MIXING_EXTRUDER and LIN_ADVANCE variants,
  `kill_current_block` and `motor_direction`. `set_directions()` and the
  `MSG_STEPPER_TOO_HIGH` message are recorded as events in the `events`
  field.
* `hal_temp.dfy` (module `HalTemp`): the 100 ms cycle counter and the
  round-robin ADC oversampling of `HAL_temp_isr`, as a pure step function
  `TempTick` on a `Sampler` value and as class `TempSampler`, whose arrays
  `analogInputRead`, `adcCounter` and `analogInputValues` are updated in
  place by `TempIsr`.

Integers are unbounded. In the timer arithmetic every truncation and
wrap-around of the C code (the `uint16_t` and `uint32_t` periods and rates,
AVR's 16-bit `int` in the slow-table product) is written out with `Wrap16`,
`Wrap32` or an explicit `%`; the widths of the extruder bookkeeping are not
(see "Left out").
Compile-time choices are constants of the `Stepper`: the target (`Avr` or
`Sam`), the extruder mode (`NoAdvance`, `Advance`, `LinAdvance`) and
`mixing` for COLOR_MIXING_EXTRUDER.

Notes on the arithmetic:

* The table offset is `max(rate, 32) - 32`; the code has no clamp of the
  period to at least 1, only the clamp to at least 100.
* On AVR `int` is 16 bits wide, so the slow-table term
  `gain * (step_rate & 7)` is a 16-bit product, and in `HAL_calc_timer_interval`
  the whole slow-branch subtraction is done in 16 bits before it is widened,
  while the fast-branch subtraction is done in 32 bits (`timer` is a
  `uint32_t`). `calc_timer` stores both results in a `uint16_t`. When no
  fast-table gain exceeds its row's period the fast subtraction does not wrap
  and the two converters agree (`CalcTimerMatchesHal`); when the scaled
  correction of a fast row exceeds its period they differ
  (`FastUnderflowEscapesClamp`).
* The 16-bit slow-table product wraps once `gain * (step_rate & 7)` reaches
  2^16. With the 2 MHz timer of the AVR HAL the first slow row is
  (62500, 12500), so both converters give 54688, 61317 and 59755 at 37, 38
  and 39 steps/s: the period rises while the rate rises
  (`SlowProductWraps`). The wrapped term still never exceeds the gain, so
  the period stays within its row (`PeriodWithinRow`).
* In `calc_timer`, `#ifndef __SAM3X8E__ || ENABLED(ENABLE_HIGH_SPEED_STEPPING)`
  only tests whether `__SAM3X8E__` is undefined, so the SAM build always
  uses `step_loops = 1`.

## Model

| member | source | states |
|---|---|---|
| TimerMath.ClampRate | MK4duo/src/HAL/HAL_AVR/HAL_AVR.cpp:112 | the rate is at most MAX_STEP_FREQUENCY and is either the input or MAX_STEP_FREQUENCY |
| TimerMath.Prescale | MK4duo/src/HAL/HAL_AVR/HAL_AVR.cpp:114-125 | step_loops is 4 exactly above 2 * DOUBLE_STEP_FREQUENCY, 2 exactly in (DOUBLE_STEP_FREQUENCY, 2 * DOUBLE_STEP_FREQUENCY], else 1; the rate is divided by step_loops (rounded down); a clamped rate ends at most DOUBLE_STEP_FREQUENCY |
| TimerMath.TableOffset | MK4duo/src/HAL/HAL_AVR/HAL_AVR.cpp:127-129 | rates up to F_CPU / 500000 give offset 0, larger rates give rate - F_CPU / 500000; never negative |
| TimerMath.MultiU16X8toH16 | MK4duo/src/HAL/HAL_AVR/HAL_AVR.cpp:134 | the result is the product of the byte and the word divided by 256, rounded down, and at most the word |
| TimerMath.FastIndex | MK4duo/src/HAL/HAL_AVR/HAL_AVR.cpp:132 | the row is a table row, and for a 16-bit offset it is the row whose 256-wide band holds the offset |
| TimerMath.FastDifference | MK4duo/src/HAL/HAL_AVR/HAL_AVR.cpp:131-135 | the fast-table period before wrapping lies between the row's base minus its gain and the base |
| TimerMath.SlowByteAddress | MK4duo/src/HAL/HAL_AVR/HAL_AVR.cpp:139 | `(offset >> 1) & 0xFFFC` is a multiple of 4 below 2^16 |
| TimerMath.SlowAddressIsRowStart | MK4duo/src/HAL/HAL_AVR/HAL_AVR.cpp:137-141 | below the fast-table start the byte address is 4 * (offset >> 3), the start of slow-table row offset >> 3, and that row is below 256 |
| TimerMath.SlowIndex | MK4duo/src/HAL/HAL_AVR/HAL_AVR.cpp:138-139 | the addressed row is offset / 8 and exists |
| TimerMath.SlowCorrection | MK4duo/src/HAL/HAL_AVR/HAL_AVR.cpp:141 | the 16-bit interpolation term is below 2^13 and at most the gain, also when the product wraps; when gain * (offset & 7) fits in 16 bits it is that product / 8 rounded down |
| TimerMath.SlowPeriod | MK4duo/src/HAL/HAL_AVR/HAL_AVR.cpp:140-141 | the slow-table period is a 16-bit value; for a row whose gain is at most its base it is base minus the interpolation term, between base - gain and base |
| TimerMath.ClampTimer | MK4duo/src/HAL/HAL_AVR/HAL_AVR.cpp:144-149 | the period is at least 100; a raw period below 100 gives exactly 100 and raises the diagnostic, any other is returned unchanged without it; the diagnostic reports the offset |
| HalAvr.RawTimer | MK4duo/src/HAL/HAL_AVR/HAL_AVR.cpp:130-142 | below the fast-table start the raw period is the 16-bit slow period; above it, the fast difference if non-negative, otherwise that difference plus 2^32, which is at least 2^32 - 2^16 |
| HalAvr.CalcTimerInterval | MK4duo/src/HAL/HAL_AVR/HAL_AVR.cpp:108-151 | the period is in [100, 2^32); step_loops is 1, 2 or 4 by the double/quad thresholds; the table offset read (and reported) is that of the input rate (OffsetFor), at most DOUBLE_STEP_FREQUENCY - 32; the diagnostic is raised exactly when the raw period is below 100, and then the period is 100, otherwise the raw period |
| HalAvr.OffsetFor | MK4duo/src/HAL/HAL_AVR/HAL_AVR.cpp:112-129 | the table offset of any input rate is at most DOUBLE_STEP_FREQUENCY - 32 |
| HalAvr.ClampedFirst | MK4duo/src/HAL/HAL_AVR/HAL_AVR.cpp:112 | every rate from MAX_STEP_FREQUENCY up gives the same result as MAX_STEP_FREQUENCY |
| HalAvr.QuadStepping | MK4duo/src/HAL/HAL_AVR/HAL_AVR.cpp:115-118 | above 2 * DOUBLE_STEP_FREQUENCY four pulses are emitted at the period that a quarter of the clamped rate gets with one pulse |
| HalAvr.DoubleStepping | MK4duo/src/HAL/HAL_AVR/HAL_AVR.cpp:119-122 | in (DOUBLE_STEP_FREQUENCY, 2 * DOUBLE_STEP_FREQUENCY] two pulses are emitted at the period that half the rate gets with one pulse |
| HalAvr.PeriodWithinRow | MK4duo/src/HAL/HAL_AVR/HAL_AVR.cpp:130-142 | when no gain exceeds its row's base, the raw period lies between the addressed row's base - gain and base, and is a 16-bit value, even where the slow product wraps |
| HalAvr.FastUnderflowEscapesClamp | MK4duo/src/HAL/HAL_AVR/HAL_AVR.cpp:135 | when a fast row's scaled correction exceeds its base (possible only if the gain exceeds the base), the 32-bit subtraction wraps: no diagnostic, and a period of at least 2^32 - 2^16 |
| Motion.AvrCalcTimer | MK4duo/src/motion/stepper.h:266-316 | AVR calc_timer: the period is in [100, 2^16); step_loops is 1, 2 or 4 by the double/quad thresholds; the reported rate is the table offset; diagnostic exactly when the raw period is below 100, and then the period is 100 |
| Motion.AvrRawTimer | MK4duo/src/motion/stepper.h:294-306 | the period before the clamp is a 16-bit value: the slow period below the fast-table start, the fast difference modulo 2^16 above it |
| Motion.SamCalcTimer | MK4duo/src/motion/stepper.h:266-292 | SAM calc_timer: one pulse per interrupt, no diagnostic, and the period is HAL_TIMER_RATE divided by the rate clamped to SAM's MAX_STEP_FREQUENCY, rounded down |
| Motion.CalcTimerSpec | MK4duo/src/motion/stepper.h:266-316 | on AVR the period is the table period read at the input's offset (OffsetFor) in 16 bits, raised to 100 exactly when it is below 100, which is exactly when the diagnostic (reporting that offset) is raised; the period is in [100, 2^16) and step_loops is 1, 2 or 4 by the double/quad thresholds; on SAM3X8E step_loops is 1, there is no diagnostic, and the period is HAL_TIMER_RATE over the clamped rate, rounded down, below 2^32 |
| Motion.CalcTimerMatchesHal | MK4duo/src/motion/stepper.h:292-313 | when no fast-table gain exceeds its row's base, calc_timer and HAL_calc_timer_interval give the same period, step_loops and diagnostic for every 16-bit rate |
| Motion.SlowProductWraps | MK4duo/src/motion/stepper.h:306-307 | with the slow row (62500, 12500) of a 2 MHz timer, the wrapped 16-bit product makes both converters give 54688, 61317, 59755 at 37, 38, 39 steps/s, a period that rises with the rate |
| Motion.TestBitIsShiftAndMask | MK4duo/src/motion/stepper.h:217 | TEST(bits, n), i.e. (bits >> n) & 1, is bit n of bits |
| Motion.BitsDetermineValue | MK4duo/src/motion/stepper.h:324 | two numbers below 2^width that agree on every bit below width are equal |
| Motion.SameDirectionsIff | MK4duo/src/motion/stepper.h:324-328 | two direction bytes agree on every one of their 8 bits exactly when they are equal |
| Motion.DirectionsChangeIff | MK4duo/src/motion/stepper.h:324-328 | set_directions() is due exactly when some axis below 8 has a different direction bit in the block than in last_direction_bits (the bit motor_direction reads), or the extruder changes |
| Motion.AdvanceSteps | MK4duo/src/motion/stepper.h:337 | advance >> 8 is the floor of advance / 256, also for negative advance |
| Motion.TruncDiv | MK4duo/src/motion/stepper.h:340 | C's signed division: for a non-negative dividend the quotient is non-negative and rounded down, for a negative one non-positive and rounded up |
| Motion.MixShare | MK4duo/src/motion/stepper.h:340 | a mixing stepper's share has the sign of the advance delta, and times mix_event_count it is within one mix_event_count of delta * step_event_count |
| Motion.MixedESteps | MK4duo/src/motion/stepper.h:338-340 | steppers with a zero mix_event_count keep their steps; every other one moves by an amount with the delta's sign that times its mix_event_count is within one mix_event_count of delta * step_event_count; the number of steppers is kept |
| Motion.SumUpdate | MK4duo/src/motion/stepper.h:343 | adding the delta to one extruder adds exactly the delta to the total of e_steps |
| Motion.ExtruderRate | MK4duo/src/motion/stepper.h:366-367 | (rate * e_speed_multiplier8) >> 8 is the product divided by 256, rounded down |
| Motion.Stepper.constructor | MK4duo/src/motion/stepper.h:322 | the program-start values: no block, step_events_completed 0, direction latch 0, last_extruder -1, step_loops, step_loops_nominal, OCR1A_nominal, acc_step_rate, acceleration_time, deceleration_time and OCR1A 0, advance, final_advance, old_advance and final_estep_rate 0, e_steps and current_estep_rate all 0, no events |
| Motion.Stepper.MotorDirection | MK4duo/src/motion/stepper.h:217 | motor_direction(axis) is bit axis of last_direction_bits |
| Motion.Stepper.KillCurrentBlock | MK4duo/src/motion/stepper.h:240-242 | step_events_completed becomes the block's step_event_count and nothing else changes |
| Motion.Stepper.CalcTimer | MK4duo/src/motion/stepper.h:266-316 | the returned period and the new step_loops are those of CalcTimerSpec, and exactly the diagnostics it raises are appended to the events |
| Motion.Stepper.LatchDirections | MK4duo/src/motion/stepper.h:324-328 | the latch holds the block's direction bits and extruder afterwards, and set_directions() is recorded exactly when either differed from the latched value |
| Motion.Stepper.ApplyAdvance | MK4duo/src/motion/stepper.h:331-348 | advance and final_advance take the block's values, old_advance becomes initial_advance >> 8, e_steps is changed by the delta (initial_advance >> 8) - old_advance as the extruder or mixing rule says, and without mixing the total of e_steps minus old_advance is kept |
| Motion.Stepper.AddMixingAdvance | MK4duo/src/motion/stepper.h:338-340 | the loop over the mixing steppers yields MixedESteps of the old e_steps |
| Motion.Stepper.StartTimers | MK4duo/src/motion/stepper.h:350-362 | deceleration_time is 0, OCR1A_nominal and step_loops_nominal are calc_timer of the nominal rate, acc_step_rate is the initial rate, acceleration_time and step_loops are calc_timer of it, OCR1A is acceleration_time on AVR, and the diagnostics of the two conversions are recorded in order |
| Motion.Stepper.ApplyLinAdvance | MK4duo/src/motion/stepper.h:364-369 | with use_advance_lead the active extruder's current_estep_rate and final_estep_rate are the scaled initial and nominal rates; otherwise both are unchanged |
| Motion.Stepper.PrepareBlock | MK4duo/src/motion/stepper.h:330-369 | the ADVANCE bookkeeping (or none), the trapezoid timers and the LIN_ADVANCE rates (or none), each as stated for the parts above |
| Motion.Stepper.TrapezoidGeneratorReset | MK4duo/src/motion/stepper.h:320-370 | the whole new state of the block start: the direction latch and set_directions() only on a change, the timers with the initial rate's step_loops left behind, deceleration_time 0, the ADVANCE and LIN_ADVANCE bookkeeping, and nothing else (current_block and step_events_completed are untouched) |
| HalTemp.Initial | MK4duo/src/HAL/HAL_AVR/HAL_AVR.cpp:62-67 | the state at start-up satisfies the interrupt's invariant, with every counter and accumulator zero |
| HalTemp.CycleTick | MK4duo/src/HAL/HAL_AVR/HAL_AVR.cpp:347-350 | cycle_100ms advances by one and restarts at 0 on reaching F_CPU / 40960, execute_100ms is set then (and stays set), nothing else changes |
| HalTemp.Conversion | MK4duo/src/HAL/HAL_AVR/HAL_AVR.cpp:361-388 | keeps the invariant; a conversion adds ADCW to the position's accumulator and counts it; the OVERSAMPLENR-th clears both, stores the mean for the position's channel unless execute_100ms is set, advances the position (wrapping to 0) and sets Analog_is_ready on the wrap; other positions are untouched |
| HalTemp.TempTick | MK4duo/src/HAL/HAL_AVR/HAL_AVR.cpp:346-388 | one interrupt keeps the invariant (position below ANALOG_INPUTS, counters below OVERSAMPLENR, means 10-bit), advances the cycle counter, and without a finished conversion changes nothing else |
| HalTemp.Run | MK4duo/src/HAL/HAL_AVR/HAL_AVR.cpp:346-388 | any sequence of interrupts keeps the invariant |
| HalTemp.CycleCount | MK4duo/src/HAL/HAL_AVR/HAL_AVR.cpp:347-350 | after k interrupts cycle_100ms has advanced by k modulo F_CPU / 40960, and execute_100ms is set exactly if it was or a full cycle was completed |
| HalTemp.AdcSum | MK4duo/src/HAL/HAL_AVR/HAL_AVR.cpp:363 | k 10-bit readings add up to at most k * 1023 |
| HalTemp.Accumulate | MK4duo/src/HAL/HAL_AVR/HAL_AVR.cpp:361-364 | fewer than OVERSAMPLENR conversions on a cleared position stay there, its counter counts them, its accumulator holds their sum, and no mean or ready flag changes |
| HalTemp.FinishStep | MK4duo/src/HAL/HAL_AVR/HAL_AVR.cpp:364-377 | the conversion that completes a position clears it, advances the position, stores the mean unless execute_100ms is set, and sets the ready flag on the wrap |
| HalTemp.Oversample | MK4duo/src/HAL/HAL_AVR/HAL_AVR.cpp:361-377 | OVERSAMPLENR conversions on a cleared position store their sum divided by OVERSAMPLENR for its channel (unless execute_100ms is set), clear it, advance the position and set Analog_is_ready when the position wraps to 0 |
| HalTemp.TempSampler.constructor | MK4duo/src/HAL/HAL_AVR/HAL_AVR.cpp:62-67 | Valid() holds and the object's state is Initial(channels, numAnalogInputs): the static initialisers together with analogStart's zeroing of adcCounter and AnalogInputRead (HAL_AVR.cpp lines 196-199) |
| HalTemp.TempSampler.CountCycle | MK4duo/src/HAL/HAL_AVR/HAL_AVR.cpp:347-350 | the object's new state is CycleTick of the old one |
| HalTemp.TempSampler.AddReading | MK4duo/src/HAL/HAL_AVR/HAL_AVR.cpp:363-364 | ADCW is added to the position's accumulator and its counter is incremented, in place |
| HalTemp.TempSampler.FinishPosition | MK4duo/src/HAL/HAL_AVR/HAL_AVR.cpp:367-378 | the mean is stored in place unless execute_100ms is set, the position's accumulator and counter are cleared, the position advances with wrap-around and the ready flag is set on the wrap |
| HalTemp.TempSampler.Convert | MK4duo/src/HAL/HAL_AVR/HAL_AVR.cpp:361-388 | the object's new state is Conversion of the old one, and the invariant is kept |
| HalTemp.TempSampler.TempIsr | MK4duo/src/HAL/HAL_AVR/HAL_AVR.cpp:346-391 | the object's new state is TempTick of the old one, the invariant is kept, and set_current_temp_raw() is called exactly while Analog_is_ready is set |

## Left out

- Register bring-up and hardware access: `HAL_stepper_timer_start`, `HAL_temp_timer_start`, `setPwmFrequency`, `analogStart` (its busy-wait and register writes; only the zeroed counters are modelled, by `HalTemp.Initial` and the `TempSampler` constructor), and the ADMUX/ADCSRB channel selection in `HAL_temp_isr`.
- `getFreeRam`, `resetHardware` and `showStartReason`: memory layout, a jump to address 0 and reset-cause registers, with no logic to state.
- The interrupt wrappers `HAL_STEPPER_TIMER_ISR` and `HAL_TEMP_TIMER_ISR`, the soft-PWM pin toggling of heaters and fans with its `pwm_count_*` counters, the fan kick-start countdown and `endstops.Tick()`: interrupt plumbing over `heaters[]`, `fans[]` and `endstops`, which are not part of this model.
- What `set_current_temp_raw()` and `set_directions()` do: they are recorded (as the result of `TempIsr` and as an event) but their code is not part of this model. Clearing `execute_100ms` happens in code that is not part of this model.
- `isr()`, `advance_isr()`, `synchronize()`, `quick_stop()`, `set_position()` and the Bresenham counters: only declared in `stepper.h`.
- `get_axis_position_mm` and `triggered_position_mm` (floating point), digipot and microstepping (foreign hardware calls).
- Monotonicity of the period in the step rate in general: it depends on the contents of the speed tables, which are generated into a header that is not part of this model; only the first slow row, which follows from the timer frequency, is used (`SlowProductWraps`).
- The DISABLE_DOUBLE_QUAD_STEPPING option of `HAL_calc_timer_interval`: the model is the default build, where double and quad stepping are enabled.
- The values of the build constants: the headers that define `F_CPU`, `MAX_STEP_FREQUENCY`, `DOUBLE_STEP_FREQUENCY` and `OVERSAMPLENR` are not part of this model; the usual AVR values (16 MHz, 40000, 10000, 16) are used. The SAM `HAL_TIMER_RATE` and `MAX_STEP_FREQUENCY` are parameters of `Motion.Platform`.
- TimerMath.MultiU16X8toH16: its assembly is not part of this model; it is taken to be the high 16 bits of the 24-bit product, `(a * b) >> 8`, as its name and use say.
- Motion.SamCalcTimer: requires a nonzero step rate; the SAM code divides `HAL_TIMER_RATE` by the rate with no guard, so a zero rate has no defined result to model.
- Motion.Stepper.TrapezoidGeneratorReset: `TOOL_E_INDEX` is taken to be the block's active extruder, and `current_block` is required to be set (the source dereferences it).
- Motion.Stepper.ApplyAdvance: `e_steps`, `advance` and `old_advance` are unbounded integers; the `int`/`long` widths of these fields (and any overflow of them) are not modelled.
- Motion.MixShare: the field types of `block_t` are not part of this model, so `advance_factor * step_event_count / mix_event_count[j]` is modelled as an exact signed product with C's truncating division, without the C integer promotions.
- Motion.ExtruderRate: `current_estep_rate` and `final_estep_rate` are unbounded; the 32-bit product and the `int` width of `current_estep_rate` are not modelled.
- HalTemp.Conversion: `AnalogInputRead` (`int32_t`), `adcCounter` and `adcSamplePos` (`uint8_t`) and the `int16_t` means are unbounded integers; the invariant keeps every one of them far inside its C range, so no wrap-around can occur from a valid state.
- HalTemp.TempTick: the `adcSamplePos >= ANALOG_INPUTS` alternative of the store condition is modelled as written, but the invariant makes it always false.
