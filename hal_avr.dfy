/**
 * HAL_calc_timer_interval of the AVR HAL: step rate (steps per second) to the
 * period of the stepper timer, and the number of pulses to emit per
 * interrupt. The function writes stepper.step_loops as a side effect; here
 * that value is returned with the period.
 */
module HalAvr {
  import opened Config
  import opened TimerMath

  /**
   * The period before the lower clamp. `timer` is a uint32_t: in the fast
   * branch `(uint16_t)base - timer` is a 32-bit subtraction, while the whole
   * right-hand side of the slow branch is computed in AVR's 16-bit unsigned
   * int before it is widened.
   */
  function RawTimer(t: Tables, offset: nat): (raw: nat)
    requires ValidTables(t)
    ensures raw < UINT32_RANGE
    ensures offset < FAST_TABLE_START ==> raw == SlowPeriod(t, offset)
    ensures offset >= FAST_TABLE_START && FastDifference(t, offset) >= 0 ==> raw == FastDifference(t, offset)
    ensures offset >= FAST_TABLE_START && FastDifference(t, offset) < 0 ==>
      raw == FastDifference(t, offset) + UINT32_RANGE && raw >= UINT32_RANGE - UINT16_RANGE
  {
    if offset >= FAST_TABLE_START then Wrap32(FastDifference(t, offset)) else SlowPeriod(t, offset)
  }

  /** HAL_calc_timer_interval(step_rate) with step_rate a uint32_t. */
  function CalcTimerInterval(t: Tables, stepRate: nat): (r: Interval)
    requires ValidTables(t)
    requires stepRate < UINT32_RANGE
    ensures MIN_TIMER <= r.timer < UINT32_RANGE
    ensures r.stepLoops == 1 || r.stepLoops == 2 || r.stepLoops == 4
    ensures r.stepLoops == 4 <==> stepRate > 2 * DOUBLE_STEP_FREQUENCY
    ensures r.stepLoops == 2 <==> DOUBLE_STEP_FREQUENCY < stepRate <= 2 * DOUBLE_STEP_FREQUENCY
    ensures r.reportedRate == OffsetFor(stepRate) && r.reportedRate + MIN_STEP_RATE <= DOUBLE_STEP_FREQUENCY
    ensures var raw := RawTimer(t, r.reportedRate);
      (r.tooHigh <==> raw < MIN_TIMER) && r.timer == (if r.tooHigh then MIN_TIMER else raw)
  {
    var p := Prescale(ClampRate(stepRate));
    var offset := TableOffset(p.rate);
    ClampTimer(RawTimer(t, offset), offset, p.loops)
  }

  /** The table offset CalcTimerInterval looks up, for a given input rate. */
  function OffsetFor(stepRate: nat): (offset: nat)
    ensures offset + MIN_STEP_RATE <= DOUBLE_STEP_FREQUENCY
  {
    TableOffset(Prescale(ClampRate(stepRate)).rate)
  }

  /** Every rate above MAX_STEP_FREQUENCY is treated as MAX_STEP_FREQUENCY. */
  lemma ClampedFirst(t: Tables, stepRate: nat)
    requires ValidTables(t)
    requires MAX_STEP_FREQUENCY <= stepRate < UINT32_RANGE
    ensures CalcTimerInterval(t, stepRate) == CalcTimerInterval(t, MAX_STEP_FREQUENCY)
  {
  }

  /**
   * Quad stepping: above 2 * DOUBLE_STEP_FREQUENCY four pulses are emitted
   * per interrupt, at the period a single-stepped quarter of the (clamped)
   * rate gets.
   */
  lemma QuadStepping(t: Tables, stepRate: nat)
    requires ValidTables(t)
    requires 2 * DOUBLE_STEP_FREQUENCY < stepRate < UINT32_RANGE
    ensures var quarter := CalcTimerInterval(t, ClampRate(stepRate) / 4);
      CalcTimerInterval(t, stepRate).stepLoops == 4 && quarter.stepLoops == 1 &&
      CalcTimerInterval(t, stepRate).timer == quarter.timer
  {
  }

  /** Double stepping: the period of a single-stepped half of the rate. */
  lemma DoubleStepping(t: Tables, stepRate: nat)
    requires ValidTables(t)
    requires DOUBLE_STEP_FREQUENCY < stepRate <= 2 * DOUBLE_STEP_FREQUENCY
    ensures var half := CalcTimerInterval(t, stepRate / 2);
      CalcTimerInterval(t, stepRate).stepLoops == 2 && half.stepLoops == 1 &&
      CalcTimerInterval(t, stepRate).timer == half.timer
  {
  }

  /**
   * A fast-table offset picks row offset >> 8 and a slow-table offset row
   * offset >> 3; both rows exist, and when no gain exceeds its row's base
   * the period lies between the row's base and base - gain and is a 16-bit
   * value. This holds even where the slow-table product wraps around, as the
   * wrapped interpolation term stays below the gain.
   */
  lemma PeriodWithinRow(t: Tables, stepRate: nat)
    requires ValidTables(t) && Interpolating(t.fast) && Interpolating(t.slow)
    requires stepRate < UINT32_RANGE
    ensures var offset := OffsetFor(stepRate);
      var e := if offset >= FAST_TABLE_START then t.fast[offset / 256] else t.slow[offset / 8];
      var raw := RawTimer(t, offset);
      e.base - e.gain <= raw <= e.base && raw < UINT16_RANGE
  {
    var offset := OffsetFor(stepRate);
    if offset >= FAST_TABLE_START {
      assert FastIndex(offset) == offset / 256;
    }
  }

  /**
   * When a fast row's scaled correction exceeds its base (possible only if
   * the gain exceeds the base), the 32-bit subtraction wraps: the period is
   * then close to 2^32 and escapes the lower clamp.
   */
  lemma FastUnderflowEscapesClamp(t: Tables, stepRate: nat)
    requires ValidTables(t)
    requires stepRate < UINT32_RANGE
    requires OffsetFor(stepRate) >= FAST_TABLE_START && FastDifference(t, OffsetFor(stepRate)) < 0
    ensures !CalcTimerInterval(t, stepRate).tooHigh
    ensures CalcTimerInterval(t, stepRate).timer >= UINT32_RANGE - UINT16_RANGE
  {
  }
}
