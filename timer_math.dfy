/**
 * The arithmetic shared by HAL_calc_timer_interval (HAL_AVR.cpp) and
 * Stepper::calc_timer (stepper.h): the double/quad-stepping decision, the
 * table offset, and the two table lookups that turn a step rate into a timer
 * period without a division.
 *
 * The contents of speed_lookuptable_fast and speed_lookuptable_slow are
 * generated into a header that is not part of this model, so the tables are a
 * parameter: 256 rows each, every row two 16-bit words (a period and the gain
 * used to interpolate towards the next row).
 */
module TimerMath {
  import opened Config
  import Arith

  /** One table row: a timer period (`base`) and the interpolation gain. */
  datatype Entry = Entry(base: nat, gain: nat)

  datatype Tables = Tables(fast: seq<Entry>, slow: seq<Entry>)

  const TABLE_ROWS: nat := 256

  predicate WordEntries(rows: seq<Entry>)
  {
    forall i :: 0 <= i < |rows| ==> rows[i].base < UINT16_RANGE && rows[i].gain < UINT16_RANGE
  }

  predicate ValidTables(t: Tables)
  {
    |t.fast| == TABLE_ROWS && |t.slow| == TABLE_ROWS && WordEntries(t.fast) && WordEntries(t.slow)
  }

  /**
   * No row's gain exceeds its period. A row's gain is the step down to the
   * next row's period, so a table of periods that fall (or stay) from row to
   * row has this shape.
   */
  predicate Interpolating(rows: seq<Entry>)
  {
    forall i :: 0 <= i < |rows| ==> rows[i].gain <= rows[i].base
  }

  /**
   * What one conversion produces: the timer period, the pulses per interrupt
   * (step_loops), whether the "step rate too high" diagnostic is raised, and
   * the corrected rate that diagnostic reports.
   */
  datatype Interval = Interval(timer: nat, stepLoops: nat, tooHigh: bool, reportedRate: nat)

  /** A rate after the double/quad-stepping decision. */
  datatype Prescaled = Prescaled(rate: nat, loops: nat)

  /** NOMORE(step_rate, MAX_STEP_FREQUENCY). */
  function ClampRate(stepRate: nat): (r: nat)
    ensures r <= stepRate && r <= MAX_STEP_FREQUENCY
    ensures r == stepRate || r == MAX_STEP_FREQUENCY
  {
    if stepRate > MAX_STEP_FREQUENCY then MAX_STEP_FREQUENCY else stepRate
  }

  /**
   * Above 2 * DOUBLE_STEP_FREQUENCY step four times per interrupt, above
   * DOUBLE_STEP_FREQUENCY twice, otherwise once; the rate is shifted right
   * accordingly.
   */
  function Prescale(stepRate: nat): (p: Prescaled)
    ensures p.loops == 1 || p.loops == 2 || p.loops == 4
    ensures p.loops == 4 <==> stepRate > 2 * DOUBLE_STEP_FREQUENCY
    ensures p.loops == 2 <==> DOUBLE_STEP_FREQUENCY < stepRate <= 2 * DOUBLE_STEP_FREQUENCY
    ensures p.loops * p.rate <= stepRate < p.loops * p.rate + p.loops
    ensures stepRate <= MAX_STEP_FREQUENCY ==> p.rate <= DOUBLE_STEP_FREQUENCY
  {
    if stepRate > 2 * DOUBLE_STEP_FREQUENCY then Prescaled(stepRate / 4, 4)
    else if stepRate > DOUBLE_STEP_FREQUENCY then Prescaled(stepRate / 2, 2)
    else Prescaled(stepRate, 1)
  }

  /** NOLESS(step_rate, F_CPU / 500000); step_rate -= F_CPU / 500000. */
  function TableOffset(stepRate: nat): (offset: nat)
    ensures stepRate <= MIN_STEP_RATE ==> offset == 0
    ensures stepRate >= MIN_STEP_RATE ==> offset + MIN_STEP_RATE == stepRate
  {
    (if stepRate < MIN_STEP_RATE then MIN_STEP_RATE else stepRate) - MIN_STEP_RATE
  }

  /**
   * MultiU16X8toH16 is not part of this model. As its name and use say, it is
   * taken to be the high 16 bits of the 24-bit product of a byte and a word:
   * (a * b) >> 8.
   */
  function MultiU16X8toH16(a: nat, b: nat): (r: nat)
    requires a < UINT8_RANGE && b < UINT16_RANGE
    ensures r * 256 <= a * b < r * 256 + 256
    ensures r <= b && r < UINT16_RANGE
  {
    MulBound(a, b);
    (a * b) / 256
  }

  lemma MulBound(a: nat, b: nat)
    requires a < UINT8_RANGE
    ensures a * b <= 255 * b
  {
    var d: nat := 255 - a;
    assert 255 * b == a * b + d * b;
  }

  /** (uint8_t)(step_rate >> 8): the fast-table row. */
  function FastIndex(offset: nat): (i: nat)
    ensures i < TABLE_ROWS
    ensures offset < UINT16_RANGE ==> i * 256 <= offset < i * 256 + 256
  {
    (offset / 256) % UINT8_RANGE
  }

  /**
   * The fast-table period before any wrap-around: the row's base minus
   * MultiU16X8toH16(step_rate & 0xFF, gain).
   */
  function FastDifference(t: Tables, offset: nat): (d: int)
    requires ValidTables(t)
    ensures var e := t.fast[FastIndex(offset)]; e.base - e.gain <= d <= e.base
  {
    var e := t.fast[FastIndex(offset)];
    e.base - MultiU16X8toH16(offset % 256, e.gain)
  }

  /**
   * ((step_rate >> 1) & 0xFFFC): the byte offset into the slow table, the
   * shifted rate truncated to 16 bits with its two low bits cleared.
   */
  function SlowByteAddress(offset: nat): (address: nat)
    ensures address % 4 == 0 && address < UINT16_RANGE
  {
    var w := (offset / 2) % UINT16_RANGE;
    w - w % 4
  }

  /**
   * Below the fast-table start, the byte offset addresses the first byte of
   * slow-table row offset >> 3 (rows are two 16-bit words, four bytes), which
   * is a row of the table.
   */
  lemma SlowAddressIsRowStart(offset: nat)
    requires offset < FAST_TABLE_START
    ensures SlowByteAddress(offset) == 4 * (offset / 8)
    ensures offset / 8 < TABLE_ROWS
  {
    var h := offset / 2;
    assert h < UINT16_RANGE;
    assert h == 4 * (offset / 8) + h % 4;
  }

  /** The slow-table row a byte offset addresses. */
  function SlowIndex(offset: nat): (i: nat)
    requires offset < FAST_TABLE_START
    ensures i < TABLE_ROWS && i == offset / 8
  {
    SlowAddressIsRowStart(offset);
    SlowByteAddress(offset) / 4
  }

  /**
   * The slow-table interpolation term ((gain * (step_rate & 7)) >> 3). AVR's
   * int is 16 bits wide, so the product of a uint16_t and a uint8_t is a
   * 16-bit unsigned product.
   */
  function SlowCorrection(e: Entry, offset: nat): (c: nat)
    ensures c < UINT16_RANGE / 8 && c <= e.gain
    ensures e.gain * (offset % 8) < UINT16_RANGE ==> c * 8 <= e.gain * (offset % 8) < c * 8 + 8
  {
    CorrectionBound(e.gain, offset % 8);
    ((e.gain * (offset % 8)) % UINT16_RANGE) / 8
  }

  /**
   * The term is at most the gain even when the product wraps: a product of
   * at least 2^16 needs a gain above 2^13, and the wrapped term is below 2^13.
   */
  lemma CorrectionBound(gain: nat, k: nat)
    requires k < 8
    ensures (gain * k) % UINT16_RANGE / 8 <= gain
  {
    var product := gain * k;
    assert product <= gain * 7 by { Arith.MulLe(gain, k, 7); }
    if product >= UINT16_RANGE {
      assert gain * 7 >= UINT16_RANGE;
    }
  }

  /**
   * The slow-table period: base minus the interpolation term, computed in
   * AVR's 16-bit unsigned int.
   */
  function SlowPeriod(t: Tables, offset: nat): (p: nat)
    requires ValidTables(t)
    requires offset < FAST_TABLE_START
    ensures p < UINT16_RANGE
    ensures var e := t.slow[offset / 8];
      e.gain <= e.base ==> p == e.base - SlowCorrection(e, offset) && e.base - e.gain <= p <= e.base
  {
    var e := t.slow[SlowIndex(offset)];
    Wrap16(e.base - SlowCorrection(e, offset))
  }

  /** if (timer < 100) { timer = 100; report "step rate too high" }. */
  function ClampTimer(raw: nat, offset: nat, loops: nat): (r: Interval)
    ensures r.timer >= MIN_TIMER
    ensures r.tooHigh <==> raw < MIN_TIMER
    ensures r.timer == (if raw < MIN_TIMER then MIN_TIMER else raw)
    ensures r.stepLoops == loops && r.reportedRate == offset
  {
    if raw < MIN_TIMER then Interval(MIN_TIMER, loops, true, offset) else Interval(raw, loops, false, offset)
  }
}
