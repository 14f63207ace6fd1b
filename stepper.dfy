/**
 * The block-start bookkeeping of the Stepper class (stepper.h): calc_timer,
 * trapezoid_generator_reset, kill_current_block and motor_direction.
 *
 * The static members of Stepper are the fields of one Stepper object. The
 * compile-time choices that change this code (the target processor, ADVANCE
 * or LIN_ADVANCE, COLOR_MIXING_EXTRUDER) are constants of the object.
 */
module Motion {
  import opened Config
  import opened TimerMath
  import opened Arith
  import HalAvr

  /**
   * The target: AVR, which uses the speed tables, or SAM3X8E, which divides
   * its timer rate (HAL_TIMER_RATE) by the step rate. The SAM HAL, where that
   * rate and SAM's MAX_STEP_FREQUENCY are defined, is not part of this model,
   * so they are carried here.
   */
  datatype Platform = Avr | Sam(timerRate: nat, maxStepFrequency: nat)

  predicate ValidPlatform(p: Platform)
  {
    p.Sam? ==> p.timerRate < UINT32_RANGE && p.maxStepFrequency > 0
  }

  /** calc_timer takes and returns a uint16_t on AVR and a uint32_t on SAM. */
  function RateRange(p: Platform): nat
  {
    if p.Avr? then UINT16_RANGE else UINT32_RANGE
  }

  datatype Option<T> = None | Some(value: T)

  /** The extruder pressure compensation compiled in. */
  datatype AdvanceMode = NoAdvance | Advance | LinAdvance

  /** Side effects other than field updates, in the order they happen. */
  datatype Event =
    | SetDirections              // set_directions() was called
    | StepRateTooHigh(rate: nat) // the MSG_STEPPER_TOO_HIGH diagnostic, with the rate it prints

  /** The fields of block_t that the block-start code reads. */
  datatype Block = Block(
    directionBits: nat,
    activeExtruder: nat,
    stepEventCount: nat,
    nominalRate: nat,
    initialRate: nat,
    initialAdvance: int,
    finalAdvance: int,
    mixEventCount: seq<nat>,
    useAdvanceLead: bool,
    eSpeedMultiplier8: nat)

  /** AVR calc_timer(step_rate) for a uint16_t step_rate. */
  function AvrCalcTimer(t: Tables, stepRate: nat): (r: Interval)
    requires ValidTables(t)
    requires stepRate < UINT16_RANGE
    ensures MIN_TIMER <= r.timer < UINT16_RANGE
    ensures r.stepLoops == 1 || r.stepLoops == 2 || r.stepLoops == 4
    ensures r.stepLoops == 4 <==> stepRate > 2 * DOUBLE_STEP_FREQUENCY
    ensures r.stepLoops == 2 <==> DOUBLE_STEP_FREQUENCY < stepRate <= 2 * DOUBLE_STEP_FREQUENCY
    ensures r.reportedRate == HalAvr.OffsetFor(stepRate)
    ensures var raw := AvrRawTimer(t, r.reportedRate);
      (r.tooHigh <==> raw < MIN_TIMER) && r.timer == (if r.tooHigh then MIN_TIMER else raw)
  {
    var p := Prescale(ClampRate(stepRate));
    var offset := TableOffset(p.rate);
    ClampTimer(AvrRawTimer(t, offset), offset, p.loops)
  }

  /** The period before the lower clamp: `timer` is a uint16_t in both branches. */
  function AvrRawTimer(t: Tables, offset: nat): (raw: nat)
    requires ValidTables(t)
    ensures raw < UINT16_RANGE
    ensures offset < FAST_TABLE_START ==> raw == SlowPeriod(t, offset)
    ensures offset >= FAST_TABLE_START ==> (raw - FastDifference(t, offset)) % UINT16_RANGE == 0
  {
    if offset >= FAST_TABLE_START then Wrap16(FastDifference(t, offset)) else SlowPeriod(t, offset)
  }

  /**
   * SAM calc_timer(step_rate): HAL_TIMER_RATE / step_rate, one pulse per
   * interrupt. `#ifndef __SAM3X8E__ || ENABLED(...)` tests only whether
   * __SAM3X8E__ is undefined, so SAM never double or quad steps. There is no
   * zero guard before the division.
   */
  function SamCalcTimer(timerRate: nat, maxStepFrequency: nat, stepRate: nat): (r: Interval)
    requires 0 < stepRate && 0 < maxStepFrequency
    ensures r.stepLoops == 1 && !r.tooHigh
    ensures var clamped := if stepRate > maxStepFrequency then maxStepFrequency else stepRate;
      r.timer * clamped <= timerRate < (r.timer + 1) * clamped
  {
    var clamped := if stepRate > maxStepFrequency then maxStepFrequency else stepRate;
    Interval(timerRate / clamped, 1, false, clamped)
  }

  /**
   * calc_timer on the given platform. On AVR the period fits the uint16_t
   * it is returned as and is never below 100, and step_loops follows the
   * double/quad-stepping thresholds; on SAM3X8E there is one pulse per
   * interrupt, no diagnostic, and the period is the rounded-down quotient of
   * HAL_TIMER_RATE by the clamped rate, so it fits a uint32_t.
   */
  function CalcTimerSpec(p: Platform, t: Tables, stepRate: nat): (r: Interval)
    requires ValidPlatform(p) && ValidTables(t)
    requires stepRate < RateRange(p)
    requires p.Sam? ==> 0 < stepRate
    ensures p.Avr? ==>
      && MIN_TIMER <= r.timer < UINT16_RANGE
      && (r.stepLoops == 1 || r.stepLoops == 2 || r.stepLoops == 4)
      && (r.stepLoops == 4 <==> stepRate > 2 * DOUBLE_STEP_FREQUENCY)
      && (r.stepLoops == 2 <==> DOUBLE_STEP_FREQUENCY < stepRate <= 2 * DOUBLE_STEP_FREQUENCY)
      && r.reportedRate == HalAvr.OffsetFor(stepRate)
      && var raw := AvrRawTimer(t, HalAvr.OffsetFor(stepRate));
        (r.tooHigh <==> raw < MIN_TIMER) && r.timer == (if raw < MIN_TIMER then MIN_TIMER else raw)
    ensures p.Sam? ==>
      var clamped := if stepRate > p.maxStepFrequency then p.maxStepFrequency else stepRate;
      && r.stepLoops == 1 && !r.tooHigh
      && r.timer * clamped <= p.timerRate < (r.timer + 1) * clamped
      && r.timer < UINT32_RANGE
  {
    if p.Avr? then AvrCalcTimer(t, stepRate) else SamCalcTimer(p.timerRate, p.maxStepFrequency, stepRate)
  }

  /** The diagnostics a conversion prints. */
  function Diagnostics(r: Interval): seq<Event>
  {
    if r.tooHigh then [StepRateTooHigh(r.reportedRate)] else []
  }

  /**
   * When no fast-table gain exceeds its row's base, the fast subtraction
   * wraps in neither HAL_calc_timer_interval (32 bits) nor calc_timer
   * (16 bits), and the two compute the same period, step_loops and
   * diagnostic for every uint16_t rate. The slow branch needs no condition:
   * both compute it in AVR's 16-bit int.
   */
  lemma CalcTimerMatchesHal(t: Tables, stepRate: nat)
    requires ValidTables(t) && Interpolating(t.fast)
    requires stepRate < UINT16_RANGE
    ensures AvrCalcTimer(t, stepRate) == HalAvr.CalcTimerInterval(t, stepRate)
  {
    var offset := HalAvr.OffsetFor(stepRate);
    if offset >= FAST_TABLE_START {
      var i := FastIndex(offset);
      assert t.fast[i].gain <= t.fast[i].base;
      assert 0 <= FastDifference(t, offset) < UINT16_RANGE;
    }
  }

  /**
   * With a 2 MHz timer and the minimal rate F_CPU / 500000 = 32, the first
   * slow-table row is (62500, 12500): 2000000 / 32 and the step down to
   * 2000000 / 40. Its interpolation product 12500 * (step_rate & 7) exceeds
   * 2^16 from step_rate & 7 == 6 on, so in AVR's 16-bit int it wraps, and
   * the period rises again while the rate rises from 37 to 38 steps/s, in
   * calc_timer and HAL_calc_timer_interval alike. Computed without the wrap
   * the periods would be 54688, 53125 and 51563.
   */
  lemma SlowProductWraps(t: Tables)
    requires ValidTables(t) && t.slow[0] == Entry(62500, 12500)
    ensures AvrCalcTimer(t, 37).timer == 54688
    ensures AvrCalcTimer(t, 38).timer == 61317
    ensures AvrCalcTimer(t, 39).timer == 59755
    ensures forall rate: nat :: 37 <= rate <= 39 ==> HalAvr.CalcTimerInterval(t, rate).timer == AvrCalcTimer(t, rate).timer
  {
    forall rate | 37 <= rate <= 39
      ensures HalAvr.CalcTimerInterval(t, rate).timer == AvrCalcTimer(t, rate).timer
    {
      assert HalAvr.OffsetFor(rate) < FAST_TABLE_START;
    }
  }

  /** Bit n of a number, taking one shift at a time. */
  function TestBit(bits: nat, n: nat): bool
  {
    if n == 0 then bits % 2 == 1 else TestBit(bits / 2, n - 1)
  }

  /** TEST(bits, n), that is ((bits >> n) & 1), is bit n. */
  lemma {:induction false} TestBitIsShiftAndMask(bits: nat, n: nat)
    ensures TestBit(bits, n) == ((bits / Pow2(n)) % 2 == 1)
  {
    if n > 0 {
      TestBitIsShiftAndMask(bits / 2, n - 1);
      DivHalf(bits, Pow2(n - 1));
    }
  }

  predicate SameBits(a: nat, b: nat, width: nat)
  {
    forall n :: 0 <= n < width ==> TestBit(a, n) == TestBit(b, n)
  }

  /** Two numbers below 2^width that agree on every bit below width are equal. */
  lemma {:induction false} BitsDetermineValue(a: nat, b: nat, width: nat)
    requires a < Pow2(width) && b < Pow2(width)
    requires SameBits(a, b, width)
    ensures a == b
  {
    if width > 0 {
      assert TestBit(a, 0) == TestBit(b, 0);
      forall n | 0 <= n < width - 1
        ensures TestBit(a / 2, n) == TestBit(b / 2, n)
      {
        assert TestBit(a, n + 1) == TestBit(b, n + 1);
      }
      BitsDetermineValue(a / 2, b / 2, width - 1);
    }
  }

  /**
   * Two direction bytes give every motor the same direction exactly when
   * they are equal: trapezoid_generator_reset skips set_directions() only
   * when no motor's direction would change (and the extruder stays).
   */
  lemma SameDirectionsIff(a: nat, b: nat)
    requires a < UINT8_RANGE && b < UINT8_RANGE
    ensures SameBits(a, b, 8) <==> a == b
  {
    if SameBits(a, b, 8) {
      assert Pow2(8) == UINT8_RANGE;
      BitsDetermineValue(a, b, 8);
    }
  }

  /** (advance >> 8) for a signed long: GCC shifts arithmetically, i.e. floors. */
  function AdvanceSteps(advance: int): (r: int)
    ensures r * 256 <= advance < r * 256 + 256
  {
    advance / 256
  }

  /** C's `/` on signed integers: the quotient truncated toward zero. */
  function TruncDiv(a: int, b: nat): (q: int)
    requires b > 0
    ensures a >= 0 ==> 0 <= q && q * b <= a < q * b + b
    ensures a < 0 ==> q <= 0 && q * b - b < a <= q * b
  {
    if a >= 0 then
      Quotient(a, b);
      a / b
    else
      NegatedQuotient(-a, b);
      -((-a) / b)
  }

  lemma Quotient(x: int, b: nat)
    requires x >= 0 && b > 0
    ensures var q := x / b; 0 <= q && q * b <= x < q * b + b
  {
    DivMod(x, b);
  }

  lemma NegatedQuotient(x: int, b: nat)
    requires x >= 0 && b > 0
    ensures var q := -(x / b); q * b - b < -x <= q * b
  {
    var p := x / b;
    DivMod(x, b);
    assert (-p) * b == -(p * b);
  }

  /**
   * One mixing stepper's share of the advance delta,
   * advance_factor * step_event_count / mix_event_count[j]: it has the sign
   * of the delta, and multiplied back by mix_event_count it is within one
   * mix_event_count of delta * step_event_count.
   */
  function MixShare(factor: int, stepEventCount: nat, mixEventCount: nat): (s: int)
    requires mixEventCount > 0
    ensures factor >= 0 ==> s >= 0
    ensures factor <= 0 ==> s <= 0
    ensures -(mixEventCount as int) < factor * stepEventCount - s * mixEventCount < mixEventCount
  {
    MulSign(factor, stepEventCount);
    TruncDiv(factor * stepEventCount, mixEventCount)
  }

  lemma MulSign(a: int, n: nat)
    ensures a >= 0 ==> a * n >= 0
    ensures a <= 0 ==> a * n <= 0
  {
  }

  /**
   * e_steps after the COLOR_MIXING_EXTRUDER loop of the ADVANCE code: a
   * mixing stepper whose mix_event_count is zero keeps its steps; every
   * other one moves by an amount with the sign of the advance delta, which
   * times its mix_event_count is within one mix_event_count of
   * delta * step_event_count (its proportional share, truncated).
   */
  function MixedESteps(eSteps: seq<int>, factor: int, b: Block): (r: seq<int>)
    requires |b.mixEventCount| == |eSteps|
    ensures |r| == |eSteps|
    ensures forall j :: 0 <= j < |r| && b.mixEventCount[j] == 0 ==> r[j] == eSteps[j]
    ensures forall j :: 0 <= j < |r| && b.mixEventCount[j] != 0 ==>
      var moved := r[j] - eSteps[j];
      var m := b.mixEventCount[j] as int;
      && (factor >= 0 ==> moved >= 0)
      && (factor <= 0 ==> moved <= 0)
      && -m < factor * b.stepEventCount - moved * m < m
  {
    seq(|eSteps|, j requires 0 <= j < |eSteps| =>
      if b.mixEventCount[j] == 0 then eSteps[j]
      else eSteps[j] + MixShare(factor, b.stepEventCount, b.mixEventCount[j]))
  }

  function Sum(s: seq<int>): int
  {
    if s == [] then 0 else s[0] + Sum(s[1..])
  }

  /** Adding d to one element adds d to the sum. */
  lemma {:induction false} SumUpdate(s: seq<int>, i: nat, d: int)
    requires i < |s|
    ensures Sum(s[i := s[i] + d]) == Sum(s) + d
  {
    if i > 0 {
      assert s[i := s[i] + d][1..] == s[1..][i - 1 := s[i] + d];
      SumUpdate(s[1..], i - 1, d);
    } else {
      assert s[i := s[i] + d][1..] == s[1..];
    }
  }

  /** (rate * e_speed_multiplier8) >> 8: an axis rate scaled to the extruder's rate. */
  function ExtruderRate(rate: nat, multiplier8: nat): (r: nat)
    ensures r * 256 <= rate * multiplier8 < r * 256 + 256
  {
    rate * multiplier8 / 256
  }

  /** Whether trapezoid_generator_reset has to call set_directions(). */
  predicate DirectionsChange(b: Block, lastDirectionBits: nat, lastExtruder: int)
  {
    b.directionBits != lastDirectionBits || b.activeExtruder != lastExtruder
  }

  /**
   * set_directions() is called exactly when some motor's direction, as
   * motor_direction(axis) reads it for an axis below 8, differs between the
   * latched byte and the block's byte, or when the extruder changes.
   */
  lemma DirectionsChangeIff(b: Block, lastDirectionBits: nat, lastExtruder: int)
    requires b.directionBits < UINT8_RANGE && lastDirectionBits < UINT8_RANGE
    ensures DirectionsChange(b, lastDirectionBits, lastExtruder) <==>
      || (exists axis :: 0 <= axis < 8 && TestBit(b.directionBits, axis) != TestBit(lastDirectionBits, axis))
      || b.activeExtruder != lastExtruder
  {
    SameDirectionsIff(b.directionBits, lastDirectionBits);
    if b.directionBits != lastDirectionBits {
      assert exists n :: 0 <= n < 8 && TestBit(b.directionBits, n) != TestBit(lastDirectionBits, n);
    }
  }

  class Stepper {
    const platform: Platform
    const tables: Tables
    const advanceMode: AdvanceMode
    const mixing: bool           // COLOR_MIXING_EXTRUDER

    var currentBlock: Option<Block>
    var stepEventsCompleted: nat

    var lastDirectionBits: Byte  // unsigned char last_direction_bits
    var lastExtruder: int        // the static int8_t in trapezoid_generator_reset

    var stepLoops: nat
    var stepLoopsNominal: nat
    var ocr1aNominal: nat
    var accStepRate: nat
    var accelerationTime: int
    var decelerationTime: int
    var ocr1a: nat               // the AVR compare register OCR1A

    // ADVANCE
    var advance: int
    var finalAdvance: int
    var oldAdvance: int
    // LIN_ADVANCE
    var finalEstepRate: int

    const eSteps: array<int>
    const currentEstepRate: array<int>

    var events: seq<Event>

    /** The build is consistent; only constant members are involved. */
    ghost predicate Valid()
    {
      && ValidPlatform(platform)
      && ValidTables(tables)
      && eSteps != currentEstepRate
      && eSteps.Length == currentEstepRate.Length
    }

    /** A block the planner hands over fits this build. */
    predicate Fits(b: Block)
    {
      && b.directionBits < UINT8_RANGE
      && b.activeExtruder < eSteps.Length
      && (mixing ==> |b.mixEventCount| == eSteps.Length)
      && (platform.Sam? ==> b.nominalRate % UINT32_RANGE > 0 && b.initialRate % UINT32_RANGE > 0)
    }

    /** The static members as the program starts: all zero, last_extruder -1. */
    constructor (platform: Platform, tables: Tables, advanceMode: AdvanceMode, mixing: bool, eSteppers: nat)
      requires ValidPlatform(platform) && ValidTables(tables)
      ensures Valid()
      ensures this.platform == platform && this.tables == tables
      ensures this.advanceMode == advanceMode && this.mixing == mixing
      ensures fresh(eSteps) && fresh(currentEstepRate)
      ensures eSteps.Length == eSteppers && eSteps[..] == seq(eSteppers, _ => 0)
      ensures currentEstepRate[..] == seq(eSteppers, _ => 0)
      ensures currentBlock == None && stepEventsCompleted == 0
      ensures lastDirectionBits == 0 && lastExtruder == -1 && stepLoops == 0 && events == []
      ensures stepLoopsNominal == 0 && ocr1aNominal == 0 && accStepRate == 0 && ocr1a == 0
      ensures accelerationTime == 0 && decelerationTime == 0
      ensures advance == 0 && finalAdvance == 0 && oldAdvance == 0 && finalEstepRate == 0
    {
      this.platform := platform;
      this.tables := tables;
      this.advanceMode := advanceMode;
      this.mixing := mixing;
      currentBlock := None;
      stepEventsCompleted := 0;
      lastDirectionBits := 0;
      lastExtruder := -1;
      stepLoops, stepLoopsNominal := 0, 0;
      ocr1aNominal, accStepRate, ocr1a := 0, 0, 0;
      accelerationTime, decelerationTime := 0, 0;
      advance, finalAdvance, oldAdvance, finalEstepRate := 0, 0, 0, 0;
      eSteps := new int[eSteppers](_ => 0);
      currentEstepRate := new int[eSteppers](_ => 0);
      events := [];
    }

    /** calc_timer's result for the block's nominal rate, passed as a uint16_t (AVR) or uint32_t (SAM). */
    function NominalSetting(b: Block): Interval
      requires Valid() && Fits(b)
    {
      CalcTimerSpec(platform, tables, b.nominalRate % RateRange(platform))
    }

    /** calc_timer's result for the block's initial rate, as acc_step_rate holds it. */
    function InitialSetting(b: Block): Interval
      requires Valid() && Fits(b)
    {
      CalcTimerSpec(platform, tables, b.initialRate % RateRange(platform))
    }

    /** e_steps once the ADVANCE delta has been distributed. */
    function AdvancedESteps(s: seq<int>, factor: int, b: Block): seq<int>
      requires Fits(b) && |s| == eSteps.Length
    {
      if mixing then MixedESteps(s, factor, b) else s[b.activeExtruder := s[b.activeExtruder] + factor]
    }

    /** motor_direction(axis): the latched direction of one motor. */
    function MotorDirection(axis: nat): (forward: bool)
      reads this
      requires axis < 8
      ensures forward == TestBit(lastDirectionBits, axis)
    {
      TestBitIsShiftAndMask(lastDirectionBits, axis);
      (lastDirectionBits / Pow2(axis)) % 2 == 1
    }

    /** kill_current_block(): mark every step event of the block as done. */
    method KillCurrentBlock()
      requires currentBlock.Some?
      modifies this`stepEventsCompleted
      ensures stepEventsCompleted == currentBlock.value.stepEventCount
    {
      stepEventsCompleted := currentBlock.value.stepEventCount;
    }

    /** calc_timer(step_rate): the period for a rate; sets step_loops. */
    method CalcTimer(stepRate: nat) returns (timer: nat)
      requires ValidPlatform(platform) && ValidTables(tables)
      requires stepRate < RateRange(platform)
      requires platform.Sam? ==> 0 < stepRate
      modifies this`stepLoops, this`events
      ensures var r := CalcTimerSpec(platform, tables, stepRate);
        timer == r.timer && stepLoops == r.stepLoops && events == old(events) + Diagnostics(r)
    {
      var rate := stepRate;
      if platform.Avr? {
        if rate > MAX_STEP_FREQUENCY {
          rate := MAX_STEP_FREQUENCY;
        }
        if rate > 2 * DOUBLE_STEP_FREQUENCY {
          rate := rate / 4;
          stepLoops := 4;
        } else if rate > DOUBLE_STEP_FREQUENCY {
          rate := rate / 2;
          stepLoops := 2;
        } else {
          stepLoops := 1;
        }
        if rate < MIN_STEP_RATE {
          rate := MIN_STEP_RATE;
        }
        rate := rate - MIN_STEP_RATE;
        if rate >= FAST_TABLE_START {
          var row := tables.fast[FastIndex(rate)];
          timer := MultiU16X8toH16(rate % 256, row.gain);
          timer := Wrap16(row.base - timer);
        } else {
          var row := tables.slow[SlowIndex(rate)];
          timer := row.base;
          timer := Wrap16(timer - SlowCorrection(row, rate));
        }
        if timer < MIN_TIMER {
          timer := MIN_TIMER;
          events := events + [StepRateTooHigh(rate)];
        }
      } else {
        if rate > platform.maxStepFrequency {
          rate := platform.maxStepFrequency;
        }
        stepLoops := 1;
        timer := platform.timerRate / rate;
      }
    }

    /** The direction latch at the start of trapezoid_generator_reset. */
    method LatchDirections(b: Block)
      requires b.directionBits < UINT8_RANGE
      modifies this`lastDirectionBits, this`lastExtruder, this`events
      ensures lastDirectionBits == b.directionBits && lastExtruder == b.activeExtruder
      ensures events == old(events) + if DirectionsChange(b, old(lastDirectionBits), old(lastExtruder)) then [SetDirections] else []
    {
      if b.directionBits != lastDirectionBits || b.activeExtruder != lastExtruder {
        lastDirectionBits := b.directionBits;
        lastExtruder := b.activeExtruder;
        events := events + [SetDirections];
      }
    }

    /** The ADVANCE part: the advance delta goes to the extruder's e_steps. */
    method ApplyAdvance(b: Block)
      requires Fits(b)
      modifies this`advance, this`finalAdvance, this`oldAdvance, eSteps
      ensures advance == b.initialAdvance && finalAdvance == b.finalAdvance
      ensures oldAdvance == AdvanceSteps(b.initialAdvance)
      ensures var factor := AdvanceSteps(b.initialAdvance) - old(oldAdvance);
        eSteps[..] == AdvancedESteps(old(eSteps[..]), factor, b)
      ensures !mixing ==> Sum(eSteps[..]) - oldAdvance == old(Sum(eSteps[..]) - oldAdvance)
    {
      advance := b.initialAdvance;
      finalAdvance := b.finalAdvance;
      var factor := AdvanceSteps(advance) - oldAdvance;
      if mixing {
        AddMixingAdvance(factor, b);
      } else {
        SumUpdate(eSteps[..], b.activeExtruder, factor);
        eSteps[b.activeExtruder] := eSteps[b.activeExtruder] + factor;
      }
      oldAdvance := AdvanceSteps(advance);
    }

    /** MIXING_STEPPERS_LOOP over the mixing steppers. */
    method AddMixingAdvance(factor: int, b: Block)
      requires |b.mixEventCount| == eSteps.Length
      modifies eSteps
      ensures eSteps[..] == MixedESteps(old(eSteps[..]), factor, b)
    {
      var j := 0;
      while j < eSteps.Length
        invariant 0 <= j <= eSteps.Length
        invariant forall k :: 0 <= k < j ==> eSteps[k] == MixedESteps(old(eSteps[..]), factor, b)[k]
        invariant forall k :: j <= k < eSteps.Length ==> eSteps[k] == old(eSteps[k])
      {
        if b.mixEventCount[j] != 0 {
          eSteps[j] := eSteps[j] + MixShare(factor, b.stepEventCount, b.mixEventCount[j]);
        }
        j := j + 1;
      }
    }

    /** The LIN_ADVANCE part: extruder rates scaled by e_speed_multiplier8. */
    method ApplyLinAdvance(b: Block)
      requires Valid() && Fits(b)
      modifies currentEstepRate, this`finalEstepRate
      ensures if b.useAdvanceLead then
          && currentEstepRate[..] == old(currentEstepRate[..])[b.activeExtruder := ExtruderRate(accStepRate, b.eSpeedMultiplier8)]
          && finalEstepRate == ExtruderRate(b.nominalRate, b.eSpeedMultiplier8)
        else
          currentEstepRate[..] == old(currentEstepRate[..]) && finalEstepRate == old(finalEstepRate)
    {
      if b.useAdvanceLead {
        currentEstepRate[b.activeExtruder] := ExtruderRate(accStepRate, b.eSpeedMultiplier8);
        finalEstepRate := ExtruderRate(b.nominalRate, b.eSpeedMultiplier8);
      }
    }

    /** The trapezoid timers for the block's nominal and initial rates. */
    method StartTimers(b: Block)
      requires Valid() && Fits(b)
      modifies this`decelerationTime, this`ocr1aNominal, this`stepLoopsNominal, this`accStepRate
      modifies this`accelerationTime, this`ocr1a, this`stepLoops, this`events
      ensures var nominal := NominalSetting(b);
        var initial := InitialSetting(b);
        && events == old(events) + Diagnostics(nominal) + Diagnostics(initial)
        && ocr1aNominal == nominal.timer && stepLoopsNominal == nominal.stepLoops
        && accStepRate == b.initialRate % RateRange(platform)
        && accelerationTime == initial.timer && stepLoops == initial.stepLoops
        && decelerationTime == 0
        && ocr1a == (if platform.Avr? then initial.timer else old(ocr1a))
    {
      decelerationTime := 0;
      ocr1aNominal := CalcTimer(b.nominalRate % RateRange(platform));
      stepLoopsNominal := stepLoops;
      accStepRate := b.initialRate % RateRange(platform);
      accelerationTime := CalcTimer(accStepRate);
      if platform.Avr? {
        ocr1a := accelerationTime;
      }
    }

    /**
     * trapezoid_generator_reset() after the direction latch: the ADVANCE
     * extruder steps, the trapezoid timers and the LIN_ADVANCE rates for
     * block `b`.
     */
    method PrepareBlock(b: Block)
      requires Valid() && Fits(b)
      modifies this`advance, this`finalAdvance, this`oldAdvance, eSteps
      modifies this`decelerationTime, this`ocr1aNominal, this`stepLoopsNominal, this`accStepRate
      modifies this`accelerationTime, this`ocr1a, this`stepLoops, this`events
      modifies currentEstepRate, this`finalEstepRate
      ensures var nominal := NominalSetting(b);
        var initial := InitialSetting(b);
        && events == old(events) + Diagnostics(nominal) + Diagnostics(initial)
        && ocr1aNominal == nominal.timer && stepLoopsNominal == nominal.stepLoops
        && accStepRate == b.initialRate % RateRange(platform)
        && accelerationTime == initial.timer && stepLoops == initial.stepLoops
        && decelerationTime == 0
        && ocr1a == (if platform.Avr? then initial.timer else old(ocr1a))
      // ADVANCE
      ensures var factor := AdvanceSteps(b.initialAdvance) - old(oldAdvance);
        if advanceMode.Advance? then
          && advance == b.initialAdvance && finalAdvance == b.finalAdvance
          && oldAdvance == AdvanceSteps(b.initialAdvance)
          && eSteps[..] == AdvancedESteps(old(eSteps[..]), factor, b)
        else
          && advance == old(advance) && finalAdvance == old(finalAdvance) && oldAdvance == old(oldAdvance)
          && eSteps[..] == old(eSteps[..])
      // LIN_ADVANCE
      ensures if advanceMode.LinAdvance? && b.useAdvanceLead then
          && currentEstepRate[..] == old(currentEstepRate[..])[b.activeExtruder := ExtruderRate(accStepRate, b.eSpeedMultiplier8)]
          && finalEstepRate == ExtruderRate(b.nominalRate, b.eSpeedMultiplier8)
        else
          currentEstepRate[..] == old(currentEstepRate[..]) && finalEstepRate == old(finalEstepRate)
    {
      if advanceMode.Advance? {
        ApplyAdvance(b);
      }
      StartTimers(b);
      if advanceMode.LinAdvance? {
        ApplyLinAdvance(b);
      }
    }

    /**
     * trapezoid_generator_reset(): prepare the timers of the block that
     * starts.
     */
    method TrapezoidGeneratorReset()
      requires Valid()
      requires currentBlock.Some? && Fits(currentBlock.value)
      modifies this`lastDirectionBits, this`lastExtruder, this`events
      modifies this`advance, this`finalAdvance, this`oldAdvance, eSteps
      modifies this`decelerationTime, this`ocr1aNominal, this`stepLoopsNominal, this`accStepRate
      modifies this`accelerationTime, this`ocr1a, this`stepLoops
      modifies currentEstepRate, this`finalEstepRate
      // direction pins and diagnostics
      ensures var b := currentBlock.value;
        var nominal := NominalSetting(b);
        var initial := InitialSetting(b);
        && lastDirectionBits == b.directionBits && lastExtruder == b.activeExtruder
        && events == old(events) + (if DirectionsChange(b, old(lastDirectionBits), old(lastExtruder)) then [SetDirections] else [])
                     + Diagnostics(nominal) + Diagnostics(initial)
      // the trapezoid timers
      ensures var b := currentBlock.value;
        var nominal := NominalSetting(b);
        var initial := InitialSetting(b);
        && ocr1aNominal == nominal.timer && stepLoopsNominal == nominal.stepLoops
        && accStepRate == b.initialRate % RateRange(platform)
        && accelerationTime == initial.timer && stepLoops == initial.stepLoops
        && decelerationTime == 0
        && ocr1a == (if platform.Avr? then initial.timer else old(ocr1a))
      // ADVANCE
      ensures var b := currentBlock.value;
        var factor := AdvanceSteps(b.initialAdvance) - old(oldAdvance);
        if advanceMode.Advance? then
          && advance == b.initialAdvance && finalAdvance == b.finalAdvance
          && oldAdvance == AdvanceSteps(b.initialAdvance)
          && eSteps[..] == AdvancedESteps(old(eSteps[..]), factor, b)
        else
          && advance == old(advance) && finalAdvance == old(finalAdvance) && oldAdvance == old(oldAdvance)
          && eSteps[..] == old(eSteps[..])
      // LIN_ADVANCE
      ensures var b := currentBlock.value;
        if advanceMode.LinAdvance? && b.useAdvanceLead then
          && currentEstepRate[..] == old(currentEstepRate[..])[b.activeExtruder := ExtruderRate(accStepRate, b.eSpeedMultiplier8)]
          && finalEstepRate == ExtruderRate(b.nominalRate, b.eSpeedMultiplier8)
        else
          currentEstepRate[..] == old(currentEstepRate[..]) && finalEstepRate == old(finalEstepRate)
    {
      var b := currentBlock.value;
      LatchDirections(b);
      PrepareBlock(b);
    }
  }
}
