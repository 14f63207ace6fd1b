/**
 * The counters of the AVR temperature interrupt (HAL_temp_isr): the 100 ms
 * cycle counter and the round-robin oversampling of the analog inputs.
 *
 * Each interrupt may find an ADC conversion finished; its 10-bit result
 * (ADCW) is added to the accumulator of the current sample position. After
 * OVERSAMPLENR conversions the mean is stored for that position's channel,
 * the accumulator and counter are cleared and the next position is sampled.
 * Once every position has been sampled the readings are marked ready.
 *
 * The soft-PWM pin toggling, the fan kick-start countdown, the ADC multiplexer
 * writes and the endstop tick of the same interrupt are not part of this
 * model; whether a conversion finished, and its result, are inputs.
 */
module HalTemp {
  import opened Config

  /**
   * The interrupt's state: the static cycle_100ms and channel, HAL::execute_100ms,
   * adcSamplePos, the accumulators AnalogInputRead[], the sample counters
   * adcCounter[], the means HAL::AnalogInputValues[] and HAL::Analog_is_ready.
   */
  datatype Sampler = Sampler(
    cycle100ms: nat,
    execute100ms: bool,
    channel: nat,
    adcSamplePos: nat,
    analogInputRead: seq<int>,
    adcCounter: seq<nat>,
    analogInputValues: seq<int>,
    analogIsReady: bool)

  /**
   * AnalogInputChannels: the ADC channel of each sample position, each one
   * of the NUM_ANALOG_INPUTS channels of the chip. The code is compiled only
   * when ANALOG_INPUTS > 0, and adcSamplePos is a uint8_t.
   */
  predicate ValidChannels(channels: seq<nat>, numAnalogInputs: nat)
  {
    && 0 < |channels| < UINT8_RANGE
    && forall i :: 0 <= i < |channels| ==> channels[i] < numAnalogInputs
  }

  /**
   * What the interrupt keeps true: the cycle counter is below one cycle, the
   * position is a sample position, no counter reaches OVERSAMPLENR, each
   * accumulator holds at most its counter's worth of 10-bit readings, and
   * every stored mean is a 10-bit value.
   */
  predicate Inv(channels: seq<nat>, numAnalogInputs: nat, s: Sampler)
  {
    && ValidChannels(channels, numAnalogInputs)
    && s.cycle100ms < CYCLES_PER_100MS
    && s.adcSamplePos < |channels|
    && |s.analogInputRead| == |channels| && |s.adcCounter| == |channels|
    && |s.analogInputValues| == numAnalogInputs
    && (forall i :: 0 <= i < |channels| ==> s.adcCounter[i] < OVERSAMPLENR)
    && (forall i :: 0 <= i < |channels| ==> 0 <= s.analogInputRead[i] <= s.adcCounter[i] * (ADC_RANGE - 1))
    && (forall i :: 0 <= i < numAnalogInputs ==> 0 <= s.analogInputValues[i] < ADC_RANGE)
  }

  /** The state after the static initialisers and analogStart(). */
  function Initial(channels: seq<nat>, numAnalogInputs: nat): (s: Sampler)
    requires ValidChannels(channels, numAnalogInputs)
    ensures Inv(channels, numAnalogInputs, s)
    ensures forall i :: 0 <= i < |channels| ==> s.adcCounter[i] == 0 && s.analogInputRead[i] == 0
  {
    Sampler(0, false, 0, 0, seq(|channels|, _ => 0), seq(|channels|, _ => 0),
            seq(numAnalogInputs, _ => 0), false)
  }

  /**
   * cycle_100ms++; on reaching F_CPU / 40960 it restarts at 0 and
   * execute_100ms is set. Nothing else changes.
   */
  function CycleTick(s: Sampler): (r: Sampler)
    requires s.cycle100ms < CYCLES_PER_100MS
    ensures r.cycle100ms == if s.cycle100ms + 1 == CYCLES_PER_100MS then 0 else s.cycle100ms + 1
    ensures r.execute100ms <==> s.execute100ms || s.cycle100ms + 1 == CYCLES_PER_100MS
    ensures r == s.(cycle100ms := r.cycle100ms, execute100ms := r.execute100ms)
  {
    var c := s.cycle100ms + 1;
    if c >= CYCLES_PER_100MS then s.(cycle100ms := 0, execute100ms := true) else s.(cycle100ms := c)
  }

  /** A conversion at position p completes the position's oversampling. */
  predicate Completes(s: Sampler, p: nat)
    requires p < |s.adcCounter|
  {
    s.adcCounter[p] + 1 >= OVERSAMPLENR
  }

  /**
   * One finished conversion with result adcw. The store of the mean is
   * skipped while execute_100ms is set (the consumer of the means is then
   * due to read them).
   */
  function Conversion(channels: seq<nat>, numAnalogInputs: nat, s: Sampler, adcw: nat): (r: Sampler)
    requires Inv(channels, numAnalogInputs, s) && adcw < ADC_RANGE
    ensures Inv(channels, numAnalogInputs, r)
    ensures r.cycle100ms == s.cycle100ms && r.execute100ms == s.execute100ms
    ensures var p := s.adcSamplePos;
      if Completes(s, p) then
        && r.adcSamplePos == (if p + 1 == |channels| then 0 else p + 1)
        && r.adcCounter == s.adcCounter[p := 0] && r.analogInputRead == s.analogInputRead[p := 0]
        && r.analogInputValues == (if s.execute100ms then s.analogInputValues
                                   else s.analogInputValues[channels[p] := (s.analogInputRead[p] + adcw) / OVERSAMPLENR])
        && (r.analogIsReady <==> s.analogIsReady || p + 1 == |channels|)
        && r.channel == channels[r.adcSamplePos]
      else
        && r.adcSamplePos == p
        && r.adcCounter == s.adcCounter[p := s.adcCounter[p] + 1]
        && r.analogInputRead == s.analogInputRead[p := s.analogInputRead[p] + adcw]
        && r.analogInputValues == s.analogInputValues && r.analogIsReady == s.analogIsReady
        && r.channel == channels[p]
  {
    var p := s.adcSamplePos;
    var read := s.analogInputRead[p := s.analogInputRead[p] + adcw];
    var count := s.adcCounter[p] + 1;
    if count >= OVERSAMPLENR then
      var values := if !s.execute100ms || p >= |channels|
                    then s.analogInputValues[channels[p] := read[p] / OVERSAMPLENR]
                    else s.analogInputValues;
      var next := if p + 1 >= |channels| then 0 else p + 1;
      Sampler(s.cycle100ms, s.execute100ms, channels[next], next, read[p := 0], s.adcCounter[p := 0],
              values, s.analogIsReady || p + 1 >= |channels|)
    else
      s.(channel := channels[p], analogInputRead := read, adcCounter := s.adcCounter[p := count])
  }

  /** One interrupt: the cycle counter, then the conversion if one finished. */
  function TempTick(channels: seq<nat>, numAnalogInputs: nat, s: Sampler, conversionDone: bool, adcw: nat): (r: Sampler)
    requires Inv(channels, numAnalogInputs, s) && adcw < ADC_RANGE
    ensures Inv(channels, numAnalogInputs, r)
    ensures r.cycle100ms == if s.cycle100ms + 1 == CYCLES_PER_100MS then 0 else s.cycle100ms + 1
    ensures r.execute100ms <==> s.execute100ms || s.cycle100ms + 1 == CYCLES_PER_100MS
    ensures !conversionDone ==> r == s.(cycle100ms := r.cycle100ms, execute100ms := r.execute100ms)
  {
    var c := CycleTick(s);
    if conversionDone then Conversion(channels, numAnalogInputs, c, adcw) else c
  }

  /** What one interrupt observes: whether a conversion finished, and ADCW. */
  datatype Sample = Sample(done: bool, adcw: nat)

  predicate Readings(samples: seq<Sample>)
  {
    forall i :: 0 <= i < |samples| ==> samples[i].adcw < ADC_RANGE
  }

  /** The state after one interrupt per sample, in order. */
  function Run(channels: seq<nat>, numAnalogInputs: nat, s: Sampler, samples: seq<Sample>): (r: Sampler)
    requires Inv(channels, numAnalogInputs, s) && Readings(samples)
    ensures Inv(channels, numAnalogInputs, r)
    decreases |samples|
  {
    if samples == [] then s
    else
      var last := samples[|samples| - 1];
      TempTick(channels, numAnalogInputs, Run(channels, numAnalogInputs, s, samples[..|samples| - 1]), last.done, last.adcw)
  }

  /**
   * The 100 ms cycle: after k interrupts the counter has advanced by k
   * modulo F_CPU / 40960, and execute_100ms is set exactly when it was set
   * already or a full cycle was completed.
   */
  lemma {:induction false} CycleCount(channels: seq<nat>, numAnalogInputs: nat, s: Sampler, samples: seq<Sample>)
    requires Inv(channels, numAnalogInputs, s) && Readings(samples)
    ensures Run(channels, numAnalogInputs, s, samples).cycle100ms == (s.cycle100ms + |samples|) % CYCLES_PER_100MS
    ensures Run(channels, numAnalogInputs, s, samples).execute100ms <==>
      s.execute100ms || s.cycle100ms + |samples| >= CYCLES_PER_100MS
    decreases |samples|
  {
    if samples != [] {
      var front := samples[..|samples| - 1];
      var last := samples[|samples| - 1];
      assert Readings(front);
      CycleCount(channels, numAnalogInputs, s, front);
      var before := Run(channels, numAnalogInputs, s, front);
      var after := TempTick(channels, numAnalogInputs, before, last.done, last.adcw);
      assert Run(channels, numAnalogInputs, s, samples) == after;
      CycleSucc(s.cycle100ms + |front|, before.cycle100ms, after.cycle100ms);
    }
  }

  /** One more interrupt advances the cycle counter by one, modulo a cycle. */
  lemma CycleSucc(c: nat, before: nat, after: nat)
    requires before == c % CYCLES_PER_100MS
    requires after == if before + 1 == CYCLES_PER_100MS then 0 else before + 1
    ensures after == (c + 1) % CYCLES_PER_100MS
    ensures before + 1 == CYCLES_PER_100MS || c >= CYCLES_PER_100MS <==> c + 1 >= CYCLES_PER_100MS
  {
  }

  /** The sum of the ADC results of the finished conversions. */
  function AdcSum(samples: seq<Sample>): (total: nat)
    ensures Readings(samples) ==> total <= |samples| * (ADC_RANGE - 1)
  {
    if samples == [] then 0 else AdcSum(samples[..|samples| - 1]) + samples[|samples| - 1].adcw
  }

  predicate AllDone(samples: seq<Sample>)
  {
    forall i :: 0 <= i < |samples| ==> samples[i].done
  }

  /**
   * Fewer than OVERSAMPLENR conversions on a cleared position stay on that
   * position: its counter counts them, its accumulator sums them, and no
   * mean is stored.
   */
  lemma {:induction false} Accumulate(channels: seq<nat>, numAnalogInputs: nat, s: Sampler, samples: seq<Sample>)
    requires Inv(channels, numAnalogInputs, s) && Readings(samples) && AllDone(samples)
    requires s.adcCounter[s.adcSamplePos] == 0
    requires |samples| < OVERSAMPLENR
    ensures var r := Run(channels, numAnalogInputs, s, samples);
      && r.adcSamplePos == s.adcSamplePos
      && r.adcCounter[s.adcSamplePos] == |samples|
      && r.analogInputRead[s.adcSamplePos] == AdcSum(samples)
      && r.analogInputValues == s.analogInputValues
      && r.analogIsReady == s.analogIsReady
    decreases |samples|
  {
    if samples != [] {
      var front := samples[..|samples| - 1];
      assert Readings(front) && AllDone(front);
      Accumulate(channels, numAnalogInputs, s, front);
      var before := Run(channels, numAnalogInputs, s, front);
      assert !Completes(CycleTick(before), s.adcSamplePos);
    }
  }

  /**
   * OVERSAMPLENR conversions on a cleared position store their mean for that
   * position's channel (unless execute_100ms is set), clear the position again
   * and move to the next one; wrapping round to position 0 marks the readings
   * ready.
   */
  lemma Oversample(channels: seq<nat>, numAnalogInputs: nat, s: Sampler, samples: seq<Sample>)
    requires Inv(channels, numAnalogInputs, s) && Readings(samples) && AllDone(samples)
    requires s.adcCounter[s.adcSamplePos] == 0
    requires |samples| == OVERSAMPLENR
    ensures var p := s.adcSamplePos;
      var r := Run(channels, numAnalogInputs, s, samples);
      && r.adcSamplePos == (if p + 1 == |channels| then 0 else p + 1)
      && r.adcCounter[p] == 0 && r.analogInputRead[p] == 0
      && (!r.execute100ms ==> r.analogInputValues == s.analogInputValues[channels[p] := AdcSum(samples) / OVERSAMPLENR])
      && (r.execute100ms ==> r.analogInputValues == s.analogInputValues)
      && (r.analogIsReady <==> s.analogIsReady || p + 1 == |channels|)
  {
    var front := samples[..|samples| - 1];
    var last := samples[|samples| - 1];
    assert Readings(front) && AllDone(front) && last.done;
    Accumulate(channels, numAnalogInputs, s, front);
    var before := Run(channels, numAnalogInputs, s, front);
    assert Run(channels, numAnalogInputs, s, samples) == TempTick(channels, numAnalogInputs, before, true, last.adcw);
    assert AdcSum(samples) == before.analogInputRead[s.adcSamplePos] + last.adcw;
    FinishStep(channels, numAnalogInputs, before, last.adcw);
  }

  /** The conversion that completes a position's oversampling. */
  lemma FinishStep(channels: seq<nat>, numAnalogInputs: nat, s: Sampler, adcw: nat)
    requires Inv(channels, numAnalogInputs, s) && adcw < ADC_RANGE
    requires s.adcCounter[s.adcSamplePos] == OVERSAMPLENR - 1
    ensures var p := s.adcSamplePos;
      var r := TempTick(channels, numAnalogInputs, s, true, adcw);
      && r.adcSamplePos == (if p + 1 == |channels| then 0 else p + 1)
      && r.adcCounter[p] == 0 && r.analogInputRead[p] == 0
      && (!r.execute100ms ==> r.analogInputValues == s.analogInputValues[channels[p] := (s.analogInputRead[p] + adcw) / OVERSAMPLENR])
      && (r.execute100ms ==> r.analogInputValues == s.analogInputValues)
      && (r.analogIsReady <==> s.analogIsReady || p + 1 == |channels|)
  {
    var ticked := CycleTick(s);
    assert Completes(ticked, s.adcSamplePos);
  }

  /**
   * The interrupt's state as an object: the accumulators, counters and means
   * are arrays updated in place.
   */
  class TempSampler {
    const channels: seq<nat>
    const numAnalogInputs: nat
    var cycle100ms: nat
    var execute100ms: bool
    var channel: nat
    var adcSamplePos: nat
    var analogIsReady: bool
    const analogInputRead: array<int>
    const adcCounter: array<nat>
    const analogInputValues: array<int>

    function State(): Sampler
      reads this, analogInputRead, adcCounter, analogInputValues
    {
      Sampler(cycle100ms, execute100ms, channel, adcSamplePos, analogInputRead[..], adcCounter[..],
              analogInputValues[..], analogIsReady)
    }

    ghost predicate Valid()
      reads this, analogInputRead, adcCounter, analogInputValues
    {
      && analogInputRead != analogInputValues
      && Inv(channels, numAnalogInputs, State())
    }

    /** The static initialisers followed by analogStart(). */
    constructor (channels: seq<nat>, numAnalogInputs: nat)
      requires ValidChannels(channels, numAnalogInputs)
      ensures Valid()
      ensures this.channels == channels && this.numAnalogInputs == numAnalogInputs
      ensures State() == Initial(channels, numAnalogInputs)
    {
      this.channels := channels;
      this.numAnalogInputs := numAnalogInputs;
      cycle100ms := 0;
      execute100ms := false;
      channel := 0;
      adcSamplePos := 0;
      analogIsReady := false;
      analogInputRead := new int[|channels|](_ => 0);
      adcCounter := new nat[|channels|](_ => 0);
      analogInputValues := new int[numAnalogInputs](_ => 0);
    }

    /** cycle_100ms++ and its roll-over. */
    method CountCycle()
      requires Valid()
      modifies this`cycle100ms, this`execute100ms
      ensures Valid()
      ensures State() == CycleTick(old(State()))
    {
      cycle100ms := cycle100ms + 1;
      if cycle100ms >= CYCLES_PER_100MS {
        cycle100ms := 0;
        execute100ms := true;
      }
    }

    /** The array sizes and the channel table, which every step keeps. */
    ghost predicate Shaped()
      reads this, analogInputRead, adcCounter
    {
      && ValidChannels(channels, numAnalogInputs)
      && adcSamplePos < |channels|
      && analogInputRead.Length == |channels| && adcCounter.Length == |channels|
      && analogInputValues.Length == numAnalogInputs
      && analogInputRead != analogInputValues
    }

    /** AnalogInputRead[p] += ADCW; ++adcCounter[p]. */
    method AddReading(p: nat, adcw: nat)
      requires Shaped() && p < |channels|
      modifies analogInputRead, adcCounter
      ensures analogInputRead[..] == old(analogInputRead[..])[p := old(analogInputRead[p]) + adcw]
      ensures adcCounter[..] == old(adcCounter[..])[p := old(adcCounter[p]) + 1]
      ensures analogInputValues[..] == old(analogInputValues[..])
    {
      analogInputRead[p] := analogInputRead[p] + adcw;
      adcCounter[p] := adcCounter[p] + 1;
    }

    /**
     * The oversampling of position p is complete: store the mean, clear the
     * position and move to the next one.
     */
    method FinishPosition(p: nat)
      requires Shaped() && p == adcSamplePos
      modifies this`channel, this`adcSamplePos, this`analogIsReady, analogInputRead, adcCounter, analogInputValues
      ensures Shaped()
      ensures var next := if p + 1 >= |channels| then 0 else p + 1;
        && adcSamplePos == next && channel == channels[next]
        && analogIsReady == (old(analogIsReady) || p + 1 >= |channels|)
      ensures analogInputValues[..] == if !execute100ms || p >= |channels|
        then old(analogInputValues[..])[channels[p] := old(analogInputRead[p]) / OVERSAMPLENR]
        else old(analogInputValues[..])
      ensures analogInputRead[..] == old(analogInputRead[..])[p := 0]
      ensures adcCounter[..] == old(adcCounter[..])[p := 0]
    {
      if !execute100ms || p >= |channels| {
        analogInputValues[channels[p]] := analogInputRead[p] / OVERSAMPLENR;
      }
      analogInputRead[p] := 0;
      adcCounter[p] := 0;
      adcSamplePos := adcSamplePos + 1;
      if adcSamplePos >= |channels| {
        adcSamplePos := 0;
        analogIsReady := true;
      }
      channel := channels[adcSamplePos];
    }

    /** The conversion-finished branch of HAL_temp_isr(). */
    method Convert(adcw: nat)
      requires Valid() && adcw < ADC_RANGE
      modifies this`channel, this`adcSamplePos, this`analogIsReady, analogInputRead, adcCounter, analogInputValues
      ensures Valid()
      ensures State() == Conversion(channels, numAnalogInputs, old(State()), adcw)
    {
      ghost var s := State();
      var p := adcSamplePos;
      channel := channels[p];
      AddReading(p, adcw);
      if adcCounter[p] >= OVERSAMPLENR {
        FinishPosition(p);
      }
      assert State() == Conversion(channels, numAnalogInputs, s, adcw);
    }

    /**
     * HAL_temp_isr(), counter part. Returns whether set_current_temp_raw()
     * is called, which happens while the readings are ready.
     */
    method TempIsr(conversionDone: bool, adcw: nat) returns (publishRaw: bool)
      requires Valid() && adcw < ADC_RANGE
      modifies this, analogInputRead, adcCounter, analogInputValues
      ensures Valid()
      ensures State() == TempTick(channels, numAnalogInputs, old(State()), conversionDone, adcw)
      ensures publishRaw == analogIsReady
    {
      CountCycle();
      if conversionDone {
        Convert(adcw);
      }
      publishRaw := analogIsReady;
    }
  }
}
