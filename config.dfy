/**
 * Build configuration of an AVR MK4duo build (ATmega at 16 MHz) and the
 * machine-integer widths the stepper and HAL code compute in.
 *
 * The configuration macros live in headers that are not part of this model;
 * the values below are the usual AVR ones.
 */
module Config {

  /** CPU clock in Hz (F_CPU). */
  const F_CPU: nat := 16_000_000

  /** Highest step rate the converter accepts (MAX_STEP_FREQUENCY). */
  const MAX_STEP_FREQUENCY: nat := 40000

  /** Above this rate two or four pulses are emitted per interrupt (DOUBLE_STEP_FREQUENCY). */
  const DOUBLE_STEP_FREQUENCY: nat := 10000

  /** The lowest rate the speed tables cover: F_CPU / 500000 (written out as a literal). */
  const MIN_STEP_RATE: nat := 32

  /** Offsets at or above this value are looked up in the fast table (8 * 256). */
  const FAST_TABLE_START: nat := 2048

  /** The shortest timer period the converter hands out. */
  const MIN_TIMER: nat := 100

  /** Number of ADC conversions averaged per temperature reading (OVERSAMPLENR). */
  const OVERSAMPLENR: nat := 16

  /** ADC conversions are 10 bits wide: ADCW is below this. */
  const ADC_RANGE: nat := 1024

  /** Temperature-ISR calls per 100 ms cycle: F_CPU / 40960 (written out as a literal). */
  const CYCLES_PER_100MS: nat := 390

  /** The literals above are the quotients the source writes. */
  lemma DerivedConstants()
    ensures MIN_STEP_RATE == F_CPU / 500000 && CYCLES_PER_100MS == F_CPU / 40960
    ensures FAST_TABLE_START == 8 * 256
  {
  }

  const UINT8_RANGE: nat := 0x100

  /** A uint8_t / unsigned char. */
  type Byte = x: nat | x < UINT8_RANGE

  const UINT16_RANGE: nat := 0x1_0000
  const UINT32_RANGE: nat := 0x1_0000_0000

  /** Conversion of an integer to uint16_t (also AVR's 16-bit unsigned int). */
  function Wrap16(x: int): (r: nat)
    ensures r < UINT16_RANGE
    ensures (x - r) % UINT16_RANGE == 0
    ensures 0 <= x < UINT16_RANGE ==> r == x
  {
    x % UINT16_RANGE
  }

  /** Conversion of an integer to uint32_t. */
  function Wrap32(x: int): (r: nat)
    ensures r < UINT32_RANGE
    ensures (x - r) % UINT32_RANGE == 0
    ensures 0 <= x < UINT32_RANGE ==> r == x
  {
    x % UINT32_RANGE
  }
}
