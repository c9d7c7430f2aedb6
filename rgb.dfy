/**
 * The RGB status lamp of Led_RGB/rgb.c: three PWM channels of timer TIM1
 * whose duty registers are set from 8-bit colour components.
 */
module Rgb {
  import opened Common

  /** `PWM_TARGET_HZ`, `PWM_ARR`, and the 168 MHz timer clock `RGB_Init` assumes. */
  const PWM_TARGET_HZ: nat := 1000
  const PWM_ARR: nat := 999
  const TIMER_CLOCK_HZ: nat := 168000000

  const U16_MODULUS: nat := 0x1_0000

  /**
   * `scale8_to_arr`: maps a component 0..255 onto 0..PWM_ARR, rounding to
   * nearest. The 32-bit intermediate `v * 999 + 127` never exceeds 254872,
   * so neither it nor the 16-bit result wraps.
   */
  function Scale8ToArr(v: nat): (r: nat)
    requires v < 256
    ensures r <= PWM_ARR
    ensures v * PWM_ARR < 255 * r + 128 && 255 * r <= v * PWM_ARR + 127
  {
    (v * PWM_ARR + 127) / 255
  }

  /** Black and full intensity are preserved. */
  lemma Scale8Endpoints()
    ensures Scale8ToArr(0) == 0
    ensures Scale8ToArr(255) == PWM_ARR
  {
  }

  /** A brighter component never gets a shorter duty cycle. */
  lemma Scale8Monotone(v: nat, w: nat)
    requires v <= w < 256
    ensures Scale8ToArr(v) <= Scale8ToArr(w)
  {
    var rv, rw := Scale8ToArr(v), Scale8ToArr(w);
    assert 255 * rv <= v * PWM_ARR + 127 <= w * PWM_ARR + 127 < 255 * rw + 255;
  }

  /**
   * `compute_psc`: the prescaler for a PWM period of `arr + 1` timer ticks
   * at `fpwm` Hz, with every `uint32_t` operation wrapping as in C: the
   * denominator is forced to at least 1, the ceiling quotient to at least 1,
   * and the result is truncated to `uint16_t`.
   */
  function ComputePsc(timclk: U32, fpwm: U32, arr: U32): (psc: nat)
    ensures psc < U16_MODULUS
  {
    var denom0 := (fpwm * ((arr + 1) % U32_MODULUS)) % U32_MODULUS;
    var denom := if denom0 == 0 then 1 else denom0;
    var q0 := ((timclk + denom - 1) % U32_MODULUS) / denom;
    var q := if q0 == 0 then 1 else q0;
    (q - 1) % U16_MODULUS
  }

  /**
   * When nothing wraps, `compute_psc` returns one less than the ceiling of
   * `timclk / (fpwm * (arr + 1))`: `psc + 1` PWM periods-worth of ticks cover
   * `timclk` and `psc` do not.
   */
  lemma ComputePscIsCeiling(timclk: U32, fpwm: U32, arr: U32)
    requires 1 <= timclk
    requires 1 <= fpwm * (arr + 1) < U32_MODULUS
    requires timclk + fpwm * (arr + 1) - 1 < U32_MODULUS
    requires timclk <= U16_MODULUS * (fpwm * (arr + 1))
    ensures ComputePsc(timclk, fpwm, arr) * (fpwm * (arr + 1)) < timclk
    ensures timclk <= (ComputePsc(timclk, fpwm, arr) + 1) * (fpwm * (arr + 1))
  {
    var d := fpwm * (arr + 1);
    FactorAtMostProduct(fpwm, arr + 1);
    assert (arr + 1) % U32_MODULUS == arr + 1;
    assert (fpwm * (arr + 1)) % U32_MODULUS == d;
    var q := (timclk + d - 1) / d;
    CeilingDivision(timclk, d, q);
    assert (timclk + d - 1) % U32_MODULUS == timclk + d - 1;
    assert ComputePsc(timclk, fpwm, arr) == (q - 1) % U16_MODULUS;
  }

  /** A factor of a positive product of naturals is at most the product. */
  lemma FactorAtMostProduct(a: nat, b: nat)
    requires a * b >= 1
    ensures b <= a * b
  {
    if a >= 1 {
      assert a * b == (a - 1) * b + b;
    }
  }

  /** `(a + d - 1) / d` is the ceiling of `a / d`; for `1 <= a <= 2^16 * d` it lies in 1..2^16. */
  lemma CeilingDivision(a: nat, d: nat, q: nat)
    requires 1 <= a && 1 <= d
    requires a <= U16_MODULUS * d
    requires q == (a + d - 1) / d
    ensures (q - 1) * d < a <= q * d
    ensures 1 <= q <= U16_MODULUS
  {
    var r := (a + d - 1) % d;
    assert a + d - 1 == q * d + r && 0 <= r < d;
    assert q * d <= a + d - 1 < q * d + d;
    assert q * d < (U16_MODULUS + 1) * d;
  }

  /** The prescaler `RGB_Init` programs: 168 MHz / (1 kHz * 1000 ticks) gives 167. */
  lemma PrescalerAtInit()
    ensures ComputePsc(TIMER_CLOCK_HZ, PWM_TARGET_HZ, PWM_ARR) == 167
  {
    var denom := PWM_TARGET_HZ * (PWM_ARR + 1);
    assert denom == 1000000;
    assert (TIMER_CLOCK_HZ + denom - 1) / denom == 168;
  }

  /** The colours the main loop shows. */
  datatype Colour = Red | Green | Blue

  /** The 8-bit components the main loop passes to `RGB_SetColor` for each colour. */
  function Components(c: Colour): (rgb: (nat, nat, nat))
    ensures rgb.0 < 256 && rgb.1 < 256 && rgb.2 < 256
  {
    match c
    case Red => (255, 0, 0)
    case Green => (0, 255, 0)
    case Blue => (0, 0, 255)
  }

  /** Each of the three colours lights exactly one channel, fully. */
  lemma ColourLightsOneChannel(c: Colour)
    ensures var (r, g, b) := Components(c);
      (Scale8ToArr(r) == PWM_ARR <==> c == Red) &&
      (Scale8ToArr(g) == PWM_ARR <==> c == Green) &&
      (Scale8ToArr(b) == PWM_ARR <==> c == Blue) &&
      (Scale8ToArr(r) == 0 <==> c != Red) &&
      (Scale8ToArr(g) == 0 <==> c != Green) &&
      (Scale8ToArr(b) == 0 <==> c != Blue)
  {
    Scale8Endpoints();
  }

  /** Timer TIM1 as the lamp uses it: prescaler, auto-reload and the three compare registers. */
  class Tim1 {
    var psc: nat
    var arr: nat
    var ccr1: nat
    var ccr2: nat
    var ccr3: nat

    /** The register values `RGB_Init` programs: the computed prescaler, `PWM_ARR`, all channels dark. */
    constructor Init()
      ensures psc == ComputePsc(TIMER_CLOCK_HZ, PWM_TARGET_HZ, PWM_ARR) && psc == 167
      ensures arr == PWM_ARR
      ensures ccr1 == 0 && ccr2 == 0 && ccr3 == 0
    {
      PrescalerAtInit();
      psc := ComputePsc(TIMER_CLOCK_HZ, PWM_TARGET_HZ, PWM_ARR);
      arr := PWM_ARR;
      ccr1, ccr2, ccr3 := 0, 0, 0;
    }

    /** `RGB_SetColor`: the red, green and blue components go to CCR1, CCR2 and CCR3, and nothing else changes. */
    method SetColor(r: nat, g: nat, b: nat)
      requires r < 256 && g < 256 && b < 256
      modifies this
      ensures ccr1 == Scale8ToArr(r) && ccr2 == Scale8ToArr(g) && ccr3 == Scale8ToArr(b)
      ensures psc == old(psc) && arr == old(arr)
    {
      ccr1 := Scale8ToArr(r);
      ccr2 := Scale8ToArr(g);
      ccr3 := Scale8ToArr(b);
    }
  }
}
