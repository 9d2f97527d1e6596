/** The board's millisecond clock: `millis()` returns an `unsigned long`, which on
    the AVR target is 32 bits wide, so every difference of two clock readings is
    taken modulo 2^32. */
module Millis {

  const Modulus: int := 0x1_0000_0000

  /** A value of the 32-bit unsigned clock. */
  newtype u32 = x: int | 0 <= x < 0x1_0000_0000

  /** Length of one blink phase of the panic indicator, in milliseconds. */
  const BlinkPeriod: u32 := 450

  /** `now - last` computed as C computes it on unsigned operands: modulo 2^32.
      The result is the time that has passed since `last`, also when the clock
      wrapped around zero in between. */
  function Elapsed(now: u32, last: u32): (e: u32)
    ensures now >= last ==> e == now - last
    ensures now < last ==> e as int == Modulus - last as int + now as int
    ensures (last as int + e as int) % Modulus == now as int
  {
    ((now as int - last as int) % Modulus) as u32
  }
}
