/** The platform-independent timer layer. It forwards the clock reads and
    the delays to the platform, and measures elapsed time from one clock read. */
module TimerBase {
  import opened HalTypes

  /** The timer primitives a platform supplies (millis_impl, micros_impl,
      delay_ms_impl, delay_us_impl), acting on the platform's clock state `S`. */
  datatype TimerOps<!S> = TimerOps(
    millisImpl: S -> u32,
    microsImpl: S -> u64,
    delayMsImpl: (S, u32) -> S,
    delayUsImpl: (S, u32) -> S)

  /** millis(): the platform's millisecond counter, read once. */
  function Millis<S>(ops: TimerOps<S>, s: S): (r: u32)
    ensures r == ops.millisImpl(s)
  {
    ops.millisImpl(s)
  }

  /** micros(): the platform's microsecond counter, read once. */
  function Micros<S>(ops: TimerOps<S>, s: S): (r: u64)
    ensures r == ops.microsImpl(s)
  {
    ops.microsImpl(s)
  }

  /** delay_ms(ms): the platform's delay, given the same argument. */
  function DelayMs<S>(ops: TimerOps<S>, s: S, ms: u32): (s': S)
    ensures s' == ops.delayMsImpl(s, ms)
  {
    ops.delayMsImpl(s, ms)
  }

  /** delay_us(us): the platform's delay, given the same argument. */
  function DelayUs<S>(ops: TimerOps<S>, s: S, us: u32): (s': S)
    ensures s' == ops.delayUsImpl(s, us)
  {
    ops.delayUsImpl(s, us)
  }

  /** elapsed_ms(start): milliseconds since `startMs`, correct across one wrap of
      the 32-bit counter. Every intermediate of the wrapped branch stays within
      32 bits, so the unbounded arithmetic below is the uint32 arithmetic. */
  function ElapsedMs<S>(ops: TimerOps<S>, s: S, startMs: u32): (r: u32)
    ensures r == (Millis(ops, s) - startMs) % U32_MODULUS
    ensures Millis(ops, s) >= startMs ==> r == Millis(ops, s) - startMs
    ensures Millis(ops, s) == startMs ==> r == 0
  {
    var now := Millis(ops, s);
    if now >= startMs then now - startMs else 0xFFFF_FFFF - startMs + now + 1
  }

  /** elapsed_us(start): `micros() - start` as a uint64 difference. */
  function ElapsedUs<S>(ops: TimerOps<S>, s: S, startUs: u64): (r: u64)
    ensures r == (Micros(ops, s) - startUs) % U64_MODULUS
    ensures Micros(ops, s) >= startUs ==> r == Micros(ops, s) - startUs
  {
    var now := Micros(ops, s);
    if now >= startUs then now - startUs else now - startUs + U64_MODULUS
  }

  /** If the millisecond counter moved forward by `d` (modulo 2^32) between two
      states, elapsed_ms measured from the first reading is exactly `d`, whether or
      not the counter wrapped in between. */
  lemma ElapsedMsAfterAdvance<S>(ops: TimerOps<S>, s: S, s': S, d: u32)
    requires Millis(ops, s') == (Millis(ops, s) + d) % U32_MODULUS
    ensures ElapsedMs(ops, s', Millis(ops, s)) == d
  {
  }
}
