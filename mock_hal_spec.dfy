/** The records of the mock HAL used by the unit tests, and what each of its
    operations does to one pin's or one port's record once the pin or port
    number has passed its range check. The class in module MockHal applies
    these to its tables in place. */
module MockHalSpec {
  import opened HalTypes
  import opened Wrappers
  import TimerBase

  const MAX_GPIO_PINS: int := 32
  const MAX_UART_PORTS: int := 4
  const UART_BUFFER_SIZE: int := 256

  /* The v4_err outcomes the mock reports. */
  const OK: int := 0
  const INVALID_ARG: int := -1
  const NOT_INITIALIZED: int := -2
  const TIMEOUT: int := -3
  const BUSY: int := -4
  const OUT_OF_BOUNDS: int := -13

  function Min(a: int, b: int): int {
    if a < b then a else b
  }

  /* ---------------------------------------------------------------------- */
  /* GPIO                                                                   */
  /* ---------------------------------------------------------------------- */

  /** v4_hal_gpio_mode (INPUT = 0, OUTPUT = 1, INPUT_PULLUP = 2,
      INPUT_PULLDOWN = 3). */
  datatype Mode = ModeInput | ModeOutput | ModeInputPullup | ModeInputPulldown

  /** MockGpioState. The stored level is 0 or 1 (GpioValid). */
  datatype GpioState = GpioState(initialized: bool, mode: Mode, value: int)

  predicate GpioValid(g: GpioState) {
    g.value == 0 || g.value == 1
  }

  /** A pin record as memset leaves it: not initialized, INPUT, level 0. */
  const ZeroGpio: GpioState := GpioState(false, ModeInput, 0)

  /** v4_hal_gpio_init on a pin in range: initialized, in the given mode, at
      level 0, whatever the record held before. */
  function GpioInit(mode: Mode): (g: GpioState)
    ensures GpioValid(g) && g.initialized && g.mode == mode && g.value == 0
  {
    GpioState(true, mode, 0)
  }

  /** v4_hal_gpio_write on a pin in range. The checks come in this order: not
      initialized, then not an OUTPUT pin; either leaves the record as it was.
      A write that passes stores 1 for any non-zero value and 0 for zero. */
  function GpioWrite(g: GpioState, value: int): (r: (GpioState, int))
    ensures r.1 == OK <==> g.initialized && g.mode == ModeOutput
    ensures !g.initialized ==> r.1 == NOT_INITIALIZED
    ensures g.initialized && g.mode != ModeOutput ==> r.1 == INVALID_ARG
    ensures r.1 != OK ==> r.0 == g
    ensures r.1 == OK ==> r.0.initialized && r.0.mode == g.mode && (r.0.value == 1 <==> value != 0)
    ensures GpioValid(g) ==> GpioValid(r.0)
  {
    if !g.initialized then (g, NOT_INITIALIZED)
    else if g.mode != ModeOutput then (g, INVALID_ARG)
    else (g.(value := if value != 0 then 1 else 0), OK)
  }

  /** v4_hal_gpio_read on a pin in range: not initialized, then a null output
      pointer (`outIsNull`), are refused; otherwise the stored level is written
      through the pointer. The record never changes. `None`: nothing was
      written through the pointer. */
  function GpioRead(g: GpioState, outIsNull: bool): (r: (int, Option<int>))
    ensures r.0 == OK <==> g.initialized && !outIsNull
    ensures !g.initialized ==> r == (NOT_INITIALIZED, None)
    ensures g.initialized && outIsNull ==> r == (INVALID_ARG, None)
    ensures r.0 == OK ==> r.1 == Some(g.value)
  {
    if !g.initialized then (NOT_INITIALIZED, None)
    else if outIsNull then (INVALID_ARG, None)
    else (OK, Some(g.value))
  }

  /** A pin initialized as OUTPUT reads back, after a write, 1 for a non-zero
      value and 0 for zero; a pin initialized in any other mode refuses the
      write and still reads 0. */
  lemma InitWriteRead(mode: Mode, value: int)
    ensures var (g, r) := GpioWrite(GpioInit(mode), value);
            && (mode == ModeOutput ==> r == OK && GpioRead(g, false) == (OK, Some(if value != 0 then 1 else 0)))
            && (mode != ModeOutput ==> r == INVALID_ARG && GpioRead(g, false) == (OK, Some(0)))
  {
  }

  /* ---------------------------------------------------------------------- */
  /* UART                                                                   */
  /* ---------------------------------------------------------------------- */

  /** MockUartState: the two 256-byte buffers with their fill counts and the
      read cursor of the RX buffer. */
  datatype UartState = UartState(
    initialized: bool,
    baudrate: int,
    txBuffer: seq<char>,
    txCount: int,
    rxBuffer: seq<char>,
    rxCount: int,
    rxPos: int)

  /** What every operation keeps: full-size buffers, counts within them and the
      cursor between 0 and the RX count. */
  predicate UartValid(u: UartState) {
    && |u.txBuffer| == UART_BUFFER_SIZE && |u.rxBuffer| == UART_BUFFER_SIZE
    && 0 <= u.txCount <= UART_BUFFER_SIZE
    && 0 <= u.rxPos <= u.rxCount <= UART_BUFFER_SIZE
  }

  /** The bytes sent so far, in order. */
  function Sent(u: UartState): seq<char>
    requires UartValid(u)
  {
    u.txBuffer[..u.txCount]
  }

  /** The injected bytes not yet read, in order. */
  function Pending(u: UartState): seq<char>
    requires UartValid(u)
  {
    u.rxBuffer[u.rxPos..u.rxCount]
  }

  /** A port record as memset leaves it. */
  const ZeroUart: UartState :=
    UartState(false, 0, seq(UART_BUFFER_SIZE, _ => '\0'), 0, seq(UART_BUFFER_SIZE, _ => '\0'), 0, 0)

  /** v4_hal_uart_init on a port in range: a baud rate of 0 or less is refused
      and changes nothing; otherwise the port is initialized at that rate with
      nothing sent and nothing pending. The buffers' bytes are not cleared. */
  function UartInit(u: UartState, baudrate: int): (r: (UartState, int))
    requires UartValid(u)
    ensures UartValid(r.0)
    ensures r.1 == OK <==> baudrate > 0
    ensures r.1 != OK ==> r == (u, INVALID_ARG)
    ensures r.1 == OK ==> r.0.initialized && r.0.baudrate == baudrate && Sent(r.0) == [] && Pending(r.0) == []
    ensures r.0.txBuffer == u.txBuffer && r.0.rxBuffer == u.rxBuffer
  {
    if baudrate <= 0 then (u, INVALID_ARG)
    else (u.(initialized := true, baudrate := baudrate, txCount := 0, rxCount := 0, rxPos := 0), OK)
  }

  /** mock_hal_uart_inject_rx on a port in range: the first min(len, 256) bytes
      of `data` become the pending bytes, read from the start, whether or not
      the port is initialized. */
  function InjectRx(u: UartState, data: seq<char>, len: int): (r: UartState)
    requires UartValid(u)
    requires 0 <= len && Min(len, UART_BUFFER_SIZE) <= |data|
    ensures UartValid(r)
    ensures Pending(r) == data[..Min(len, UART_BUFFER_SIZE)]
    ensures r.initialized == u.initialized && r.baudrate == u.baudrate
    ensures r.txBuffer == u.txBuffer && r.txCount == u.txCount
  {
    var n := Min(len, UART_BUFFER_SIZE);
    u.(rxBuffer := data[..n] + u.rxBuffer[n..], rxCount := n, rxPos := 0)
  }

  /** v4_hal_uart_putc on a port in range: refused when the port is not
      initialized, BUSY once 256 bytes have been sent; otherwise `c` is
      appended to the sent bytes. A refused call changes nothing. */
  function Putc(u: UartState, c: char): (r: (UartState, int))
    requires UartValid(u)
    ensures UartValid(r.0)
    ensures !u.initialized ==> r == (u, NOT_INITIALIZED)
    ensures u.initialized ==> (r.1 == BUSY <==> u.txCount >= UART_BUFFER_SIZE)
    ensures r.1 != OK ==> r.0 == u
    ensures r.1 == OK ==> Sent(r.0) == Sent(u) + [c] && r.0.(txBuffer := u.txBuffer, txCount := u.txCount) == u
  {
    if !u.initialized then (u, NOT_INITIALIZED)
    else if u.txCount >= UART_BUFFER_SIZE then (u, BUSY)
    else
      var u' := u.(txBuffer := u.txBuffer[u.txCount := c], txCount := u.txCount + 1);
      assert Sent(u') == Sent(u) + [c];
      (u', OK)
  }

  /** v4_hal_uart_getc on a port in range: refused when the port is not
      initialized or the output pointer is null, TIMEOUT when nothing is
      pending; otherwise it yields the oldest pending byte and consumes it.
      `None`: nothing was written through the pointer. */
  function Getc(u: UartState, outIsNull: bool): (r: (UartState, int, Option<char>))
    requires UartValid(u)
    ensures UartValid(r.0)
    ensures !u.initialized ==> r == (u, NOT_INITIALIZED, None)
    ensures u.initialized && outIsNull ==> r == (u, INVALID_ARG, None)
    ensures u.initialized && !outIsNull && Pending(u) == [] ==> r == (u, TIMEOUT, None)
    ensures r.1 == OK <==> u.initialized && !outIsNull && Pending(u) != []
    ensures r.1 == OK ==> r.2 == Some(Pending(u)[0]) && Pending(r.0) == Pending(u)[1..]
    ensures r.1 == OK ==> r.0 == u.(rxPos := r.0.rxPos)
  {
    if !u.initialized then (u, NOT_INITIALIZED, None)
    else if outIsNull then (u, INVALID_ARG, None)
    else if u.rxPos >= u.rxCount then (u, TIMEOUT, None)
    else (u.(rxPos := u.rxPos + 1), OK, Some(u.rxBuffer[u.rxPos]))
  }

  /** The TX buffer once the first `n` bytes of `data` have been appended. */
  function Appended(u: UartState, data: seq<char>, n: int): (r: UartState)
    requires UartValid(u)
    requires 0 <= n <= |data| && u.txCount + n <= UART_BUFFER_SIZE
    ensures UartValid(r) && Sent(r) == Sent(u) + data[..n]
    ensures r.(txBuffer := u.txBuffer, txCount := u.txCount) == u
  {
    var r := u.(txBuffer := u.txBuffer[..u.txCount] + data[..n] + u.txBuffer[u.txCount + n..],
                txCount := u.txCount + n);
    assert Sent(r) == Sent(u) + data[..n];
    r
  }

  /** Appending no bytes leaves the record as it was. */
  lemma AppendedNothing(u: UartState, data: seq<char>)
    requires UartValid(u)
    ensures Appended(u, data, 0) == u
  {
    assert u.txBuffer[..u.txCount] + data[..0] + u.txBuffer[u.txCount..] == u.txBuffer;
  }

  /** Storing byte `i` of `data` at the TX count and counting it, as one turn
      of the append loop does, extends the appended prefix by that byte. */
  lemma AppendedStep(u: UartState, data: seq<char>, i: int)
    requires UartValid(u)
    requires 0 <= i < |data| && u.txCount + i < UART_BUFFER_SIZE
    ensures var a := Appended(u, data, i);
            a.(txBuffer := a.txBuffer[a.txCount := data[i]], txCount := a.txCount + 1) == Appended(u, data, i + 1)
  {
    var t, c0 := u.txBuffer, u.txCount;
    assert data[..i + 1] == data[..i] + [data[i]];
    assert (t[..c0] + data[..i] + t[c0 + i..])[c0 + i := data[i]] == t[..c0] + data[..i + 1] + t[c0 + i + 1..];
  }

  /** v4_hal_uart_write on a port in range: refused when the port is not
      initialized, then when the buffer is null or `len` is negative. Otherwise
      the first `len` bytes are appended one at a time until the TX buffer is
      full: the call succeeds when all of them fit, and is BUSY otherwise,
      keeping the bytes appended before the buffer filled. */
  function UartWrite(u: UartState, buf: Option<seq<char>>, len: int): (r: (UartState, int))
    requires UartValid(u)
    requires buf.Some? && len >= 0 ==> len <= |buf.value|
    ensures UartValid(r.0)
    ensures !u.initialized ==> r == (u, NOT_INITIALIZED)
    ensures u.initialized && (buf.None? || len < 0) ==> r == (u, INVALID_ARG)
    ensures u.initialized && buf.Some? && len >= 0 ==>
              && (r.1 == OK <==> u.txCount + len <= UART_BUFFER_SIZE)
              && (r.1 != OK ==> r.1 == BUSY)
              && Sent(r.0) == Sent(u) + buf.value[..Min(len, UART_BUFFER_SIZE - u.txCount)]
              && r.0.(txBuffer := u.txBuffer, txCount := u.txCount) == u
  {
    if !u.initialized then (u, NOT_INITIALIZED)
    else if buf.None? || len < 0 then (u, INVALID_ARG)
    else
      var n := Min(len, UART_BUFFER_SIZE - u.txCount);
      (Appended(u, buf.value, n), if n == len then OK else BUSY)
  }

  /** v4_hal_uart_read on a port in range: refused when the port is not
      initialized, then when the buffer or the length pointer is null or
      `maxLen` is negative. Otherwise it copies the oldest min(pending,
      maxLen) pending bytes (possibly none, which is not an error), consumes
      them, and reports their number through the length pointer (`r.3`). */
  function UartRead(u: UartState, bufIsNull: bool, outLenIsNull: bool, maxLen: int)
    : (r: (UartState, int, seq<char>, Option<int>))
    requires UartValid(u)
    ensures UartValid(r.0)
    ensures !u.initialized ==> r == (u, NOT_INITIALIZED, [], None)
    ensures u.initialized && (bufIsNull || outLenIsNull || maxLen < 0) ==> r == (u, INVALID_ARG, [], None)
    ensures r.1 == OK <==> u.initialized && !bufIsNull && !outLenIsNull && maxLen >= 0
    ensures r.1 == OK ==>
              && |r.2| == Min(|Pending(u)|, maxLen)
              && Pending(u) == r.2 + Pending(r.0)
              && r.3 == Some(|r.2|)
              && r.0 == u.(rxPos := r.0.rxPos)
  {
    if !u.initialized then (u, NOT_INITIALIZED, [], None)
    else if bufIsNull || outLenIsNull || maxLen < 0 then (u, INVALID_ARG, [], None)
    else
      var n := Min(u.rxCount - u.rxPos, maxLen);
      var u' := u.(rxPos := u.rxPos + n);
      assert Pending(u) == u.rxBuffer[u.rxPos..u.rxPos + n] + Pending(u');
      (u', OK, u.rxBuffer[u.rxPos..u.rxPos + n], Some(n))
  }

  /* Independent definitions: a write as repeated putc, a read as repeated
     getc. */

  /** putc for each byte of `data` in turn, stopping at the first refusal. */
  function PutcEach(u: UartState, data: seq<char>): (r: (UartState, int))
    requires UartValid(u)
    ensures UartValid(r.0)
    decreases |data|
  {
    if data == [] then (u, OK)
    else
      var (u1, r1) := Putc(u, data[0]);
      if r1 != OK then (u1, r1) else PutcEach(u1, data[1..])
  }

  /** getc up to `n` times, stopping at the first refusal; the bytes obtained. */
  function GetcEach(u: UartState, n: nat): (r: (UartState, int, seq<char>))
    requires UartValid(u)
    ensures UartValid(r.0)
    decreases n
  {
    if n == 0 then (u, OK, [])
    else
      var (u1, r1, c) := Getc(u, false);
      if r1 != OK then (u1, r1, [])
      else
        var (u2, r2, cs) := GetcEach(u1, n - 1);
        (u2, r2, [c.value] + cs)
  }

  /** Writing `data` to an initialized port leaves it exactly as putc of each
      byte in turn does, outcome included: BUSY at the first byte that does not
      fit, with every byte before it kept. */
  lemma {:induction false} WriteIsRepeatedPutc(u: UartState, data: seq<char>)
    requires UartValid(u) && u.initialized
    ensures UartWrite(u, Some(data), |data|) == PutcEach(u, data)
    decreases |data|
  {
    AppendedNothing(u, data);
    if data != [] {
      if u.txCount < UART_BUFFER_SIZE {
        var u1 := Putc(u, data[0]).0;
        WriteIsRepeatedPutc(u1, data[1..]);
        var t, c0 := u.txBuffer, u.txCount;
        var n := Min(|data|, UART_BUFFER_SIZE - c0);
        assert u1.txBuffer[..c0 + 1] == t[..c0] + [data[0]];
        assert u1.txBuffer[c0 + n..] == t[c0 + n..];
        assert data[1..][..n - 1] == data[1..n];
        assert data[..n] == [data[0]] + data[1..n];
        calc {
          u1.txBuffer[..c0 + 1] + data[1..][..n - 1] + u1.txBuffer[c0 + 1 + (n - 1)..];
          t[..c0] + [data[0]] + data[1..n] + t[c0 + n..];
          t[..c0] + data[..n] + t[c0 + n..];
        }
      }
    }
  }

  /** Reading up to `n` bytes from an initialized port yields, and consumes,
      the same bytes as getc repeated until it times out or has delivered `n`:
      the RX side is a FIFO. A read that finds nothing pending succeeds with
      no bytes, where getc reports TIMEOUT. */
  lemma {:induction false} ReadIsRepeatedGetc(u: UartState, n: nat)
    requires UartValid(u) && u.initialized
    ensures var (u1, r1, bytes, _) := UartRead(u, false, false, n);
            var (u2, r2, cs) := GetcEach(u, n);
            && r1 == OK && u1 == u2 && bytes == cs
            && (r2 == OK <==> n <= |Pending(u)|)
            && (r2 != OK ==> r2 == TIMEOUT)
    decreases n
  {
    if n > 0 && u.rxPos < u.rxCount {
      var c := u.rxBuffer[u.rxPos];
      var u1 := u.(rxPos := u.rxPos + 1);
      assert Getc(u, false) == (u1, OK, Some(c));
      ReadIsRepeatedGetc(u1, n - 1);
      var rest := GetcEach(u1, n - 1);
      assert GetcEach(u, n) == (rest.0, rest.1, [c] + rest.2);
      var k := Min(u.rxCount - u.rxPos, n);
      assert u.rxBuffer[u.rxPos..u.rxPos + k] == [c] + u1.rxBuffer[u1.rxPos..u1.rxPos + (k - 1)];
      assert UartRead(u, false, false, n).0 == UartRead(u1, false, false, n - 1).0;
    }
  }

  /** What is written to a freshly initialized port is what the test harness
      reads back from the TX buffer, as long as it fits. */
  lemma InitWriteSent(u: UartState, baudrate: int, data: seq<char>)
    requires UartValid(u) && baudrate > 0 && |data| <= UART_BUFFER_SIZE
    ensures var (u1, _) := UartInit(u, baudrate);
            var (u2, r) := UartWrite(u1, Some(data), |data|);
            r == OK && Sent(u2) == data
  {
  }

  /** Injected bytes come back, all of them and in order, from one read of
      at least their length, after which nothing is pending and a further read
      succeeds with no bytes. */
  lemma InjectThenRead(u: UartState, data: seq<char>, maxLen: int)
    requires UartValid(u) && u.initialized
    requires |data| <= UART_BUFFER_SIZE && maxLen >= |data|
    ensures var (u1, r1, bytes, _) := UartRead(InjectRx(u, data, |data|), false, false, maxLen);
            && r1 == OK && bytes == data && Pending(u1) == []
            && UartRead(u1, false, false, maxLen).1 == OK
            && UartRead(u1, false, false, maxLen).2 == []
  {
  }

  /* ---------------------------------------------------------------------- */
  /* Clock                                                                  */
  /* ---------------------------------------------------------------------- */

  /** mock_millis_counter (uint32_t) and mock_micros_counter (uint64_t). */
  datatype Clock = Clock(millis: u32, micros: u64)

  /** v4_hal_delay_ms: both counters advance by the delay, each wrapping at its
      own width. */
  function DelayMs(c: Clock, ms: u32): (c': Clock)
    ensures c'.millis == (c.millis + ms) % U32_MODULUS
    ensures c'.micros == (c.micros + ms * 1000) % U64_MODULUS
  {
    Clock((c.millis + ms) % U32_MODULUS, (c.micros + ms * 1000) % U64_MODULUS)
  }

  /** v4_hal_delay_us: the microsecond counter advances by the delay, the
      millisecond counter by its whole milliseconds. */
  function DelayUs(c: Clock, us: u32): (c': Clock)
    ensures c'.micros == (c.micros + us) % U64_MODULUS
    ensures c'.millis == (c.millis + us / 1000) % U32_MODULUS
  {
    Clock((c.millis + us / 1000) % U32_MODULUS, (c.micros + us) % U64_MODULUS)
  }

  /** The mock as the timer layer's platform. */
  const MockTimerOps: TimerBase.TimerOps<Clock> :=
    TimerBase.TimerOps((c: Clock) => c.millis, (c: Clock) => c.micros, DelayMs, DelayUs)

  /** Through the timer layer, elapsed_ms measured across a delay_ms of `ms` on
      the mock is exactly `ms`, also when the millisecond counter wraps, and
      elapsed_us is `ms` thousand microseconds. */
  lemma DelayMsElapsed(c: Clock, ms: u32)
    ensures var c' := TimerBase.DelayMs(MockTimerOps, c, ms);
            && TimerBase.ElapsedMs(MockTimerOps, c', c.millis) == ms
            && TimerBase.ElapsedUs(MockTimerOps, c', c.micros) == ms * 1000
  {
    var c' := TimerBase.DelayMs(MockTimerOps, c, ms);
    TimerBase.ElapsedMsAfterAdvance(MockTimerOps, c, c', ms);
  }

  /** Through the timer layer, elapsed_us across a delay_us of `us` is exactly
      `us`, and elapsed_ms is its whole milliseconds. */
  lemma DelayUsElapsed(c: Clock, us: u32)
    ensures var c' := TimerBase.DelayUs(MockTimerOps, c, us);
            && TimerBase.ElapsedUs(MockTimerOps, c', c.micros) == us
            && TimerBase.ElapsedMs(MockTimerOps, c', c.millis) == us / 1000
  {
    var c' := TimerBase.DelayUs(MockTimerOps, c, us);
    TimerBase.ElapsedMsAfterAdvance(MockTimerOps, c, c', us / 1000);
  }
}
