/** The mock HAL of the unit tests: static tables of 32 pin records and 4 port
    records and a pair of clock counters, changed in place by the v4_hal_*
    entry points and inspected and driven by the mock_hal_* test controls.
    Every entry point checks the pin or port number first (OUT_OF_BOUNDS) and
    then does to that one record what module MockHalSpec says. */
module MockHal {
  import opened HalTypes
  import opened Wrappers
  import opened MockHalSpec

  class Hal {
    /** mock_gpio[] */
    const gpio: array<GpioState>
    /** mock_uart[] */
    const uart: array<UartState>
    /** mock_millis_counter */
    var millisCounter: u32
    /** mock_micros_counter */
    var microsCounter: u64

    ghost predicate Valid()
      reads this, gpio, uart
    {
      && gpio.Length == MAX_GPIO_PINS && uart.Length == MAX_UART_PORTS
      && (forall i | 0 <= i < gpio.Length :: GpioValid(gpio[i]))
      && (forall i | 0 <= i < uart.Length :: UartValid(uart[i]))
    }

    /** The two counters. */
    function Time(): Clock
      reads this
    {
      Clock(millisCounter, microsCounter)
    }

    /** Every record and both counters as memset and zeroing leave them. */
    ghost predicate IsZero()
      reads this, gpio, uart
    {
      && (forall i | 0 <= i < gpio.Length :: gpio[i] == ZeroGpio)
      && (forall i | 0 <= i < uart.Length :: uart[i] == ZeroUart)
      && Time() == Clock(0, 0)
    }

    /** The static storage, zero before the first call. */
    constructor ()
      ensures Valid() && IsZero() && fresh(gpio) && fresh(uart)
    {
      gpio := new GpioState[MAX_GPIO_PINS](_ => ZeroGpio);
      uart := new UartState[MAX_UART_PORTS](_ => ZeroUart);
      millisCounter, microsCounter := 0, 0;
    }

    /** mock_hal_reset: zeroes both tables and both counters. */
    method Reset()
      requires Valid()
      modifies this, gpio, uart
      ensures Valid() && IsZero()
    {
      forall i | 0 <= i < gpio.Length {
        gpio[i] := ZeroGpio;
      }
      forall i | 0 <= i < uart.Length {
        uart[i] := ZeroUart;
      }
      millisCounter, microsCounter := 0, 0;
    }

    /** v4_hal_system_reset: the mock's reset. */
    method SystemReset()
      requires Valid()
      modifies this, gpio, uart
      ensures Valid() && IsZero()
    {
      Reset();
    }

    /** mock_hal_set_millis */
    method SetMillis(ms: u32)
      modifies this
      ensures Time() == Clock(ms, old(microsCounter))
    {
      millisCounter := ms;
    }

    /** mock_hal_set_micros */
    method SetMicros(us: u64)
      modifies this
      ensures Time() == Clock(old(millisCounter), us)
    {
      microsCounter := us;
    }

    /** mock_hal_uart_inject_rx: an unknown port is ignored; otherwise the
        port's pending bytes become the first min(len, 256) bytes of `data`. */
    method InjectRx(port: int, data: seq<char>, len: int)
      requires Valid()
      requires 0 <= port < MAX_UART_PORTS ==> 0 <= len && Min(len, UART_BUFFER_SIZE) <= |data|
      modifies uart
      ensures Valid()
      ensures !(0 <= port < MAX_UART_PORTS) ==> uart[..] == old(uart[..])
      ensures 0 <= port < MAX_UART_PORTS ==> uart[..] == old(uart[..])[port := MockHalSpec.InjectRx(old(uart[port]), data, len)]
    {
      if port < 0 || port >= MAX_UART_PORTS {
        return;
      }
      var n := len;
      if n > UART_BUFFER_SIZE {
        n := UART_BUFFER_SIZE;
      }
      var u := uart[port];
      uart[port] := u.(rxBuffer := data[..n] + u.rxBuffer[n..], rxCount := n, rxPos := 0);
    }

    /** mock_hal_uart_get_tx: null for an unknown port; otherwise the port's
        whole TX buffer, whose first `tx_count` bytes are the bytes sent, and
        that count through `out_len` unless it is null. */
    method GetTx(port: int, outLenIsNull: bool) returns (tx: Option<seq<char>>, outLen: Option<int>)
      requires Valid()
      ensures tx.Some? <==> 0 <= port < MAX_UART_PORTS
      ensures tx.Some? ==> tx.value == uart[port].txBuffer && tx.value[..uart[port].txCount] == Sent(uart[port])
      ensures outLen.Some? <==> tx.Some? && !outLenIsNull
      ensures outLen.Some? ==> outLen.value == |Sent(uart[port])|
    {
      if port < 0 || port >= MAX_UART_PORTS {
        return None, None;
      }
      if !outLenIsNull {
        outLen := Some(uart[port].txCount);
      } else {
        outLen := None;
      }
      tx := Some(uart[port].txBuffer);
    }

    /** mock_hal_gpio_get_value: the pin's stored level, or -1 for an unknown
        pin. */
    method GpioGetValue(pin: int) returns (v: int)
      requires Valid()
      ensures !(0 <= pin < MAX_GPIO_PINS) ==> v == -1
      ensures 0 <= pin < MAX_GPIO_PINS ==> v == gpio[pin].value && (v == 0 || v == 1)
    {
      if pin < 0 || pin >= MAX_GPIO_PINS {
        return -1;
      }
      v := gpio[pin].value;
    }

    /** mock_hal_gpio_get_mode: the pin's stored mode, or INPUT for an unknown
        pin. */
    method GpioGetMode(pin: int) returns (m: Mode)
      requires Valid()
      ensures !(0 <= pin < MAX_GPIO_PINS) ==> m == ModeInput
      ensures 0 <= pin < MAX_GPIO_PINS ==> m == gpio[pin].mode
    {
      if pin < 0 || pin >= MAX_GPIO_PINS {
        return ModeInput;
      }
      m := gpio[pin].mode;
    }

    /** v4_hal_gpio_init: OUT_OF_BOUNDS for an unknown pin, with no change;
        otherwise that pin alone is initialized in `mode` at level 0. */
    method GpioInit(pin: int, mode: Mode) returns (r: int)
      requires Valid()
      modifies gpio
      ensures Valid()
      ensures !(0 <= pin < MAX_GPIO_PINS) ==> r == OUT_OF_BOUNDS && gpio[..] == old(gpio[..])
      ensures 0 <= pin < MAX_GPIO_PINS ==> r == OK && gpio[..] == old(gpio[..])[pin := MockHalSpec.GpioInit(mode)]
    {
      if pin < 0 || pin >= MAX_GPIO_PINS {
        return OUT_OF_BOUNDS;
      }
      gpio[pin] := GpioState(true, mode, 0);
      r := OK;
    }

    /** v4_hal_gpio_write: OUT_OF_BOUNDS for an unknown pin, then the pin's own
        checks; no other pin changes. */
    method GpioWrite(pin: int, value: int) returns (r: int)
      requires Valid()
      modifies gpio
      ensures Valid()
      ensures !(0 <= pin < MAX_GPIO_PINS) ==> r == OUT_OF_BOUNDS && gpio[..] == old(gpio[..])
      ensures 0 <= pin < MAX_GPIO_PINS ==>
                && (gpio[pin], r) == MockHalSpec.GpioWrite(old(gpio[pin]), value)
                && gpio[..] == old(gpio[..])[pin := gpio[pin]]
    {
      if pin < 0 || pin >= MAX_GPIO_PINS {
        return OUT_OF_BOUNDS;
      }
      if !gpio[pin].initialized {
        return NOT_INITIALIZED;
      }
      if gpio[pin].mode != ModeOutput {
        return INVALID_ARG;
      }
      gpio[pin] := gpio[pin].(value := if value != 0 then 1 else 0);
      r := OK;
    }

    /** v4_hal_gpio_read: OUT_OF_BOUNDS for an unknown pin, then the pin's own
        checks; nothing changes. */
    method GpioRead(pin: int, outIsNull: bool) returns (r: int, value: Option<int>)
      requires Valid()
      ensures !(0 <= pin < MAX_GPIO_PINS) ==> r == OUT_OF_BOUNDS && value == None
      ensures 0 <= pin < MAX_GPIO_PINS ==> (r, value) == MockHalSpec.GpioRead(gpio[pin], outIsNull)
      ensures r == OK ==> value.Some? && (value.value == 0 || value.value == 1)
    {
      if pin < 0 || pin >= MAX_GPIO_PINS {
        return OUT_OF_BOUNDS, None;
      }
      if !gpio[pin].initialized {
        return NOT_INITIALIZED, None;
      }
      if outIsNull {
        return INVALID_ARG, None;
      }
      r, value := OK, Some(gpio[pin].value);
    }

    /** v4_hal_uart_init: OUT_OF_BOUNDS for an unknown port, then the port's
        own check; no other port changes. */
    method UartInit(port: int, baudrate: int) returns (r: int)
      requires Valid()
      modifies uart
      ensures Valid()
      ensures !(0 <= port < MAX_UART_PORTS) ==> r == OUT_OF_BOUNDS && uart[..] == old(uart[..])
      ensures 0 <= port < MAX_UART_PORTS ==>
                && (uart[port], r) == MockHalSpec.UartInit(old(uart[port]), baudrate)
                && uart[..] == old(uart[..])[port := uart[port]]
    {
      if port < 0 || port >= MAX_UART_PORTS {
        return OUT_OF_BOUNDS;
      }
      if baudrate <= 0 {
        return INVALID_ARG;
      }
      uart[port] := uart[port].(initialized := true, baudrate := baudrate, txCount := 0, rxCount := 0, rxPos := 0);
      r := OK;
    }

    /** v4_hal_uart_putc: OUT_OF_BOUNDS for an unknown port, then the port's
        own checks; no other port changes. */
    method UartPutc(port: int, c: char) returns (r: int)
      requires Valid()
      modifies uart
      ensures Valid()
      ensures !(0 <= port < MAX_UART_PORTS) ==> r == OUT_OF_BOUNDS && uart[..] == old(uart[..])
      ensures 0 <= port < MAX_UART_PORTS ==>
                && (uart[port], r) == Putc(old(uart[port]), c)
                && uart[..] == old(uart[..])[port := uart[port]]
    {
      if port < 0 || port >= MAX_UART_PORTS {
        return OUT_OF_BOUNDS;
      }
      if !uart[port].initialized {
        return NOT_INITIALIZED;
      }
      if uart[port].txCount >= UART_BUFFER_SIZE {
        return BUSY;
      }
      var u := uart[port];
      uart[port] := u.(txBuffer := u.txBuffer[u.txCount := c], txCount := u.txCount + 1);
      r := OK;
    }

    /** v4_hal_uart_getc: OUT_OF_BOUNDS for an unknown port, then the port's
        own checks; no other port changes. */
    method UartGetc(port: int, outIsNull: bool) returns (r: int, c: Option<char>)
      requires Valid()
      modifies uart
      ensures Valid()
      ensures !(0 <= port < MAX_UART_PORTS) ==> r == OUT_OF_BOUNDS && c == None && uart[..] == old(uart[..])
      ensures 0 <= port < MAX_UART_PORTS ==>
                && (uart[port], r, c) == Getc(old(uart[port]), outIsNull)
                && uart[..] == old(uart[..])[port := uart[port]]
    {
      if port < 0 || port >= MAX_UART_PORTS {
        return OUT_OF_BOUNDS, None;
      }
      if !uart[port].initialized {
        return NOT_INITIALIZED, None;
      }
      if outIsNull {
        return INVALID_ARG, None;
      }
      if uart[port].rxPos >= uart[port].rxCount {
        return TIMEOUT, None;
      }
      var u := uart[port];
      c := Some(u.rxBuffer[u.rxPos]);
      uart[port] := u.(rxPos := u.rxPos + 1);
      r := OK;
    }

    /** v4_hal_uart_write: OUT_OF_BOUNDS for an unknown port, then the port's
        own checks, then one byte at a time into the TX buffer until `len`
        bytes are in or the buffer is full; no other port changes. */
    method UartWrite(port: int, buf: Option<seq<char>>, len: int) returns (r: int)
      requires Valid()
      requires 0 <= port < MAX_UART_PORTS && buf.Some? && len >= 0 ==> len <= |buf.value|
      modifies uart
      ensures Valid()
      ensures !(0 <= port < MAX_UART_PORTS) ==> r == OUT_OF_BOUNDS && uart[..] == old(uart[..])
      ensures 0 <= port < MAX_UART_PORTS ==>
                && (uart[port], r) == MockHalSpec.UartWrite(old(uart[port]), buf, len)
                && uart[..] == old(uart[..])[port := uart[port]]
    {
      if port < 0 || port >= MAX_UART_PORTS {
        return OUT_OF_BOUNDS;
      }
      if !uart[port].initialized {
        return NOT_INITIALIZED;
      }
      if buf.None? || len < 0 {
        return INVALID_ARG;
      }
      ghost var u0 := uart[port];
      AppendedNothing(u0, buf.value);
      var i := 0;
      while i < len
        invariant 0 <= i <= len && u0.txCount + i <= UART_BUFFER_SIZE
        invariant uart[port] == Appended(u0, buf.value, i)
        invariant uart[..] == old(uart[..])[port := uart[port]]
        invariant Valid()
      {
        if uart[port].txCount >= UART_BUFFER_SIZE {
          return BUSY;
        }
        var u := uart[port];
        AppendedStep(u0, buf.value, i);
        uart[port] := u.(txBuffer := u.txBuffer[u.txCount := buf.value[i]], txCount := u.txCount + 1);
        i := i + 1;
      }
      r := OK;
    }

    /** v4_hal_uart_read: OUT_OF_BOUNDS for an unknown port, then the port's
        own checks; then the oldest pending bytes, at most `maxLen` of them,
        are copied to the front of `buf`, consumed, and counted through
        `out_len`. The rest of `buf` and every other port are unchanged. */
    method UartRead(port: int, buf: array?<char>, maxLen: int, outLenIsNull: bool) returns (r: int, outLen: Option<int>)
      requires Valid()
      requires buf != null && maxLen >= 0 ==> maxLen <= buf.Length
      modifies uart, buf
      ensures Valid()
      ensures !(0 <= port < MAX_UART_PORTS) ==> r == OUT_OF_BOUNDS && outLen == None && uart[..] == old(uart[..])
      ensures 0 <= port < MAX_UART_PORTS ==>
                var (u, code, bytes, n) := MockHalSpec.UartRead(old(uart[port]), buf == null, outLenIsNull, maxLen);
                && uart[port] == u && r == code && outLen == n
                && uart[..] == old(uart[..])[port := uart[port]]
                && (buf != null ==> buf[..|bytes|] == bytes && buf[|bytes|..] == old(buf[|bytes|..]))
      ensures buf != null && r != OK ==> buf[..] == old(buf[..])
    {
      if port < 0 || port >= MAX_UART_PORTS {
        return OUT_OF_BOUNDS, None;
      }
      if !uart[port].initialized {
        return NOT_INITIALIZED, None;
      }
      if buf == null || outLenIsNull || maxLen < 0 {
        return INVALID_ARG, None;
      }
      var u := uart[port];
      var available := u.rxCount - u.rxPos;
      var toRead := if available < maxLen then available else maxLen;
      forall i | 0 <= i < toRead {
        buf[i] := u.rxBuffer[u.rxPos + i];
      }
      uart[port] := u.(rxPos := u.rxPos + toRead);
      r, outLen := OK, Some(toRead);
    }

    /** v4_hal_millis */
    method Millis() returns (ms: u32)
      ensures ms == Time().millis
    {
      ms := millisCounter;
    }

    /** v4_hal_micros */
    method Micros() returns (us: u64)
      ensures us == Time().micros
    {
      us := microsCounter;
    }

    /** v4_hal_delay_ms: advances both counters by the delay. */
    method DelayMs(ms: u32)
      modifies this
      ensures Time() == MockHalSpec.DelayMs(old(Time()), ms)
    {
      millisCounter := (millisCounter + ms) % U32_MODULUS;
      microsCounter := (microsCounter + ms * 1000) % U64_MODULUS;
    }

    /** v4_hal_delay_us: advances the microsecond counter by the delay and the
        millisecond counter by its whole milliseconds. */
    method DelayUs(us: u32)
      modifies this
      ensures Time() == MockHalSpec.DelayUs(old(Time()), us)
    {
      microsCounter := (microsCounter + us) % U64_MODULUS;
      millisCounter := (millisCounter + us / 1000) % U32_MODULUS;
    }
  }
}
