# V4-hal in Dafny

A model of the hardware abstraction layer of the V4 virtual machine:

- **Simulated backend.** The mock HAL of the unit tests (`tests/mock_hal.cpp`) keeps 32 GPIO pin records, 4 UART port records and a millisecond/microsecond clock pair in static storage.
  - Module `MockHal` holds class `Hal`. It keeps the two tables as arrays and changes them in place.
  - Module `MockHalSpec` says, one record at a time, what each entry point does. It also relates a write to repeated `putc` and a read to repeated `getc`.
- **Dispatch layer.** `GpioBase`, `UartBase` and `TimerBase` check the arguments and hand the call to the platform selected at build time.
  - A platform is a record of its primitive operations over the platform's own state. For example, `GpioBase.GpioOps` lists `max_gpio_pins`, `gpio_mode_impl`, `gpio_write_impl` and `gpio_read_impl`.
  - "The platform is not called" is stated as "the platform state comes back unchanged".
  - Classes `GpioImpl.GpioPin` and `UartImpl.Uart` are the move-only owners of a pin number and a UART handle. They act on a `Platform` object that holds the platform's static storage.
- **POSIX port.**
  - The GPIO simulation keeps two 32-bit bitmaps: the mode bitmap (a set bit means an output) and the level bitmap (a set bit means HIGH). Class `PosixGpio` updates them in place and is proved against pure functions. Those functions also serve as its `GpioOps`.
  - The stub UART receive side.
  - The capability descriptor.
- **C++ wrapper.** `include/v4/hal.hpp` turns negative outcomes into an `Error` exception. An exception is modelled as a `Fail`/`Failure` result. A constructor that throws becomes a factory method whose failure means no object exists.
- **Capabilities.** The default capability descriptor and its lookup (`Capabilities`).

A bitmap is represented by the set of positions of its 1 bits:

| C operation | set operation |
|---|---|
| setting the bit with OR | `m + Mask(pin)` |
| clearing the bit with AND-NOT | `m - Mask(pin)` |
| testing the bit with AND | `m * Mask(pin)` |

Fixed-width integers are subset types of `int`, for example `u32` and `u64`. Where the C code wraps around, the wrap-around is written out (`% U32_MODULUS`).

## Model

| member | source | states |
|---|---|---|
| TimerBase.Millis | src/internal/timer_impl.hpp:46-49 | millis() is the platform's counter, read once and passed through unchanged |
| TimerBase.Micros | src/internal/timer_impl.hpp:60-63 | micros() is the platform's counter, passed through unchanged |
| TimerBase.DelayMs | src/internal/timer_impl.hpp:73-76 | delay_ms hands the same argument to the platform's delay |
| TimerBase.DelayUs | src/internal/timer_impl.hpp:86-89 | delay_us hands the same argument to the platform's delay |
| TimerBase.ElapsedMs | src/internal/timer_impl.hpp:100-105 | elapsed_ms equals (now - start) mod 2^32 in both branches, equals now - start when now >= start, and is 0 when start is the current reading |
| TimerBase.ElapsedUs | src/internal/timer_impl.hpp:116-119 | elapsed_us is the uint64 difference (now - start) mod 2^64 |
| TimerBase.ElapsedMsAfterAdvance | src/internal/timer_impl.hpp:100-105 | if the counter advanced by d modulo 2^32, elapsed_ms from the earlier reading is exactly d, across a wrap too |
| GpioBase.Mode | src/internal/gpio_impl.hpp:48-55 | a pin outside [0, max_gpio_pins) gives HAL_ERR_PARAM without calling the platform; any other pin gets the platform's result |
| GpioBase.Write | src/internal/gpio_impl.hpp:64-71 | the same range check, then the platform's write |
| GpioBase.Read | src/internal/gpio_impl.hpp:80-87 | a null destination or a pin out of range gives HAL_ERR_PARAM without calling the platform; otherwise the platform's read |
| GpioBase.Toggle | src/internal/gpio_impl.hpp:98-107 | a failed read is returned unchanged and nothing is written; otherwise it writes LOW after HIGH and HIGH after LOW and returns the write's result |
| GpioImpl.GpioPin.constructor | src/internal/gpio_impl.hpp:137-140 | stores the pin and configures its mode through GpioBase, discarding the outcome |
| GpioImpl.GpioPin.Write | src/internal/gpio_impl.hpp:148-151 | GpioBase's write on the stored pin |
| GpioImpl.GpioPin.Read | src/internal/gpio_impl.hpp:159-162 | GpioBase's read on the stored pin |
| GpioImpl.GpioPin.Toggle | src/internal/gpio_impl.hpp:169-172 | GpioBase's toggle on the stored pin |
| GpioImpl.GpioPin.Move | src/internal/gpio_impl.hpp:189-192 | move construction takes the source's pin and sets the source's pin to -1 |
| GpioImpl.GpioPin.MoveAssign | src/internal/gpio_impl.hpp:194-202 | move assignment does the same, and self-assignment changes nothing |
| UartBase.Open | src/internal/uart_impl.hpp:63-70 | a null config or a port outside [0, max_uart_ports) gives the null handle without calling the platform |
| UartBase.Close | src/internal/uart_impl.hpp:78-83 | a null handle gives HAL_ERR_PARAM; otherwise the platform's close |
| UartBase.Write | src/internal/uart_impl.hpp:93-98 | a null handle or a null buffer gives HAL_ERR_PARAM; otherwise the platform's write |
| UartBase.Read | src/internal/uart_impl.hpp:110-115 | a null handle or a null buffer gives HAL_ERR_PARAM and reads nothing; otherwise the platform's read |
| UartBase.Available | src/internal/uart_impl.hpp:123-128 | a null handle gives HAL_ERR_PARAM; otherwise the platform's count |
| UartImpl.Uart.constructor | src/internal/uart_impl.hpp:160-163 | holds whatever open returns, the null handle included |
| UartImpl.Uart.IsOpen | src/internal/uart_impl.hpp:181-184 | is_open() holds exactly when the handle is not null |
| UartImpl.Uart.Destroy | src/internal/uart_impl.hpp:168-174 | the destructor calls close exactly when the handle is not null |
| UartImpl.Uart.Write | src/internal/uart_impl.hpp:203-206 | UartBase's write on the held handle |
| UartImpl.Uart.Read | src/internal/uart_impl.hpp:215-218 | UartBase's read on the held handle |
| UartImpl.Uart.Available | src/internal/uart_impl.hpp:225-228 | UartBase's available on the held handle |
| UartImpl.Uart.Move | src/internal/uart_impl.hpp:235-238 | move construction transfers the handle and nulls the source |
| UartImpl.Uart.MoveAssign | src/internal/uart_impl.hpp:240-252 | move assignment first closes a handle it holds, then takes the other's and nulls the source; self-assignment changes nothing |
| PlatformPosix.Mask | ports/posix/platform_posix.cpp:34 | `1u << pin` has exactly the pin's bit set |
| PlatformPosix.GpioModeImpl | ports/posix/platform_posix.cpp:29-41 | a mode change always succeeds and leaves the level bitmap untouched |
| PlatformPosix.ModeChangesOnlyItsBit | ports/posix/platform_posix.cpp:29-41 | OUTPUT and OUTPUT_OD set the pin's mode bit, every other mode clears it, and no other bit changes |
| PlatformPosix.GpioWriteImpl | ports/posix/platform_posix.cpp:43-61 | a write to a pin whose mode bit is clear gives HAL_ERR_PARAM and changes nothing; otherwise it succeeds with the modes untouched |
| PlatformPosix.WriteChangesOnlyItsBit | ports/posix/platform_posix.cpp:51-60 | HIGH sets and LOW clears the pin's level bit, and every other bit is preserved |
| PlatformPosix.GpioReadImpl | ports/posix/platform_posix.cpp:63-67 | a read reports HIGH exactly when the pin's level bit is set, in any mode, always succeeds and changes nothing |
| PlatformPosix.PosixGpio.constructor | ports/posix/platform_posix.cpp:22-23 | both bitmaps start at 0 |
| PlatformPosix.PosixGpio.ModeImpl | ports/posix/platform_posix.cpp:29-41 | the in-place OR / AND-NOT update gives GpioModeImpl's bitmaps and outcome |
| PlatformPosix.PosixGpio.WriteImpl | ports/posix/platform_posix.cpp:43-61 | the in-place update gives GpioWriteImpl's bitmaps and outcome |
| PlatformPosix.PosixGpio.ReadImpl | ports/posix/platform_posix.cpp:63-67 | the read gives GpioReadImpl's level and outcome and changes nothing |
| PlatformPosix.ConfigureWriteRead | ports/posix/platform_posix.cpp:29-67 | through GpioBase, configuring a pin as output, writing a level and reading it back succeeds and returns that level |
| PlatformPosix.ToggleFlips | src/internal/gpio_impl.hpp:98-107 | on the POSIX port, toggle of an output pin flips its level bit and no other; on a pin whose mode bit is clear it gives HAL_ERR_PARAM and changes nothing |
| PlatformPosix.ToggleTwice | src/internal/gpio_impl.hpp:98-107 | on the POSIX port, toggling an output pin twice restores both bitmaps |
| PlatformPosix.UartReadImpl | ports/posix/platform_posix.cpp:113-120 | the POSIX read reports 0 bytes and changes nothing |
| PlatformPosix.UartAvailableImpl | ports/posix/platform_posix.cpp:122-126 | the POSIX available reports 0 |
| PlatformPosix.PosixCapabilities | ports/posix/platform_posix.cpp:205-220 | the POSIX descriptor reports 32 pins and 4 ports, the platform's own limits, and 0 for every other count and flag |
| Capabilities.DefaultCapabilities | src/common/hal_capabilities.cpp:19-34 | the default descriptor has every count and every flag equal to 0 |
| Capabilities.PlatformCapabilities | src/common/hal_capabilities.cpp:19-34 | the provider gives the port's descriptor when the port links one in, and the all-zero default otherwise, the same on every call |
| Capabilities.GetCapabilities | src/common/hal_capabilities.cpp:36-39 | hal_get_capabilities returns exactly what the platform provider returns |
| MockHalSpec.GpioInit | tests/mock_hal.cpp:106-115 | initializing a pin in range marks it initialized, in the given mode, at level 0 |
| MockHalSpec.GpioWrite | tests/mock_hal.cpp:117-130 | the write succeeds exactly on an initialized OUTPUT pin. NotInitialized is checked before InvalidArg. A refused write changes nothing. A successful write stores 1 exactly when the value is non-zero |
| MockHalSpec.GpioRead | tests/mock_hal.cpp:132-145 | the read succeeds exactly on an initialized pin with a non-null destination, and returns the stored level; otherwise NotInitialized, then InvalidArg |
| MockHalSpec.InitWriteRead | tests/mock_hal.cpp:106-145 | after init as OUTPUT, a write reads back as 1 for non-zero and 0 for zero; after init in another mode, the write is refused and the pin reads 0 |
| MockHalSpec.UartInit | tests/mock_hal.cpp:151-165 | succeeds exactly when baudrate > 0; a refusal changes nothing; success leaves the port initialized at that rate with nothing sent and nothing pending |
| MockHalSpec.InjectRx | tests/mock_hal.cpp:66-76 | the pending bytes become the first min(len, 256) injected bytes, read from the start; the TX side and the flags are untouched |
| MockHalSpec.Putc | tests/mock_hal.cpp:167-180 | NotInitialized first, Busy exactly when 256 bytes are already sent; a refusal changes nothing; success appends the byte to the bytes sent and changes nothing else |
| MockHalSpec.Getc | tests/mock_hal.cpp:182-198 | NotInitialized, then InvalidArg for a null destination, then Timeout when nothing is pending; otherwise it yields the oldest pending byte and consumes exactly that byte (FIFO) |
| MockHalSpec.Appended | tests/mock_hal.cpp:211-216 | the bytes sent after appending n bytes are the bytes sent before followed by those n bytes, and nothing else in the record changes |
| MockHalSpec.UartWrite | tests/mock_hal.cpp:200-220 | NotInitialized, then InvalidArg for a null buffer or negative length. Otherwise the call succeeds exactly when everything fits and is Busy otherwise. The bytes sent grow by the first min(len, free space) bytes, in order, including the bytes appended before the buffer filled |
| MockHalSpec.UartRead | tests/mock_hal.cpp:222-241 | NotInitialized, then InvalidArg for a null buffer, a null length pointer or a negative max_len. Otherwise it delivers the oldest min(pending, max_len) pending bytes (none is not an error), consumes exactly them and reports their number |
| MockHalSpec.WriteIsRepeatedPutc | tests/mock_hal.cpp:167-220 | on an initialized port, writing a buffer is putc of each byte in turn, stopping at the first Busy, in the state and the outcome |
| MockHalSpec.ReadIsRepeatedGetc | tests/mock_hal.cpp:182-241 | on an initialized port, a read of up to n bytes yields and consumes the same bytes as getc repeated up to n times; getc reaches Timeout exactly when fewer than n bytes are pending |
| MockHalSpec.InitWriteSent | tests/mock_hal.cpp:151-220 | bytes written to a freshly initialized port are exactly what the TX buffer shows as sent, as long as they fit |
| MockHalSpec.InjectThenRead | tests/mock_hal.cpp:66-76 | injected bytes come back, all of them and in order, from one read at least as long; afterwards a read succeeds with no bytes |
| MockHalSpec.DelayMs | tests/mock_hal.cpp:257-262 | delay_ms adds ms to the millisecond counter modulo 2^32 and ms*1000 to the microsecond counter modulo 2^64 |
| MockHalSpec.DelayUs | tests/mock_hal.cpp:264-269 | delay_us adds us to the microsecond counter and us/1000 to the millisecond counter, each at its own width |
| MockHalSpec.DelayMsElapsed | tests/mock_hal.cpp:257-262 | on the mock, elapsed_ms across delay_ms(ms) is exactly ms, wrap included, and elapsed_us is ms*1000 |
| MockHalSpec.DelayUsElapsed | tests/mock_hal.cpp:264-269 | on the mock, elapsed_us across delay_us(us) is exactly us, and elapsed_ms is us/1000 |
| MockHal.Hal.constructor | tests/mock_hal.cpp:39-42 | the static tables start zeroed and both counters start at 0 |
| MockHal.Hal.Reset | tests/mock_hal.cpp:48-54 | every pin and port record is zeroed and both counters are 0 |
| MockHal.Hal.SystemReset | tests/mock_hal.cpp:275-279 | the system reset is the mock reset |
| MockHal.Hal.SetMillis | tests/mock_hal.cpp:56-59 | sets the millisecond counter and leaves the microsecond counter alone |
| MockHal.Hal.SetMicros | tests/mock_hal.cpp:61-64 | sets the microsecond counter and leaves the millisecond counter alone |
| MockHal.Hal.InjectRx | tests/mock_hal.cpp:66-76 | an unknown port is ignored; otherwise only that port changes, as InjectRx says |
| MockHal.Hal.GetTx | tests/mock_hal.cpp:78-86 | null exactly for an unknown port; otherwise the TX buffer, whose first tx_count bytes are the bytes sent, and that count unless out_len is null |
| MockHal.Hal.GpioGetValue | tests/mock_hal.cpp:88-93 | -1 for an unknown pin; otherwise the stored level, 0 or 1 |
| MockHal.Hal.GpioGetMode | tests/mock_hal.cpp:95-100 | INPUT for an unknown pin; otherwise the stored mode |
| MockHal.Hal.GpioInit | tests/mock_hal.cpp:106-115 | OutOfBounds with no change for an unknown pin; otherwise OK with only that pin re-initialized |
| MockHal.Hal.GpioWrite | tests/mock_hal.cpp:117-130 | OutOfBounds with no change for an unknown pin; otherwise that pin alone changes, as GpioWrite says |
| MockHal.Hal.GpioRead | tests/mock_hal.cpp:132-145 | OutOfBounds for an unknown pin; otherwise GpioRead's outcome, so a successful read gives 0 or 1 |
| MockHal.Hal.UartInit | tests/mock_hal.cpp:151-165 | OutOfBounds with no change for an unknown port; otherwise only that port changes, as UartInit says |
| MockHal.Hal.UartPutc | tests/mock_hal.cpp:167-180 | OutOfBounds with no change for an unknown port; otherwise only that port changes, as Putc says |
| MockHal.Hal.UartGetc | tests/mock_hal.cpp:182-198 | OutOfBounds with no change for an unknown port; otherwise only that port changes, as Getc says |
| MockHal.Hal.UartWrite | tests/mock_hal.cpp:200-220 | the per-byte loop leaves the port, and returns the outcome, that UartWrite specifies (Busy keeps the bytes already appended); no other port changes |
| MockHal.Hal.UartRead | tests/mock_hal.cpp:222-241 | the memcpy puts exactly UartRead's bytes at the front of buf and leaves the rest of buf alone; the port advances as UartRead says, and no other port changes |
| MockHal.Hal.Millis | tests/mock_hal.cpp:247-250 | returns the millisecond counter |
| MockHal.Hal.Micros | tests/mock_hal.cpp:252-255 | returns the microsecond counter |
| MockHal.Hal.DelayMs | tests/mock_hal.cpp:257-262 | the counters advance as DelayMs says |
| MockHal.Hal.DelayUs | tests/mock_hal.cpp:264-269 | the counters advance as DelayUs says |
| Hal.Check | include/v4/hal.hpp:46-75 | check raises an Error exactly when the result is negative, and that Error's code() is the result itself |
| Hal.Counted | include/v4/hal.hpp:279-285 | a counting call returns its non-negative result and raises an Error carrying any negative one |
| Hal.GpioPin.Configure | include/v4/hal.hpp:156-159 | constructing a pin configures its mode and raises the configuration's error, in which case no pin exists |
| Hal.GpioPin.Write | include/v4/hal.hpp:166-169 | raises the write's error, if any |
| Hal.GpioPin.Read | include/v4/hal.hpp:176-181 | returns the level read, or raises the read's error |
| Hal.GpioPin.Toggle | include/v4/hal.hpp:187-190 | raises the toggle's error, if any |
| Hal.Uart.Open | include/v4/hal.hpp:232-237 | construction raises HAL_ERR_NODEV exactly when open gives the null handle, so an existing Uart holds a handle |
| Hal.Uart.Destroy | include/v4/hal.hpp:242-248 | the destructor closes only a non-null handle |
| Hal.Uart.Move | include/v4/hal.hpp:255-258 | move construction takes the handle and nulls the source |
| Hal.Uart.MoveAssign | include/v4/hal.hpp:260-270 | move assignment closes the handle held so far before taking the other's and nulling it; self-assignment is a no-op |
| Hal.Uart.Write | include/v4/hal.hpp:279-285 | the bytes written, or the write's error raised |
| Hal.Uart.Read | include/v4/hal.hpp:294-300 | the bytes read, or the read's error raised |
| Hal.Uart.Available | include/v4/hal.hpp:307-313 | the bytes pending, or the query's error raised |

## Left out

- **ESP32 port.** `ports/esp32` is not part of this model. It forwards to ESP-IDF and FreeRTOS calls whose behaviour is outside the repository.
- **POSIX UART open, close and write; POSIX timer; POSIX console.** They are file I/O on standard streams, `clock_gettime`/`usleep` wall-clock time, and reads and writes on stdin and stdout. The timer layer is modelled over any platform clock instead, and the mock clock is one such platform.
- **Critical sections.** The critical-section layer and the POSIX mutex exist only for concurrency, and the model is sequential. GpioBase.Toggle takes no lock, as in the code, so nothing is lost there.
- **Bridges.** The `src/bridge` files are one-line forwarders chosen at compile time. The `hal_*` C entry points that `Hal` calls are taken to reach GpioBase and UartBase directly. The GPIO interrupt stubs only return "not supported".
- **Other left-out parts.**
  - The weak platform hooks of `hal_core.cpp`.
  - `hal_strerror`: its message table is not part of this model, so `Error` carries only its code.
  - HalSystem of `hal.hpp`.
  - The timer and console helpers of `hal.hpp`: they are pure forwarders.
- **Error values.** The numeric values of `HAL_OK` and `HAL_ERR_*` come from a table that is not part of this model. They are placeholders: HAL_OK = 0, and each error is a distinct negative number. The mock's own codes (0, -1, -2, -3, -4, -13) are its literal values.
- **PlatformPosix.Mask: pins outside 0..31.** The mask is empty there, but the C shift is undefined for such pins. GpioBase never passes such a pin to the platform, because max_gpio_pins is 32.
- **PlatformPosix bitmap encoding.** A bitmap is represented as the set of its 1-bit positions rather than as a 32-bit word. The two are equivalent for positions 0..31, and those are the only positions the code touches.
- **MockHal.Hal.InjectRx requires `len >= 0` and enough data.** `memcpy` with a negative length is undefined behaviour, so the model demands what the C code silently relies on.
- **MockHal.Hal.UartRead requires buf to hold max_len bytes.** `memcpy` writes up to `max_len` bytes into `buf`.
- **Buffer contents in the mock.** Bytes are modelled as Dafny `char`s, and a C `char` buffer as a sequence of them.
- **Out-pointers.** What is written through an out-pointer is an `Option`: `None` means nothing was written. A null out-pointer is a boolean parameter.
- **GpioBase.Read: the value on refusal.** On a refused read, the value is reported as LOW. In the C code, the caller's variable is left unwritten instead.
- **v4_hal_system_info.** It returns the constant string "Mock HAL v1.0" and has no state.
- **GpioImpl.GpioPin.constructor and UartImpl.Uart.constructor.** The C++ constructors take a `Platform` type parameter. In the model, the platform's storage is passed explicitly as a `Platform` object.
- **Where the documentation and the code differ, the code is followed:**
  - GpioBase reports HAL_ERR_PARAM for a pin out of range.
  - toggle enters no critical section.
  - UartBase.Open checks only for a null configuration and the port range, and does not check the baud rate or data bits.
