/** The POSIX port: GPIO simulated by two 32-bit bitmaps, one bit per pin, the
    stub UART receive side, and the port's capability descriptor. */
module PlatformPosix {
  import opened HalTypes
  import opened Wrappers
  import GpioBase
  import UartBase
  import Capabilities

  /** max_gpio_pins() and max_uart_ports() of the POSIX platform. */
  const MAX_GPIO_PINS: int := 32
  const MAX_UART_PORTS: int := 4

  /** A 32-bit bitmap, given by the positions of its 1 bits. */
  type Bitmap = set<int>

  /** `1u << pin` for the pins the platform is ever given; the shift is undefined
      in C for any other pin, and the mask is empty there. */
  function Mask(pin: int): (m: Bitmap)
    ensures forall q :: q in m <==> 0 <= q < 32 && q == pin
  {
    if 0 <= pin < 32 then {pin} else {}
  }

  /** `b & (1u << pin)` is non-zero: `|` is `+`, `& ~` is `-` and `&` is `*`. */
  predicate BitSet(b: Bitmap, pin: int) {
    b * Mask(pin) != {}
  }

  /** A pin's bit is set exactly when the pin is one of the bitmap's 1 bits. */
  lemma BitSetIsMember(b: Bitmap, pin: int)
    requires 0 <= pin < 32
    ensures BitSet(b, pin) <==> pin in b
  {
    assert b * Mask(pin) == if pin in b then {pin} else {};
  }

  /** gpio_modes (bit set: the pin drives its output) and gpio_states (bit set:
      the pin is HIGH). */
  datatype Bitmaps = Bitmaps(modes: Bitmap, states: Bitmap)

  predicate IsOutputMode(mode: GpioMode) {
    mode == Output || mode == OutputOpenDrain
  }

  /** gpio_mode_impl: sets or clears the pin's mode bit and always succeeds;
      the levels are untouched. Which bits change: ModeChangesOnlyItsBit. */
  function GpioModeImpl(b: Bitmaps, pin: int, mode: GpioMode): (r: (Bitmaps, int))
    ensures r.1 == HAL_OK && r.0.states == b.states
  {
    if IsOutputMode(mode) then (b.(modes := b.modes + Mask(pin)), HAL_OK)
    else (b.(modes := b.modes - Mask(pin)), HAL_OK)
  }

  /** gpio_write_impl: a pin whose mode bit is clear is refused with
      HAL_ERR_PARAM and nothing changes; otherwise the write succeeds and the
      modes are untouched. Which bits change: WriteChangesOnlyItsBit. */
  function GpioWriteImpl(b: Bitmaps, pin: int, value: GpioValue): (r: (Bitmaps, int))
    ensures !BitSet(b.modes, pin) ==> r == (b, HAL_ERR_PARAM)
    ensures BitSet(b.modes, pin) ==> r.1 == HAL_OK && r.0.modes == b.modes
  {
    if b.modes * Mask(pin) == {} then (b, HAL_ERR_PARAM)
    else if value == High then (b.(states := b.states + Mask(pin)), HAL_OK)
    else (b.(states := b.states - Mask(pin)), HAL_OK)
  }

  /** gpio_read_impl: reports the pin's level bit, whatever its mode, always
      succeeds and changes nothing. */
  function GpioReadImpl(b: Bitmaps, pin: int): (r: (Bitmaps, int, GpioValue))
    ensures r.0 == b && r.1 == HAL_OK
    ensures r.2 == High <==> BitSet(b.states, pin)
  {
    (b, HAL_OK, if b.states * Mask(pin) != {} then High else Low)
  }

  /** A mode change sets (output modes) or clears (every other mode) that pin's
      mode bit and no other. */
  lemma ModeChangesOnlyItsBit(b: Bitmaps, pin: int, mode: GpioMode)
    requires 0 <= pin < MAX_GPIO_PINS
    ensures forall q | 0 <= q < 32 ::
              BitSet(GpioModeImpl(b, pin, mode).0.modes, q) == if q == pin then IsOutputMode(mode) else BitSet(b.modes, q)
  {
    forall q | 0 <= q < 32
      ensures BitSet(GpioModeImpl(b, pin, mode).0.modes, q) == if q == pin then IsOutputMode(mode) else BitSet(b.modes, q)
    {
      BitSetIsMember(GpioModeImpl(b, pin, mode).0.modes, q);
      BitSetIsMember(b.modes, q);
    }
  }

  /** A write to an output pin sets (HIGH) or clears (LOW) that pin's level bit
      and no other. */
  lemma WriteChangesOnlyItsBit(b: Bitmaps, pin: int, value: GpioValue)
    requires 0 <= pin < MAX_GPIO_PINS && BitSet(b.modes, pin)
    ensures forall q | 0 <= q < 32 ::
              BitSet(GpioWriteImpl(b, pin, value).0.states, q) == if q == pin then value == High else BitSet(b.states, q)
  {
  }

  /** The POSIX platform as seen by GpioBase. */
  const PosixGpioOps: GpioBase.GpioOps<Bitmaps> :=
    GpioBase.GpioOps(MAX_GPIO_PINS, GpioModeImpl, GpioWriteImpl, GpioReadImpl)

  /** The two static bitmaps of platform_posix.cpp, updated in place. */
  class PosixGpio {
    var gpioStates: Bitmap
    var gpioModes: Bitmap

    function Current(): Bitmaps
      reads this
    {
      Bitmaps(gpioModes, gpioStates)
    }

    /** Both bitmaps start at zero: every pin an input, every level LOW. */
    constructor ()
      ensures Current() == Bitmaps({}, {})
    {
      gpioStates, gpioModes := {}, {};
    }

    method ModeImpl(pin: int, mode: GpioMode) returns (r: int)
      modifies this
      ensures (Current(), r) == GpioModeImpl(old(Current()), pin, mode)
    {
      if mode == Output || mode == OutputOpenDrain {
        gpioModes := gpioModes + Mask(pin);
      } else {
        gpioModes := gpioModes - Mask(pin);
      }
      r := HAL_OK;
    }

    method WriteImpl(pin: int, value: GpioValue) returns (r: int)
      modifies this
      ensures (Current(), r) == GpioWriteImpl(old(Current()), pin, value)
    {
      if gpioModes * Mask(pin) == {} {
        return HAL_ERR_PARAM;
      }
      if value == High {
        gpioStates := gpioStates + Mask(pin);
      } else {
        gpioStates := gpioStates - Mask(pin);
      }
      r := HAL_OK;
    }

    method ReadImpl(pin: int) returns (r: int, value: GpioValue)
      ensures (Current(), r, value) == GpioReadImpl(Current(), pin)
    {
      value := if gpioStates * Mask(pin) != {} then High else Low;
      r := HAL_OK;
    }
  }

  /** Configuring a pin as an output, writing a level and reading it back through
      GpioBase returns that level. */
  lemma ConfigureWriteRead(b: Bitmaps, pin: int, value: GpioValue)
    requires 0 <= pin < MAX_GPIO_PINS
    ensures var (b1, r1) := GpioBase.Mode(PosixGpioOps, b, pin, Output);
            var (b2, r2) := GpioBase.Write(PosixGpioOps, b1, pin, value);
            var (b3, r3, v) := GpioBase.Read(PosixGpioOps, b2, pin, false);
            r1 == HAL_OK && r2 == HAL_OK && r3 == HAL_OK && v == value && b3 == b2
  {
    var b1 := GpioBase.Mode(PosixGpioOps, b, pin, Output).0;
    assert pin in b1.modes * Mask(pin);
    var b2 := GpioBase.Write(PosixGpioOps, b1, pin, value).0;
    assert value == High ==> pin in b2.states * Mask(pin);
  }

  /** On an output pin, toggle succeeds and flips that pin's level and no other
      bit; on a pin whose mode bit is clear it fails with HAL_ERR_PARAM and
      changes nothing. */
  lemma ToggleFlips(b: Bitmaps, pin: int)
    requires 0 <= pin < MAX_GPIO_PINS
    ensures var (b1, r) := GpioBase.Toggle(PosixGpioOps, b, pin);
            && b1.modes == b.modes
            && (BitSet(b.modes, pin) ==>
                  && r == HAL_OK
                  && forall q | 0 <= q < 32 ::
                       BitSet(b1.states, q) == if q == pin then !BitSet(b.states, q) else BitSet(b.states, q))
            && (!BitSet(b.modes, pin) ==> r == HAL_ERR_PARAM && b1 == b)
  {
  }

  /** Toggling an output pin twice restores both bitmaps. */
  lemma ToggleTwice(b: Bitmaps, pin: int)
    requires 0 <= pin < MAX_GPIO_PINS
    requires BitSet(b.modes, pin)
    ensures GpioBase.Toggle(PosixGpioOps, GpioBase.Toggle(PosixGpioOps, b, pin).0, pin).0 == b
  {
  }

  /** uart_read_impl: the simplified non-blocking read reports 0 bytes. */
  function UartReadImpl<S>(s: S, handle: Handle, len: nat): (r: (S, int, seq<Byte>))
    ensures r == (s, 0, [])
  {
    (s, 0, [])
  }

  /** uart_available_impl: reports that nothing is pending. */
  function UartAvailableImpl<S>(s: S, handle: Handle): (r: (S, int))
    ensures r == (s, 0)
  {
    (s, 0)
  }

  /** hal_platform_capabilities of the POSIX port. */
  function PosixCapabilities(): (d: Capabilities.Descriptor)
    ensures d.gpioCount == MAX_GPIO_PINS && d.uartCount == MAX_UART_PORTS
    ensures d == Capabilities.DefaultCapabilities().(gpioCount := 32, uartCount := 4)
  {
    Capabilities.Descriptor(32, 4, 0, 0, 0, 0, 0, 0, 0, 0)
  }
}
