/** GpioBase: the platform-independent GPIO layer. Each operation checks its
    arguments and, when they pass, hands the call to the platform unchanged. */
module GpioBase {
  import opened HalTypes

  /** The GPIO primitives a platform supplies (max_gpio_pins, gpio_mode_impl,
      gpio_write_impl, gpio_read_impl), acting on the platform's pin state `S`. */
  datatype GpioOps<!S> = GpioOps(
    maxPins: int,
    modeImpl: (S, int, GpioMode) -> (S, int),
    writeImpl: (S, int, GpioValue) -> (S, int),
    readImpl: (S, int) -> (S, int, GpioValue))

  predicate InRange<S>(ops: GpioOps<S>, pin: int) {
    0 <= pin < ops.maxPins
  }

  /** mode(pin, mode): a pin outside [0, max_gpio_pins) is refused with
      HAL_ERR_PARAM and the platform is not called (its state is returned as it
      was); any other pin gets the platform's own answer. */
  function Mode<S>(ops: GpioOps<S>, s: S, pin: int, mode: GpioMode): (r: (S, int))
    ensures !InRange(ops, pin) ==> r == (s, HAL_ERR_PARAM)
    ensures InRange(ops, pin) ==> r == ops.modeImpl(s, pin, mode)
  {
    if pin < 0 || pin >= ops.maxPins then (s, HAL_ERR_PARAM)
    else ops.modeImpl(s, pin, mode)
  }

  /** write(pin, value): the same range check, then the platform's write. */
  function Write<S>(ops: GpioOps<S>, s: S, pin: int, value: GpioValue): (r: (S, int))
    ensures !InRange(ops, pin) ==> r == (s, HAL_ERR_PARAM)
    ensures InRange(ops, pin) ==> r == ops.writeImpl(s, pin, value)
  {
    if pin < 0 || pin >= ops.maxPins then (s, HAL_ERR_PARAM)
    else ops.writeImpl(s, pin, value)
  }

  /** read(pin, value): a null destination (`outIsNull`) or a pin out of range is
      refused with HAL_ERR_PARAM without calling the platform; the value reported
      then is meaningless and is given as Low. */
  function Read<S>(ops: GpioOps<S>, s: S, pin: int, outIsNull: bool): (r: (S, int, GpioValue))
    ensures outIsNull || !InRange(ops, pin) ==> r == (s, HAL_ERR_PARAM, Low)
    ensures !outIsNull && InRange(ops, pin) ==> r == ops.readImpl(s, pin)
  {
    if outIsNull || pin < 0 || pin >= ops.maxPins then (s, HAL_ERR_PARAM, Low)
    else ops.readImpl(s, pin)
  }

  function Opposite(v: GpioValue): GpioValue {
    if v == High then Low else High
  }

  /** toggle(pin): read, then write the opposite level. No critical section is
      entered, so the two platform calls are two separate steps. A failed read is
      returned unchanged and nothing is written. */
  function Toggle<S>(ops: GpioOps<S>, s: S, pin: int): (r: (S, int))
    ensures !InRange(ops, pin) ==> r == (s, HAL_ERR_PARAM)
    ensures InRange(ops, pin) && ops.readImpl(s, pin).1 != HAL_OK ==>
              r == (ops.readImpl(s, pin).0, ops.readImpl(s, pin).1)
    ensures InRange(ops, pin) && ops.readImpl(s, pin).1 == HAL_OK ==>
              var (s1, _, current) := ops.readImpl(s, pin);
              r == ops.writeImpl(s1, pin, if current == High then Low else High)
  {
    var (s1, ret, current) := Read(ops, s, pin, false);
    if ret != HAL_OK then (s1, ret)
    else Write(ops, s1, pin, Opposite(current))
  }
}

/** GpioPin: a pin number bound to the platform, which configures the pin when it is
    constructed and can be moved but not copied. */
module GpioImpl {
  import opened HalTypes
  import GpioBase

  /** The platform selected at build time: its GPIO primitives and the static
      storage they act on. */
  class Platform<S> {
    const ops: GpioBase.GpioOps<S>
    var state: S

    constructor (ops: GpioBase.GpioOps<S>, state: S)
      ensures this.ops == ops && this.state == state
    {
      this.ops := ops;
      this.state := state;
    }
  }

  class GpioPin<S> {
    var pin: int

    /** GpioPin(pin, mode): stores the pin and configures it; the outcome of the
        configuration is discarded. */
    constructor (platform: Platform<S>, pin: int, mode: GpioMode)
      modifies platform
      ensures this.pin == pin
      ensures platform.state == GpioBase.Mode(platform.ops, old(platform.state), pin, mode).0
    {
      this.pin := pin;
      new;
      var (s, _) := GpioBase.Mode(platform.ops, platform.state, pin, mode);
      platform.state := s;
    }

    method Write(platform: Platform<S>, value: GpioValue) returns (r: int)
      modifies platform
      ensures (platform.state, r) == GpioBase.Write(platform.ops, old(platform.state), pin, value)
    {
      var res := GpioBase.Write(platform.ops, platform.state, pin, value);
      platform.state, r := res.0, res.1;
    }

    method Read(platform: Platform<S>, outIsNull: bool) returns (r: int, value: GpioValue)
      modifies platform
      ensures (platform.state, r, value) == GpioBase.Read(platform.ops, old(platform.state), pin, outIsNull)
    {
      var res := GpioBase.Read(platform.ops, platform.state, pin, outIsNull);
      platform.state, r, value := res.0, res.1, res.2;
    }

    method Toggle(platform: Platform<S>) returns (r: int)
      modifies platform
      ensures (platform.state, r) == GpioBase.Toggle(platform.ops, old(platform.state), pin)
    {
      var res := GpioBase.Toggle(platform.ops, platform.state, pin);
      platform.state, r := res.0, res.1;
    }

    /** Move construction: takes the other's pin and leaves it holding -1. */
    constructor Move(other: GpioPin<S>)
      modifies other
      ensures pin == old(other.pin) && other.pin == -1
    {
      pin := other.pin;
      new;
      other.pin := -1;
    }

    /** Move assignment: as move construction, except that assigning a pin to
        itself changes nothing. */
    method MoveAssign(other: GpioPin<S>)
      modifies this, other
      ensures other == this ==> pin == old(pin)
      ensures other != this ==> pin == old(other.pin) && other.pin == -1
    {
      if this != other {
        pin := other.pin;
        other.pin := -1;
      }
    }
  }
}
