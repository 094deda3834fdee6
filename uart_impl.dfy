/** UartBase: the platform-independent UART layer. Each operation checks its
    handle and pointers and, when they pass, hands the call to the platform. */
module UartBase {
  import opened HalTypes
  import opened Wrappers

  /** The UART primitives a platform supplies (max_uart_ports, uart_open_impl,
      uart_close_impl, uart_write_impl, uart_read_impl, uart_available_impl),
      acting on the platform's port state `S`. A read hands back the bytes it
      stored in the destination buffer. */
  datatype UartOps<!S> = UartOps(
    maxPorts: int,
    openImpl: (S, int, UartConfig) -> (S, Handle),
    closeImpl: (S, Handle) -> (S, int),
    writeImpl: (S, Handle, seq<Byte>) -> (S, int),
    readImpl: (S, Handle, nat) -> (S, int, seq<Byte>),
    availableImpl: (S, Handle) -> (S, int))

  /** open(port, config): a null configuration or a port outside
      [0, max_uart_ports) gives the null handle without calling the platform. */
  function Open<S>(ops: UartOps<S>, s: S, port: int, config: Option<UartConfig>): (r: (S, Handle))
    ensures config.None? || !(0 <= port < ops.maxPorts) ==> r == (s, Null)
    ensures config.Some? && 0 <= port < ops.maxPorts ==> r == ops.openImpl(s, port, config.value)
  {
    if config.None? || port < 0 || port >= ops.maxPorts then (s, Null)
    else ops.openImpl(s, port, config.value)
  }

  /** close(handle): the null handle is refused with HAL_ERR_PARAM. */
  function Close<S>(ops: UartOps<S>, s: S, handle: Handle): (r: (S, int))
    ensures handle == Null ==> r == (s, HAL_ERR_PARAM)
    ensures handle != Null ==> r == ops.closeImpl(s, handle)
  {
    if handle.Null? then (s, HAL_ERR_PARAM) else ops.closeImpl(s, handle)
  }

  /** write(handle, buf, len): a null handle or a null buffer (`buf` None) is
      refused with HAL_ERR_PARAM; the platform reports the bytes written. */
  function Write<S>(ops: UartOps<S>, s: S, handle: Handle, buf: Option<seq<Byte>>): (r: (S, int))
    ensures handle == Null || buf.None? ==> r == (s, HAL_ERR_PARAM)
    ensures handle != Null && buf.Some? ==> r == ops.writeImpl(s, handle, buf.value)
  {
    if handle.Null? || buf.None? then (s, HAL_ERR_PARAM)
    else ops.writeImpl(s, handle, buf.value)
  }

  /** read(handle, buf, len): a null handle or a null destination is refused with
      HAL_ERR_PARAM and nothing is read. */
  function Read<S>(ops: UartOps<S>, s: S, handle: Handle, bufIsNull: bool, len: nat): (r: (S, int, seq<Byte>))
    ensures handle == Null || bufIsNull ==> r == (s, HAL_ERR_PARAM, [])
    ensures handle != Null && !bufIsNull ==> r == ops.readImpl(s, handle, len)
  {
    if handle.Null? || bufIsNull then (s, HAL_ERR_PARAM, [])
    else ops.readImpl(s, handle, len)
  }

  /** available(handle): the null handle is refused with HAL_ERR_PARAM. */
  function Available<S>(ops: UartOps<S>, s: S, handle: Handle): (r: (S, int))
    ensures handle == Null ==> r == (s, HAL_ERR_PARAM)
    ensures handle != Null ==> r == ops.availableImpl(s, handle)
  {
    if handle.Null? then (s, HAL_ERR_PARAM) else ops.availableImpl(s, handle)
  }
}

/** Uart: the owner of one open handle. It is opened when constructed, closed when
    destroyed, and can be moved but not copied, so a handle has one owner. */
module UartImpl {
  import opened HalTypes
  import opened Wrappers
  import UartBase

  /** The platform selected at build time: its UART primitives and the static
      storage they act on. */
  class Platform<S> {
    const ops: UartBase.UartOps<S>
    var state: S

    constructor (ops: UartBase.UartOps<S>, state: S)
      ensures this.ops == ops && this.state == state
    {
      this.ops := ops;
      this.state := state;
    }
  }

  class Uart<S> {
    var handle: Handle

    /** Uart(port, config): holds whatever open returns, the null handle included. */
    constructor (platform: Platform<S>, port: int, config: Option<UartConfig>)
      modifies platform
      ensures (platform.state, handle) == UartBase.Open(platform.ops, old(platform.state), port, config)
    {
      var res := UartBase.Open(platform.ops, platform.state, port, config);
      handle := res.1;
      new;
      platform.state := res.0;
    }

    /** is_open(): holds exactly when the handle is not null. */
    function IsOpen(): (b: bool)
      reads this
      ensures b <==> handle != Null
    {
      handle.Ptr?
    }

    /** ~Uart(): closes the handle when there is one; the outcome is discarded.
        A null handle leaves the platform untouched. */
    method Destroy(platform: Platform<S>)
      modifies platform
      ensures handle == Null ==> platform.state == old(platform.state)
      ensures handle != Null ==> platform.state == platform.ops.closeImpl(old(platform.state), handle).0
    {
      if handle != Null {
        var res := UartBase.Close(platform.ops, platform.state, handle);
        platform.state := res.0;
      }
    }

    method Write(platform: Platform<S>, buf: Option<seq<Byte>>) returns (r: int)
      modifies platform
      ensures (platform.state, r) == UartBase.Write(platform.ops, old(platform.state), handle, buf)
    {
      var res := UartBase.Write(platform.ops, platform.state, handle, buf);
      platform.state, r := res.0, res.1;
    }

    method Read(platform: Platform<S>, bufIsNull: bool, len: nat) returns (r: int, data: seq<Byte>)
      modifies platform
      ensures (platform.state, r, data) == UartBase.Read(platform.ops, old(platform.state), handle, bufIsNull, len)
    {
      var res := UartBase.Read(platform.ops, platform.state, handle, bufIsNull, len);
      platform.state, r, data := res.0, res.1, res.2;
    }

    method Available(platform: Platform<S>) returns (r: int)
      modifies platform
      ensures (platform.state, r) == UartBase.Available(platform.ops, old(platform.state), handle)
    {
      var res := UartBase.Available(platform.ops, platform.state, handle);
      platform.state, r := res.0, res.1;
    }

    /** Move construction: takes the other's handle and leaves it null, so the
        handle is still owned once. */
    constructor Move(other: Uart<S>)
      modifies other
      ensures handle == old(other.handle) && other.handle == Null
    {
      handle := other.handle;
      new;
      other.handle := Null;
    }

    /** Move assignment: closes the handle held so far (if any), takes the other's
        handle and leaves it null; assigning a Uart to itself changes nothing. */
    method MoveAssign(platform: Platform<S>, other: Uart<S>)
      modifies this, other, platform
      ensures other == this ==> handle == old(handle) && platform.state == old(platform.state)
      ensures other != this ==> handle == old(other.handle) && other.handle == Null
      ensures other != this && old(handle) == Null ==> platform.state == old(platform.state)
      ensures other != this && old(handle) != Null ==>
                platform.state == platform.ops.closeImpl(old(platform.state), old(handle)).0
    {
      if this != other {
        if handle != Null {
          var res := UartBase.Close(platform.ops, platform.state, handle);
          platform.state := res.0;
        }
        handle := other.handle;
        other.handle := Null;
      }
    }
  }
}
