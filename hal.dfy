/** The exception-raising C++ wrapper over the HAL: every negative outcome
    becomes an Error carrying that outcome, a pin is configured when it is
    constructed, and a Uart exists only if its port opened. Raising an
    exception is modelled by returning Fail/Failure; a constructor that raises
    is a factory method whose Failure means no object was made. The C entry
    points it calls reach GpioBase and UartBase of the selected platform. */
module Hal {
  import opened HalTypes
  import opened Wrappers
  import GpioBase
  import UartBase
  import GpioImpl
  import UartImpl

  /** Error(code): the exception, which hands back through code() exactly the
      code it was built from. */
  datatype Error = Error(code: int)

  /** check(result): raises an Error carrying `result` exactly when it is
      negative, and does nothing otherwise. */
  function Check(result: int): (o: Outcome<Error>)
    ensures o.Fail? <==> result < 0
    ensures o.Fail? ==> o.error.code == result
  {
    if result < 0 then Fail(Error(result)) else Pass
  }

  /** The counting calls (write, read, available): a negative outcome is
      raised as an Error carrying it; any other is the count returned. */
  function Counted(ret: int): (r: Result<int, Error>)
    ensures r.Success? <==> Check(ret).Pass?
    ensures r.Success? ==> r.value == ret && r.value >= 0
    ensures r.Failure? ==> r.error == Check(ret).error
  {
    if ret < 0 then Failure(Error(ret)) else Success(ret)
  }

  class GpioPin<S> {
    const pin: int

    constructor Bind(pin: int)
      ensures this.pin == pin
    {
      this.pin := pin;
    }

    /** GpioPin(pin, mode): configures the pin and raises when that fails, in
        which case no pin object exists. */
    static method Configure(platform: GpioImpl.Platform<S>, pin: int, mode: GpioMode) returns (r: Result<GpioPin<S>, Error>)
      modifies platform
      ensures var (s, ret) := GpioBase.Mode(platform.ops, old(platform.state), pin, mode);
              && platform.state == s
              && (r.Failure? <==> Check(ret).Fail?)
              && (r.Failure? ==> r.error == Error(ret))
              && (r.Success? ==> fresh(r.value) && r.value.pin == pin)
    {
      var (s, ret) := GpioBase.Mode(platform.ops, platform.state, pin, mode);
      platform.state := s;
      var o := Check(ret);
      if o.Fail? {
        return Failure(o.error);
      }
      var p := new GpioPin.Bind(pin);
      r := Success(p);
    }

    /** write(value): raises the write's error, if any. */
    method Write(platform: GpioImpl.Platform<S>, value: GpioValue) returns (o: Outcome<Error>)
      modifies platform
      ensures var (s, ret) := GpioBase.Write(platform.ops, old(platform.state), pin, value);
              platform.state == s && o == Check(ret)
    {
      var (s, ret) := GpioBase.Write(platform.ops, platform.state, pin, value);
      platform.state := s;
      o := Check(ret);
    }

    /** read(): the level read into a local, or the read's error raised. */
    method Read(platform: GpioImpl.Platform<S>) returns (r: Result<GpioValue, Error>)
      modifies platform
      ensures var (s, ret, value) := GpioBase.Read(platform.ops, old(platform.state), pin, false);
              && platform.state == s
              && (r.Failure? <==> ret < 0)
              && (r.Failure? ==> r.error == Error(ret))
              && (r.Success? ==> r.value == value)
    {
      var (s, ret, value) := GpioBase.Read(platform.ops, platform.state, pin, false);
      platform.state := s;
      var o := Check(ret);
      if o.Fail? {
        return Failure(o.error);
      }
      r := Success(value);
    }

    /** toggle(): raises the toggle's error, if any. */
    method Toggle(platform: GpioImpl.Platform<S>) returns (o: Outcome<Error>)
      modifies platform
      ensures var (s, ret) := GpioBase.Toggle(platform.ops, old(platform.state), pin);
              platform.state == s && o == Check(ret)
    {
      var (s, ret) := GpioBase.Toggle(platform.ops, platform.state, pin);
      platform.state := s;
      o := Check(ret);
    }
  }

  class Uart<S> {
    var handle: Handle

    constructor Own(handle: Handle)
      ensures this.handle == handle
    {
      this.handle := handle;
    }

    /** Uart(port, config): opens the port and raises HAL_ERR_NODEV when open
        gives the null handle, in which case no Uart exists; a Uart that does
        exist therefore always starts with a handle. */
    static method Open(platform: UartImpl.Platform<S>, port: int, config: UartConfig) returns (r: Result<Uart<S>, Error>)
      modifies platform
      ensures var (s, h) := UartBase.Open(platform.ops, old(platform.state), port, Some(config));
              && platform.state == s
              && (r.Failure? <==> h == Null)
              && (r.Failure? ==> r.error == Error(HAL_ERR_NODEV))
              && (r.Success? ==> fresh(r.value) && r.value.handle == h)
    {
      var (s, h) := UartBase.Open(platform.ops, platform.state, port, Some(config));
      platform.state := s;
      if h == Null {
        return Failure(Error(HAL_ERR_NODEV));
      }
      var u := new Uart.Own(h);
      r := Success(u);
    }

    /** ~Uart(): closes the handle only when there is one. */
    method Destroy(platform: UartImpl.Platform<S>)
      modifies platform
      ensures handle == Null ==> platform.state == old(platform.state)
      ensures handle != Null ==> platform.state == platform.ops.closeImpl(old(platform.state), handle).0
    {
      if handle != Null {
        var (s, _) := UartBase.Close(platform.ops, platform.state, handle);
        platform.state := s;
      }
    }

    /** Move construction: takes the other's handle and leaves it null. */
    constructor Move(other: Uart<S>)
      modifies other
      ensures handle == old(other.handle) && other.handle == Null
    {
      handle := other.handle;
      new;
      other.handle := Null;
    }

    /** Move assignment: closes the handle held so far (if any) before taking
        the other's and leaving it null; assigning to itself changes nothing. */
    method MoveAssign(platform: UartImpl.Platform<S>, other: Uart<S>)
      modifies this, other, platform
      ensures other == this ==> handle == old(handle) && platform.state == old(platform.state)
      ensures other != this ==> handle == old(other.handle) && other.handle == Null
      ensures other != this && old(handle) == Null ==> platform.state == old(platform.state)
      ensures other != this && old(handle) != Null ==>
                platform.state == platform.ops.closeImpl(old(platform.state), old(handle)).0
    {
      if this != other {
        if handle != Null {
          var (s, _) := UartBase.Close(platform.ops, platform.state, handle);
          platform.state := s;
        }
        handle := other.handle;
        other.handle := Null;
      }
    }

    /** write(buf, len): the bytes written, or the write's error raised. */
    method Write(platform: UartImpl.Platform<S>, buf: Option<seq<Byte>>) returns (r: Result<int, Error>)
      modifies platform
      ensures var (s, ret) := UartBase.Write(platform.ops, old(platform.state), handle, buf);
              platform.state == s && r == Counted(ret)
    {
      var (s, ret) := UartBase.Write(platform.ops, platform.state, handle, buf);
      platform.state := s;
      r := Counted(ret);
    }

    /** read(buf, len): the bytes read (and what was stored in `buf`), or the
        read's error raised. */
    method Read(platform: UartImpl.Platform<S>, bufIsNull: bool, len: nat) returns (r: Result<int, Error>, data: seq<Byte>)
      modifies platform
      ensures var (s, ret, bytes) := UartBase.Read(platform.ops, old(platform.state), handle, bufIsNull, len);
              platform.state == s && r == Counted(ret) && data == bytes
    {
      var (s, ret, bytes) := UartBase.Read(platform.ops, platform.state, handle, bufIsNull, len);
      platform.state := s;
      r, data := Counted(ret), bytes;
    }

    /** available(): the bytes pending, or the query's error raised. */
    method Available(platform: UartImpl.Platform<S>) returns (r: Result<int, Error>)
      modifies platform
      ensures var (s, ret) := UartBase.Available(platform.ops, old(platform.state), handle);
              platform.state == s && r == Counted(ret)
    {
      var (s, ret) := UartBase.Available(platform.ops, platform.state, handle);
      platform.state := s;
      r := Counted(ret);
    }
  }
}
