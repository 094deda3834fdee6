/** The capability descriptor: a static, read-only record of the resources a
    platform offers, and the lookup that returns it. */
module Capabilities {
  import opened HalTypes
  import opened Wrappers

  type Flag = x: int | 0 <= x < 2
  type Reserved = x: int | 0 <= x < 8

  /** hal_capabilities_t: four counts and the one-bit feature flags. */
  datatype Descriptor = Descriptor(
    gpioCount: u8, uartCount: u8, spiCount: u8, i2cCount: u8,
    hasAdc: Flag, hasDac: Flag, hasPwm: Flag, hasRtc: Flag, hasDma: Flag,
    reserved: Reserved)

  predicate AllZero(d: Descriptor) {
    && d.gpioCount == 0 && d.uartCount == 0 && d.spiCount == 0 && d.i2cCount == 0
    && d.hasAdc == 0 && d.hasDac == 0 && d.hasPwm == 0 && d.hasRtc == 0 && d.hasDma == 0
    && d.reserved == 0
  }

  /** The descriptor of the default provider: no resources and no features. */
  function DefaultCapabilities(): (d: Descriptor)
    ensures AllZero(d)
  {
    Descriptor(0, 0, 0, 0, 0, 0, 0, 0, 0, 0)
  }

  /** hal_platform_capabilities: the provider a port links in (`linked`), or the
      default one when no port provides its own. Each provider returns the same
      static descriptor on every call, so it is a value here. */
  function PlatformCapabilities(linked: Option<Descriptor>): (d: Descriptor)
    ensures linked.None? ==> AllZero(d)
    ensures linked.Some? ==> d == linked.value
  {
    match linked
    case None => DefaultCapabilities()
    case Some(provided) => provided
  }

  /** hal_get_capabilities: exactly what the platform provider returns. */
  function GetCapabilities(linked: Option<Descriptor>): (d: Descriptor)
    ensures d == PlatformCapabilities(linked)
    ensures linked.None? ==> AllZero(d)
  {
    PlatformCapabilities(linked)
  }
}
