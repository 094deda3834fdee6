/** Vocabulary shared by every layer of the HAL: fixed-width integers, the outcome
    codes of hal_error.h and the peripheral types of hal_types.h. */
module HalTypes {

  type u8 = x: int | 0 <= x < 0x100
  type u32 = x: int | 0 <= x < 0x1_0000_0000
  type u64 = x: int | 0 <= x < 0x1_0000_0000_0000_0000

  /** An element of a `uint8_t` buffer. */
  type Byte = u8

  const U32_MODULUS: int := 0x1_0000_0000
  const U64_MODULUS: int := 0x1_0000_0000_0000_0000

  /* Outcome codes. The numeric values come from a table (hal_errors.def) that is
     not part of this model: every code below is a distinct negative number and
     HAL_OK is 0, and no proof depends on more than that. */
  const HAL_OK: int := 0
  const HAL_ERR_PARAM: int := -1
  const HAL_ERR_NODEV: int := -2

  /** hal_gpio_mode_t */
  datatype GpioMode = Input | InputPullUp | InputPullDown | Output | OutputOpenDrain

  /** hal_gpio_value_t */
  datatype GpioValue = Low | High

  /** hal_uart_config_t */
  datatype UartConfig = UartConfig(baudrate: int, dataBits: int, stopBits: int, parity: int)

  /** hal_handle_t: an opaque pointer that is either null or names an open port. */
  datatype Handle = Null | Ptr(address: nat)
}
