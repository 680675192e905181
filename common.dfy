/** Fixed-width unsigned integer types and an option type shared by the controller and firmware models. */
module Common {
  /** `uint8_t` in the firmware; one element of a Python `bytes` value on the controller. */
  type byte = x: int | 0 <= x < 0x100
  /** `uint16_t` */
  type uint16 = x: int | 0 <= x < 0x1_0000
  /** `uint32_t` */
  type uint32 = x: int | 0 <= x < 0x1_0000_0000

  /** Arithmetic on `uint32_t` is modulo this value. */
  const UINT32_MODULUS: int := 0x1_0000_0000

  datatype Option<+T> = None | Some(value: T)
}
