/** Machine words, kernel error numbers and the outcomes of the library calls
    (text parsing, user-space copies) that the drivers and the control loop
    rely on but whose code is not part of this model. */
module Words {

  datatype Option<T> = None | Some(value: T)

  /** C's fixed-width unsigned integers, as bounded naturals. */
  type u8 = x: int | 0 <= x < 0x100
  type u16 = x: int | 0 <= x < 0x1_0000
  type u32 = x: int | 0 <= x < 0x1_0000_0000

  /** Linux error numbers used by the drivers (include/uapi/asm-generic/errno-base.h). */
  const EFAULT: int := 14
  const EINVAL: int := 22

  /** A negative error return such as `kstrtou32` reports on bad input. */
  type NegErrno = e: int | e < 0 witness -EINVAL

  /** Result of parsing a sysfs text buffer into the domain `T`
      (`kstrtou32`, `kstrtou8`): the parsed value, or the negative error code. */
  datatype Parse<T> = Parsed(value: T) | Invalid(code: NegErrno)

  /** `v & 0x0000FFFF` on a 32-bit word: the low half-word. */
  function Low16(v: u32): (r: u16)
    ensures r <= v
    ensures v < 0x1_0000 ==> r == v
    ensures (v - r) % 0x1_0000 == 0
  {
    v % 0x1_0000
  }

  /** The implicit conversion of a 32-bit word to `u8`: the low byte. */
  function Low8(v: u32): (r: u8)
    ensures r <= v
    ensures v < 0x100 ==> r == v
    ensures (v - r) % 0x100 == 0
  {
    v % 0x100
  }
}
