/** Machine-level vocabulary shared by the firmware models: fixed-width
    unsigned integers, NUL-free C strings and an optional value. */
module Common {

  /** An unsigned 8-bit value (C `uint8_t`). */
  type byte = x: int | 0 <= x < 0x100

  /** An unsigned 16-bit value (C `uint16_t`). */
  type u16 = x: int | 0 <= x < 0x1_0000

  /** The contents of a NUL-terminated C string, without its terminator. */
  type CString = s: string | forall i :: 0 <= i < |s| ==> s[i] != '\0'

  /** A pointer that may be NULL, or a getter that may fail. */
  datatype Option<+T> = None | Some(value: T)

  /** 2 to the power `k`. */
  function Pow2(k: nat): (r: nat)
    ensures r >= 1
  {
    if k == 0 then 1 else 2 * Pow2(k - 1)
  }

  /** Truncation of a C integer expression to `uint8_t`. */
  function ToByte(x: int): byte
  {
    x % 0x100
  }

  /** Truncation of a C integer expression to `uint16_t`. */
  function ToU16(x: int): u16
  {
    x % 0x1_0000
  }

  /** Truncation leaves a value that already fits unchanged. */
  lemma ToU16Fits(x: int)
    requires 0 <= x < 0x1_0000
    ensures ToU16(x) == x
  {
  }

  /** Truncation never makes a non-negative value larger. */
  lemma ToU16Shrinks(x: int)
    requires 0 <= x
    ensures ToU16(x) <= x
  {
  }
}
