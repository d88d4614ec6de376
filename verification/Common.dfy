/** Vocabulary shared by every part of the model. */
module Common {

  datatype Option<+T> = None | Some(value: T)

  datatype Result<+T, +E> = Ok(value: T) | Err(error: E)

  type byte = b: int | 0 <= b < 0x100

  /** One past the largest `u32`. */
  const WORD: nat := 0x1_0000_0000

  type u32 = n: nat | n < WORD

  /** A Linux `int` as carried by the protocol: 32 bits, two's complement. */
  type i32 = n: int | -0x8000_0000 <= n < 0x8000_0000

  datatype Direction = Out | In
}
