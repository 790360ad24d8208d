/** Small shared vocabulary: bytes, optional values, results and the `as u32` cast. */
module Common {

  /** A Rust `u8`. */
  newtype byte = x: int | 0 <= x < 256

  datatype Option<+T> = None | Some(value: T)

  /** Rust's `Result`: `Ok` carries the value, `Err` the error. */
  datatype Result<+T, +E> = Ok(value: T) | Err(error: E)

  const U32Modulus: nat := 0x1_0000_0000

  /** The Rust cast `n as u32` of a `usize`: it keeps the low 32 bits. */
  function AsU32(n: nat): (r: nat)
    ensures r < U32Modulus
    ensures n < U32Modulus ==> r == n
  {
    n % U32Modulus
  }
}
