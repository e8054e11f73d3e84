/** Result and Option values and the fixed-width machine integers that cross
    the boundary between the Rust wrapper and the C library. */
module FfiTypes {

  /** Rust's `Result<T, E>`. */
  datatype Result<+T, +E> = Success(value: T) | Failure(error: E)

  /** Rust's `Option<T>`; a C pointer argument that may be null is `None`. */
  datatype Option<+T> = None | Some(value: T)

  /** Rust's `u8`, a byte. */
  newtype u8 = x: int | 0 <= x < 0x100

  /** C's `int` as bound by the FFI layer (`c_int`, 32 bits, signed). */
  newtype c_int = x: int | -0x8000_0000 <= x < 0x8000_0000

  /** Rust's `usize` on a 64-bit target. */
  newtype usize = x: int | 0 <= x < 0x1_0000_0000_0000_0000
}
