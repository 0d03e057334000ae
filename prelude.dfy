/** Rust's `Option` and `Result`, and the fixed-width integer types the C interface uses. */
module Prelude {

  datatype Option<T> = None | Some(value: T)

  datatype Result<T, E> = Ok(value: T) | Err(error: E)

  /** One byte of a C string (`c_char` read as unsigned). */
  type Byte = x: int | 0 <= x < 0x100

  /** `c_short` */
  type Int16 = x: int | -0x8000 <= x < 0x8000

  /** `c_int` */
  type Int32 = x: int | -0x8000_0000 <= x < 0x8000_0000

  /** `c_uint` */
  type Uint32 = x: int | 0 <= x < 0x1_0000_0000

  /** `i64` */
  type Int64 = x: int | -0x8000_0000_0000_0000 <= x < 0x8000_0000_0000_0000
}
