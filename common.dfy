/** Value types shared by every module of the model: Rust's `Option` and
    `Result`, and the fixed-width unsigned integers the host commands take. */
module Common {

  datatype Option<+T> = None | Some(value: T)

  /** A host command's reply: `Ok` carries the value, `Err` the error text. */
  datatype Result<+T, +E> = Ok(value: T) | Err(error: E)

  /** Rust `u8` and `u32`: serde rejects out-of-range numbers before a command runs. */
  type u8 = x: int | 0 <= x < 0x100
  type u32 = x: int | 0 <= x < 0x1_0000_0000
}
