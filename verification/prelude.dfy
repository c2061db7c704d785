/**
 * Shared vocabulary: the crate's `Result` alias, `Option`, and the fixed-width
 * integers the metadata records use.
 */
module Prelude {

  datatype Option<+T> = None | Some(value: T)

  /**
   * An error surfaced by a decoder or by an importer. The core never builds
   * or inspects one; it only passes it up.
   */
  datatype Error = Error(message: string)

  /** `crate::error::Result<T>`: a value or an `Error`. */
  datatype Result<+T> = Ok(value: T) | Err(error: Error)

  type byte = bv8

  type u32 = n: int | 0 <= n < 0x1_0000_0000

  type u64 = n: int | 0 <= n < 0x1_0000_0000_0000_0000
}
