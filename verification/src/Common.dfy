/** Wrappers and machine limits shared by every component. */
module Common {
  datatype Option<+T> = None | Some(value: T)

  datatype Result<+T, +E> = Ok(value: T) | Err(error: E)

  /** `u64::MAX`. */
  const U64_MAX: nat := 0xFFFF_FFFF_FFFF_FFFF

  /** The most elements a vector can hold (`isize::MAX`). */
  const VEC_MAX: nat := 0x7FFF_FFFF_FFFF_FFFF
}
