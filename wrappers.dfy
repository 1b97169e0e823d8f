/** Small failure-carrying datatypes shared by the whole model. */
module Wrappers {

  /** `Option<T>` of the source: `None` stands for a null pointer or a missing value. */
  datatype Option<+T> = None | Some(value: T)

  /** `Result<T, E>` of the source. */
  datatype Result<+T, +E> = Ok(value: T) | Err(error: E)

  /**
   * The outcome of an operation that may panic (`expect`, `panic!`, an
   * overflow check).  A panic is a fatal contract violation in the source; the
   * model makes it an explicit value so that contracts can say when it happens.
   */
  datatype Outcome<+T> = Returned(value: T) | Panicked(reason: PanicReason)

  /** Why an operation panicked; one constructor per panic site of the core. */
  datatype PanicReason =
    | IndexOutOfBounds      // `CWideStr` suffix index past the terminator
    | NullPointer           // a foreign call reported success but returned null
    | LengthTooLongForU32   // `FileFilters::len()` does not fit in a `u32`
    | FilePartBeforeBuffer  // `file_part - path.as_ptr()` underflows
    | InteriorNulInPath     // the resolved buffer fails `from_vec_with_nul`
}
