/**
 * The ways a parse can end without a reader.
 *
 * The first seven are the `io::Error`s the parser returns; they are told
 * apart here by what raised them, since the error kind and message alone do
 * not separate them all (three different checks share the "header
 * authentication failed" message).  `Overflow` stands for a panic of the
 * debug build at one of three unchecked arithmetic sites.
 */
module Errors {

  datatype OverflowSite =
    | DataInfoSizePlusFour    // `data_info_size + 4` in u16, src/lib.rs:333
    | BundleTopMinusOne       // `read_u32()? - 1` on a zero word, src/lib.rs:241
    | BreakIterationShift     // a `u32` shift by 32 or more, src/lib.rs:86-88

  datatype Error =
    | UnexpectedEof           // a read ran past the end of the data
    | NotIcuData              // magic bytes wrong (InvalidData, "Not an ICU data file")
    | HeaderAuthFailed        // endianness, charset family or char size byte wrong (InvalidData)
    | HeaderSizeError         // header or data-info size inconsistent (InvalidData, own message)
    | FormatMismatch          // format tag differs from the declared format (InvalidInput)
    | VersionRejected         // format version not acceptable for the format (InvalidData)
    | NotEnoughIndexes        // index table too short (InvalidData)
    | Overflow(site: OverflowSite)

  /** The result of a fallible step, usable with `:-` like Rust's `?`. */
  datatype Result<+T> = Ok(value: T) | Err(error: Error) {
    predicate IsFailure() {
      Err?
    }

    function PropagateFailure<U>(): Result<U>
      requires Err?
    {
      Err(error)
    }

    function Extract(): T
      requires Ok?
    {
      value
    }
  }
}
