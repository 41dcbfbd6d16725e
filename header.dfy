/**
 * The header checks run before the index table is read
 * (src/lib.rs:298-404).
 *
 * Offsets are byte positions from the start of the data:
 *   0..1 header size (u16), 2..3 magic 0xDA 0x27, 4..5 data-info size (u16),
 *   8 endianness flag, 9 charset family, 10 char size, 12..15 format tag,
 *   16..19 format version, 20..23 data version.
 * Each check seeks to its field and reads all its bytes before comparing
 * any of them, so a blob too short for a field fails with `UnexpectedEof`
 * whatever the bytes that are there.
 *
 * The functions say what each check yields for given data; the methods
 * run the check through a reader and are proved to agree with them.
 */
module Header {
  import opened Bits
  import opened Errors
  import opened Formats
  import opened Reader

  const MAGIC1: Byte := 0xda
  const MAGIC2: Byte := 0x27
  const CHARSET_FAMILY: Byte := 0
  const CHAR_SIZE: Byte := 2

  /**
   * Outcome of `check_magic`: end of data exactly when the magic bytes are
   * not both there, otherwise "not an ICU data file" when they are wrong.
   */
  function MagicStatus(data: seq<Byte>): (r: Result<()>)
    ensures r.Err? ==> (r.error == UnexpectedEof <==> |data| < 4)
    ensures r.Err? ==> r.error == UnexpectedEof || r.error == NotIcuData
  {
    if |data| < 4 then Err(UnexpectedEof)
    else if data[2] != MAGIC1 || data[3] != MAGIC2 then Err(NotIcuData)
    else Ok(())
  }

  /**
   * Outcome of `read_endianness`: the flag byte at offset 8 once 8..10 pass;
   * a flag that passes is 0 or 1.
   */
  function EndiannessFlag(data: seq<Byte>): (r: Result<Byte>)
    ensures r.Ok? ==> |data| >= 11 && r.value == data[8] && r.value <= 1
    ensures r.Err? ==> (r.error == UnexpectedEof <==> |data| < 11)
    ensures r.Err? ==> r.error == UnexpectedEof || r.error == HeaderAuthFailed
  {
    if |data| < 11 then Err(UnexpectedEof)
    else if data[8] > 1 || data[9] != CHARSET_FAMILY || data[10] != CHAR_SIZE then Err(HeaderAuthFailed)
    else Ok(data[8])
  }

  /** The order a valid flag byte selects: 1 big-endian, anything else little-endian. */
  function OrderOf(flag: Byte): (o: Order)
    ensures flag == 0 ==> o == LittleEndian
    ensures o == BigEndian <==> flag == 1
  {
    if flag == 1 then BigEndian else LittleEndian
  }

  /**
   * Outcome of `read_header_size`.  `data_info_size + 4` is evaluated only
   * once `data_info_size >= 20`, and overflows `u16` from 65532 on.
   */
  function HeaderSizeOf(order: Order, data: seq<Byte>): (r: Result<U16>)
    ensures r.Ok? ==> r.value >= 24
    ensures r.Err? ==> r.error in {UnexpectedEof, HeaderSizeError, Overflow(DataInfoSizePlusFour)}
  {
    if |data| < 6 then Err(UnexpectedEof)
    else
      var headerSize := Word16(order, data[0], data[1]);
      var dataInfoSize := Word16(order, data[4], data[5]);
      if dataInfoSize < 20 then Err(HeaderSizeError)
      else if dataInfoSize as int + 4 >= 0x1_0000 then Err(Overflow(DataInfoSizePlusFour))
      else if headerSize < dataInfoSize as int + 4 then Err(HeaderSizeError)
      else Ok(headerSize)
  }

  /**
   * First half of `validate_format_version`: the tag at 12..15 against the
   * declared format.  The source compares the four bytes with the bytes of
   * the discriminant, `(val >> 24) as u8` and so on; by `Be32Matches` that
   * is comparing their big-endian reading with the discriminant.
   */
  function TagStatus(data: seq<Byte>, format: DataFormat): (r: Result<()>)
    ensures r.Err? ==> (r.error == UnexpectedEof <==> |data| < 16)
    ensures r.Err? ==> r.error == UnexpectedEof || r.error == FormatMismatch
  {
    match QuadAt(data, 12)
    case Err(e) => Err(e)
    case Ok(df) => if Be32(df) != Discriminant(format) then Err(FormatMismatch) else Ok(())
  }

  /** The tag check passes exactly when bytes 12..15 are the declared format's tag bytes. */
  lemma TagStatusSeesTag(data: seq<Byte>, format: DataFormat)
    ensures TagStatus(data, format).Ok? <==> |data| >= 16 && (data[12], data[13], data[14], data[15]) == TagBytes(format)
  {
    if |data| >= 16 {
      Be32Matches((data[12], data[13], data[14], data[15]), Discriminant(format));
    }
  }

  /** Second half: the format version at 16..19 judged by the format's rule. */
  function VersionStatus(data: seq<Byte>, format: DataFormat): (r: Result<()>)
    ensures r.Err? ==> || r.error == UnexpectedEof || r.error == VersionRejected
                       || (format == BreakIteration && r.error == Overflow(BreakIterationShift))
  {
    match QuadAt(data, 16)
    case Err(e) => Err(e)
    case Ok(formatVersion) =>
      match IsAcceptableVersion(format, formatVersion)
      case Err(e) => Err(e)
      case Ok(accepted) => if accepted then Ok(()) else Err(VersionRejected)
  }

  /**
   * Outcome of `validate_format_version`: the tag, then the version, so a
   * tag that fails decides the outcome whatever follows it.
   */
  function FormatStatus(data: seq<Byte>, format: DataFormat): (r: Result<()>)
    ensures TagStatus(data, format).Err? ==> r == TagStatus(data, format)
    ensures r.Ok? ==> |data| >= 20
  {
    match TagStatus(data, format)
    case Err(e) => Err(e)
    case Ok(_) => VersionStatus(data, format)
  }

  /** Outcome of `read_header`: header size and the raw data version at 20..23. */
  function HeaderOf(order: Order, data: seq<Byte>, format: DataFormat): (r: Result<(U16, Quad)>)
    ensures r.Ok? ==> && |data| >= 24 && r.value.0 >= 24
                      && r.value.1 == (data[20], data[21], data[22], data[23])
    ensures HeaderSizeOf(order, data).Err? ==> r == Err(HeaderSizeOf(order, data).error)
  {
    match HeaderSizeOf(order, data)
    case Err(e) => Err(e)
    case Ok(headerSize) =>
      match FormatStatus(data, format)
      case Err(e) => Err(e)
      case Ok(_) =>
        match QuadAt(data, 20)
        case Err(e) => Err(e)
        case Ok(dataVersion) => Ok((headerSize, dataVersion))
  }

  method CheckMagic(bytes: ByteSource) returns (r: Result<()>)
    modifies bytes
    ensures r == MagicStatus(bytes.data)
    ensures r.Ok? ==> bytes.pos == 4
  {
    bytes.Seek(2);
    var magic1 :- bytes.ReadU8();
    var magic2 :- bytes.ReadU8();
    if magic1 != MAGIC1 || magic2 != MAGIC2 {
      return Err(NotIcuData);
    }
    r := Ok(());
  }

  method ReadEndianness(bytes: ByteSource) returns (r: Result<Byte>)
    modifies bytes
    ensures r == EndiannessFlag(bytes.data)
    ensures r.Ok? ==> bytes.pos == 11
  {
    bytes.Seek(8);
    var bigEndian :- bytes.ReadU8();
    var charsetFamily :- bytes.ReadU8();
    var charSize :- bytes.ReadU8();
    if bigEndian > 1 || charsetFamily != CHARSET_FAMILY || charSize != CHAR_SIZE {
      return Err(HeaderAuthFailed);
    }
    r := Ok(bigEndian);
  }

  method ReadHeaderSize(reader: OrderedReader) returns (r: Result<U16>)
    modifies reader.reader
    ensures r == HeaderSizeOf(reader.order, reader.reader.data)
    ensures r.Ok? ==> reader.reader.pos == 6
  {
    var headerSize :- reader.ReadU16From(0);
    var dataInfoSize :- reader.ReadU16From(4);
    if dataInfoSize < 20 {
      return Err(HeaderSizeError);
    }
    if dataInfoSize as int + 4 >= 0x1_0000 {
      return Err(Overflow(DataInfoSizePlusFour));
    }
    if headerSize < dataInfoSize as int + 4 {
      return Err(HeaderSizeError);
    }
    r := Ok(headerSize);
  }

  /** `validate_format_version`: seek to 12, check the tag, then the version that follows. */
  method ValidateFormatVersion(reader: OrderedReader, format: DataFormat) returns (r: Result<()>)
    modifies reader.reader
    ensures r == FormatStatus(reader.reader.data, format)
    ensures r.Ok? ==> reader.reader.pos == 20
  {
    var _ :- CheckFormatTag(reader, format);
    // the format version follows at 16, read without seeking again
    r := CheckFormatVersion(reader, format);
  }

  method CheckFormatTag(reader: OrderedReader, format: DataFormat) returns (r: Result<()>)
    modifies reader.reader
    ensures r == TagStatus(reader.reader.data, format)
    ensures r.Ok? ==> reader.reader.pos == 16
  {
    var val := Discriminant(format);
    reader.Seek(12);
    var df :- ReadQuad(reader);
    Be32Matches(df, val);
    if df.0 != (val / 0x100_0000) % 0x100 || df.1 != (val / 0x1_0000) % 0x100
       || df.2 != (val / 0x100) % 0x100 || df.3 != val % 0x100 {
      return Err(FormatMismatch);
    }
    r := Ok(());
  }

  method CheckFormatVersion(reader: OrderedReader, format: DataFormat) returns (r: Result<()>)
    requires reader.reader.pos == 16
    modifies reader.reader
    ensures r == VersionStatus(reader.reader.data, format)
    ensures r.Ok? ==> reader.reader.pos == 20
  {
    var formatVersion :- ReadQuad(reader);
    var accepted :- IsAcceptableVersion(format, formatVersion);
    if !accepted {
      return Err(VersionRejected);
    }
    r := Ok(());
  }

  method ReadDataVersion(reader: OrderedReader) returns (r: Result<Quad>)
    modifies reader.reader
    ensures r == QuadAt(reader.reader.data, 20)
    ensures r.Ok? ==> reader.reader.pos == 24
  {
    reader.Seek(20);
    r := ReadQuad(reader);
  }

  /** Four single-byte reads from the current position, as `[read_u8()?, ...]` does. */
  method ReadQuad(reader: OrderedReader) returns (r: Result<Quad>)
    modifies reader.reader
    ensures r == QuadAt(reader.reader.data, old(reader.reader.pos))
    ensures r.Ok? ==> reader.reader.pos == old(reader.reader.pos) + 4
  {
    var b0 :- reader.ReadU8();
    var b1 :- reader.ReadU8();
    var b2 :- reader.ReadU8();
    var b3 :- reader.ReadU8();
    r := Ok((b0, b1, b2, b3));
  }

  /** `read_header`: the three steps above, then a seek to the end of the header. */
  method ReadHeader(reader: OrderedReader, format: DataFormat) returns (r: Result<(U16, Quad)>)
    modifies reader.reader
    ensures r == HeaderOf(reader.order, reader.reader.data, format)
    ensures r.Ok? ==> reader.reader.pos == r.value.0
  {
    var headerSize :- ReadHeaderSize(reader);
    var _ :- ValidateFormatVersion(reader, format);
    var dataVersion :- ReadDataVersion(reader);
    reader.Seek(headerSize);
    r := Ok((headerSize, dataVersion));
  }

  /**
   * What makes `read_header_size` fail: end of data before byte 6; the size
   * error when the data-info size is below 20, or when the header size is
   * below it plus 4 and that sum fits in a `u16`; the `+ 4` overflow when
   * the data-info size is 65532 or more.
   */
  lemma HeaderSizeFailures(order: Order, data: seq<Byte>)
    ensures HeaderSizeOf(order, data) == Err(UnexpectedEof) <==> |data| < 6
    ensures |data| >= 6 ==>
      var hs := Word16(order, data[0], data[1]);
      var dis := Word16(order, data[4], data[5]);
      && (HeaderSizeOf(order, data) == Err(HeaderSizeError) <==> dis < 20 || (dis < 65532 && hs < dis + 4))
      && (HeaderSizeOf(order, data) == Err(Overflow(DataInfoSizePlusFour)) <==> dis >= 65532)
  {
  }

  /**
   * The version check rejects exactly when the rule answers false, and
   * panics exactly when the rule does.
   */
  lemma VersionFailures(data: seq<Byte>, format: DataFormat)
    ensures VersionStatus(data, format) == Err(UnexpectedEof) <==> |data| < 20
    ensures |data| >= 20 ==>
      var v := (data[16], data[17], data[18], data[19]);
      && (VersionStatus(data, format) == Err(VersionRejected) <==> IsAcceptableVersion(format, v) == Ok(false))
      && (VersionStatus(data, format) == Err(Overflow(BreakIterationShift)) <==> IsAcceptableVersion(format, v).Err?)
  {
  }

  /**
   * `read_header` checks the sizes, then the tag, then the version: once
   * the sizes pass, a failing tag check is the outcome, and with the tag
   * passing a failing version check is.
   */
  lemma HeaderCheckOrder(order: Order, data: seq<Byte>, format: DataFormat)
    requires HeaderSizeOf(order, data).Ok?
    ensures TagStatus(data, format).Err? ==> HeaderOf(order, data, format) == Err(TagStatus(data, format).error)
    ensures TagStatus(data, format).Ok? && VersionStatus(data, format).Err? ==>
      HeaderOf(order, data, format) == Err(VersionStatus(data, format).error)
    ensures TagStatus(data, format).Ok? && |data| >= 20 &&
            IsAcceptableVersion(format, (data[16], data[17], data[18], data[19])) == Ok(false) ==>
      HeaderOf(order, data, format) == Err(VersionRejected)
  {
  }

  /** A header size that passes is at least 24 and is the word at offset 0. */
  lemma HeaderSizePasses(order: Order, data: seq<Byte>)
    requires HeaderSizeOf(order, data).Ok?
    ensures |data| >= 6
    ensures HeaderSizeOf(order, data).value >= 24
    ensures HeaderSizeOf(order, data).value == Word16(order, data[0], data[1])
    ensures 20 <= Word16(order, data[4], data[5]) < 0x1_0000 - 4
    ensures Word16(order, data[0], data[1]) >= Word16(order, data[4], data[5]) + 4
  {
  }

  /** A format check that passes has seen the declared tag and an accepted version. */
  lemma FormatPasses(data: seq<Byte>, format: DataFormat)
    requires FormatStatus(data, format).Ok?
    ensures |data| >= 20
    ensures Be32((data[12], data[13], data[14], data[15])) == Discriminant(format)
    ensures IsAcceptableVersion(format, (data[16], data[17], data[18], data[19])) == Ok(true)
  {
  }

  /**
   * A header that passes is at least 24 bytes long, which covers every
   * field it reads, and carries the declared tag and an accepted version.
   */
  lemma HeaderPasses(order: Order, data: seq<Byte>, format: DataFormat)
    requires HeaderOf(order, data, format).Ok?
    ensures |data| >= 24
    ensures HeaderOf(order, data, format).value.0 >= 24
    ensures HeaderOf(order, data, format).value.0 == Word16(order, data[0], data[1])
    ensures HeaderOf(order, data, format).value.1 == (data[20], data[21], data[22], data[23])
    ensures Be32((data[12], data[13], data[14], data[15])) == Discriminant(format)
    ensures IsAcceptableVersion(format, (data[16], data[17], data[18], data[19])) == Ok(true)
  {
    HeaderSizePasses(order, data);
    FormatPasses(data, format);
  }

  /** The data with the two `u16` fields of the header byte-swapped. */
  function SwapHeaderWords(data: seq<Byte>): (r: seq<Byte>)
    requires |data| >= 6
    ensures |r| == |data|
  {
    [data[1], data[0], data[2], data[3], data[5], data[4]] + data[6..]
  }

  /** Swapping the two words turns a big-endian size check into the same little-endian one. */
  lemma SwappedSizes(data: seq<Byte>)
    requires |data| >= 6
    ensures HeaderSizeOf(BigEndian, data) == HeaderSizeOf(LittleEndian, SwapHeaderWords(data))
  {
    var swapped := SwapHeaderWords(data);
    assert swapped[0] == data[1] && swapped[1] == data[0];
    assert swapped[4] == data[5] && swapped[5] == data[4];
  }

  /** The format check and the data version look only at bytes 12 to 23. */
  lemma SameAfterSix(d1: seq<Byte>, d2: seq<Byte>, format: DataFormat)
    requires |d1| == |d2|
    requires forall i :: 6 <= i < |d1| ==> d1[i] == d2[i]
    ensures FormatStatus(d1, format) == FormatStatus(d2, format)
    ensures QuadAt(d1, 20) == QuadAt(d2, 20)
  {
    QuadsAgree(d1, d2, 12);
    assert TagStatus(d1, format) == TagStatus(d2, format);
    QuadsAgree(d1, d2, 16);
    assert VersionStatus(d1, format) == VersionStatus(d2, format);
    QuadsAgree(d1, d2, 20);
  }

  lemma QuadsAgree(d1: seq<Byte>, d2: seq<Byte>, p: nat)
    requires |d1| == |d2| && p >= 6
    requires forall i :: 6 <= i < |d1| ==> d1[i] == d2[i]
    ensures QuadAt(d1, p) == QuadAt(d2, p)
  {
  }

  /**
   * The same logical header written in either byte order reads the same:
   * only the two `u16` fields depend on the order, and every later field
   * is made of single bytes.
   */
  lemma HeaderOrderInvariant(data: seq<Byte>, format: DataFormat)
    requires |data| >= 6
    ensures HeaderOf(BigEndian, data, format) == HeaderOf(LittleEndian, SwapHeaderWords(data), format)
  {
    var swapped := SwapHeaderWords(data);
    assert forall i :: 6 <= i < |data| ==> swapped[i] == data[i];
    SwappedSizes(data);
    SameAfterSix(data, swapped, format);
  }
}
