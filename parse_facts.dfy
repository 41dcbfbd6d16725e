/**
 * What `try_init` accepts and what it extracts, stated on `Parse` in
 * terms of byte positions in the data.
 */
module ParseFacts {
  import opened Bits
  import opened Errors
  import opened Versions
  import opened Formats
  import opened Reader
  import opened Header
  import opened Bundle

  /** The `u32` whose bytes start at `p`, in the order `order`. */
  function WordAt(order: Order, data: seq<Byte>, p: nat): U32
    requires p + 4 <= |data|
  {
    Word32(order, (data[p], data[p + 1], data[p + 2], data[p + 3]))
  }

  /** Bytes 0..10 pass the magic and authentication checks. */
  predicate PrefixWellFormed(data: seq<Byte>) {
    && |data| >= 11
    && data[2] == MAGIC1 && data[3] == MAGIC2
    && data[8] <= 1 && data[9] == CHARSET_FAMILY && data[10] == CHAR_SIZE
  }

  /** The header sizes are consistent and the tag and format version pass. */
  predicate HeaderWellFormed(order: Order, data: seq<Byte>, format: DataFormat) {
    && |data| >= 24
    && var headerSize := Word16(order, data[0], data[1]);
       var dataInfoSize := Word16(order, data[4], data[5]);
       && 20 <= dataInfoSize < 0x1_0000 - 4
       && headerSize >= dataInfoSize + 4
       && Be32((data[12], data[13], data[14], data[15])) == Discriminant(format)
       && IsAcceptableVersion(format, (data[16], data[17], data[18], data[19])) == Ok(true)
  }

  /**
   * The table words are present, the length byte is above 4 and the
   * bundle-top word is not 0.
   */
  predicate TableWellFormed(order: Order, data: seq<Byte>, headerSize: nat) {
    && |data| >= headerSize + 11
    && |data| > 16
    && WordAt(order, data, headerSize + 4) % 0x100 > 4
    && WordAt(order, data, headerSize + 7) != 0
    && (WordAt(order, data, headerSize + 4) % 0x100 > 5 ==> |data| >= headerSize + 13)
  }

  /**
   * An independent statement of what the parser accepts: every field it
   * reads is present and passes its check.
   */
  predicate WellFormed(data: seq<Byte>, format: DataFormat) {
    && PrefixWellFormed(data)
    && var order := OrderOf(data[8]);
       && HeaderWellFormed(order, data, format)
       && TableWellFormed(order, data, Word16(order, data[0], data[1]))
  }

  lemma PrefixOkIff(data: seq<Byte>)
    ensures (MagicStatus(data).Ok? && EndiannessFlag(data).Ok?) <==> PrefixWellFormed(data)
  {
  }

  lemma HeaderOkIff(order: Order, data: seq<Byte>, format: DataFormat)
    ensures HeaderOf(order, data, format).Ok? <==> HeaderWellFormed(order, data, format)
    ensures HeaderOf(order, data, format).Ok? ==> HeaderOf(order, data, format).value.0 == Word16(order, data[0], data[1])
  {
    if HeaderOf(order, data, format).Ok? {
      HeaderPasses(order, data, format);
      HeaderSizePasses(order, data);
    }
    if HeaderWellFormed(order, data, format) {
      WellFormedHeaderPasses(order, data, format);
    }
  }

  /** A well-formed header passes with its size word and data version. */
  lemma WellFormedHeaderPasses(order: Order, data: seq<Byte>, format: DataFormat)
    requires HeaderWellFormed(order, data, format)
    ensures HeaderOf(order, data, format) == Ok((Word16(order, data[0], data[1]), (data[20], data[21], data[22], data[23])))
  {
    assert HeaderSizeOf(order, data) == Ok(Word16(order, data[0], data[1]));
    assert TagStatus(data, format) == Ok(());
    assert FormatStatus(data, format) == Ok(());
  }

  lemma TableOkIff(order: Order, data: seq<Byte>, headerSize: U16, dataVersion: Quad)
    requires headerSize >= 24
    ensures IndexTableOf(order, data, headerSize, dataVersion).Ok? <==> TableWellFormed(order, data, headerSize)
  {
  }

  /** Everything a successful table read takes from the data. */
  lemma TableFields(order: Order, data: seq<Byte>, headerSize: U16, dataVersion: Quad)
    requires headerSize >= 24
    requires IndexTableOf(order, data, headerSize, dataVersion).Ok?
    ensures TableWellFormed(order, data, headerSize)
    ensures var b := IndexTableOf(order, data, headerSize, dataVersion).value;
      var indexes0 := WordAt(order, data, headerSize + 4);
      && b.order == order && b.headerSize == headerSize && b.dataVersion == dataVersion
      && b.rootResource == WordAt(order, data, headerSize)
      && b.indexesLength == indexes0 % 0x100
      && b.maxOffset == WordAt(order, data, headerSize + 7) - 1
      && AttributesOf(order, data, headerSize, b.indexesLength, InitialLimit(data[16], indexes0)) == Ok(b.attributes)
      && b.keys == KeyTableOf(b.indexesLength, WordAt(order, data, headerSize + 5), b.attributes.isPoolBundle)
  {
    TableOkIff(order, data, headerSize, dataVersion);
  }

  /** A successful parse is the table read after a passing header. */
  lemma ParseStages(data: seq<Byte>, format: DataFormat)
    requires Parse(data, format).Ok?
    ensures PrefixWellFormed(data)
    ensures HeaderOf(OrderOf(data[8]), data, format).Ok?
    ensures var order := OrderOf(data[8]);
      var header := HeaderOf(order, data, format).value;
      && header.0 >= 24 && |data| >= 24
      && header.0 == Word16(order, data[0], data[1])
      && header.1 == (data[20], data[21], data[22], data[23])
      && Parse(data, format) == IndexTableOf(order, data, header.0, header.1)
  {
    PrefixOkIff(data);
    HeaderPasses(OrderOf(data[8]), data, format);
  }

  /** The parse succeeds exactly on well-formed data. */
  lemma ParseSucceedsIff(data: seq<Byte>, format: DataFormat)
    ensures Parse(data, format).Ok? <==> WellFormed(data, format)
  {
    PrefixOkIff(data);
    if PrefixWellFormed(data) {
      var order := OrderOf(data[8]);
      HeaderOkIff(order, data, format);
      if HeaderOf(order, data, format).Ok? {
        HeaderPasses(order, data, format);
        var header := HeaderOf(order, data, format).value;
        TableOkIff(order, data, header.0, header.1);
      }
    }
  }

  /** The magic bytes are checked first, after reading both of them. */
  lemma MagicFirst(data: seq<Byte>, format: DataFormat)
    ensures |data| < 4 ==> Parse(data, format) == Err(UnexpectedEof)
    ensures |data| >= 4 && (data[2] != 0xda || data[3] != 0x27) ==> Parse(data, format) == Err(NotIcuData)
  {
  }

  /** Then bytes 8, 9 and 10, again all read before any is compared. */
  lemma AuthenticationSecond(data: seq<Byte>, format: DataFormat)
    requires |data| >= 4 && data[2] == 0xda && data[3] == 0x27
    ensures |data| < 11 ==> Parse(data, format) == Err(UnexpectedEof)
    ensures |data| >= 11 && (data[8] > 1 || data[9] != 0 || data[10] != 2)
            ==> Parse(data, format) == Err(HeaderAuthFailed)
  {
  }

  /**
   * Byte 8 is 0 or 1 and picks the order, and with it how the header size,
   * the data-info size and the table words are decoded.
   */
  lemma OrderFromFlag(data: seq<Byte>, format: DataFormat)
    requires Parse(data, format).Ok?
    ensures data[8] == 0 || data[8] == 1
    ensures Parse(data, format).value.order == (if data[8] == 1 then BigEndian else LittleEndian)
  {
  }

  /** Where each field of a successful parse comes from. */
  lemma ParsedFields(data: seq<Byte>, format: DataFormat)
    requires Parse(data, format).Ok?
    ensures var b := Parse(data, format).value;
      && b.headerSize == Word16(b.order, data[0], data[1])
      && |data| >= b.headerSize + 11
      && b.dataVersion == (data[20], data[21], data[22], data[23])
      && b.rootResource == WordAt(b.order, data, b.headerSize)
      && b.indexesLength == (if b.order == BigEndian then data[b.headerSize + 7] else data[b.headerSize + 4])
      && b.indexesLength > 4
      && b.maxOffset == WordAt(b.order, data, b.headerSize + 7) - 1
      && b.keys.keysTop == WordAt(b.order, data, b.headerSize + 5)
      && b.keys.keysBottom == 1 + b.indexesLength
  {
    ParseStages(data, format);
    var order := OrderOf(data[8]);
    var header := HeaderOf(order, data, format).value;
    TableFields(order, data, header.0, header.1);
  }

  /**
   * Once the header has passed and the length word is there, the parse
   * fails with "not enough indexes" exactly when its low byte is at most 4.
   */
  lemma LengthGate(data: seq<Byte>, format: DataFormat)
    requires MagicStatus(data).Ok? && EndiannessFlag(data).Ok?
    requires HeaderOf(OrderOf(data[8]), data, format).Ok?
    requires |data| >= HeaderOf(OrderOf(data[8]), data, format).value.0 + 8
    ensures var order := OrderOf(data[8]);
            var hs := HeaderOf(order, data, format).value.0;
            Parse(data, format) == Err(NotEnoughIndexes) <==> WordAt(order, data, hs + 4) % 0x100 <= 4
  {
    ParseSteps(data, format);
    var order := OrderOf(data[8]);
    var header := HeaderOf(order, data, format).value;
    assert Parse(data, format) == IndexTableOf(order, data, header.0, header.1);
    IndexTableGate(order, data, header.0, header.1);
  }

  /** The table read fails on its length exactly when the low byte of `indexes_0` is at most 4. */
  lemma IndexTableGate(order: Order, data: seq<Byte>, headerSize: U16, dataVersion: Quad)
    requires |data| >= headerSize + 8
    ensures IndexTableOf(order, data, headerSize, dataVersion) == Err(NotEnoughIndexes)
        <==> WordAt(order, data, headerSize + 4) % 0x100 <= 4
  {
    var indexes0 := U32At(order, data, Offset(headerSize, RES_INDEX_LENGTH));
    assert indexes0 == Ok(WordAt(order, data, headerSize + 4));
  }

  /**
   * Past the length gate, with the bundle-top word in the data, the table
   * read panics on `bundle_top - 1` exactly when that word is 0.
   */
  lemma BundleTopPanic(order: Order, data: seq<Byte>, headerSize: U16, dataVersion: Quad)
    requires |data| >= headerSize + 11
    requires WordAt(order, data, headerSize + 4) % 0x100 > 4
    ensures IndexTableOf(order, data, headerSize, dataVersion) == Err(Overflow(BundleTopMinusOne))
        <==> WordAt(order, data, headerSize + 7) == 0
  {
  }

  /** The limit taken from `indexes_0` before the attributes are merged in. */
  function IndexLimit(data: seq<Byte>, b: Bootstrap): U32
    requires |data| >= b.headerSize + 8 && |data| > 16
  {
    InitialLimit(data[16], WordAt(b.order, data, b.headerSize + 4))
  }

  /**
   * A table of five slots or fewer skips the attribute word: the flags stay
   * false, the 16-bit limit 0 and the pool limit is the one from `indexes_0`.
   */
  lemma ShortTableSkipsAttributes(data: seq<Byte>, format: DataFormat)
    requires Parse(data, format).Ok? && Parse(data, format).value.indexesLength <= 5
    ensures var b := Parse(data, format).value;
      && |data| >= b.headerSize + 8 && |data| > 16
      && b.attributes == Attributes(false, false, false, IndexLimit(data, b), 0)
  {
    ParseStages(data, format);
    var order := OrderOf(data[8]);
    var header := HeaderOf(order, data, format).value;
    TableFields(order, data, header.0, header.1);
  }

  /**
   * With more than five slots the attribute word at `header_size + 9` gives
   * bits 0, 1 and 2 as the flags, its upper half as the 16-bit limit, and
   * its bits 15..12 as bits 27..24 of the pool limit, whose low 24 bits
   * are `indexes_0 >> 8` for a format major version of 3 or more and 0
   * otherwise.
   */
  lemma LongTableDecodesAttributes(data: seq<Byte>, format: DataFormat)
    requires Parse(data, format).Ok? && Parse(data, format).value.indexesLength > 5
    ensures var b := Parse(data, format).value;
      && |data| >= b.headerSize + 13
      && var att := WordAt(b.order, data, b.headerSize + 9);
         var indexes0 := WordAt(b.order, data, b.headerSize + 4);
         && b.attributes.noFallback == (att % 2 == 1)
         && b.attributes.isPoolBundle == ((att / 2) % 2 == 1)
         && b.attributes.usesPoolBundle == ((att / 4) % 2 == 1)
         && b.attributes.poolStringIndex16Limit == att / 0x1_0000
         && b.attributes.poolStringIndexLimit
            == (if data[16] >= 3 then indexes0 / 0x100 else 0) + ((att / 0x1000) % 0x10) * 0x100_0000
  {
    ParseStages(data, format);
    var order := OrderOf(data[8]);
    var header := HeaderOf(order, data, format).value;
    TableFields(order, data, header.0, header.1);
    var b := Parse(data, format).value;
    var att := WordAt(b.order, data, b.headerSize + 9);
    var limit := IndexLimit(data, b);
    assert b.attributes == DecodeAttributes(limit, att);
    var r := MergeLimit(limit, att);
    assert r == (r / 0x100_0000) * 0x100_0000 + r % 0x100_0000;
  }

  /** With bits 15..12 of the attribute word clear, the merge leaves a 24-bit limit as it is. */
  lemma MergeKeepsLimit(limit: U32, att: U32)
    requires limit < 0x100_0000 && (att / 0x1000) % 0x10 == 0
    ensures MergeLimit(limit, att) == limit
  {
    var r := MergeLimit(limit, att);
    assert r == (r / 0x100_0000) * 0x100_0000 + r % 0x100_0000;
  }

  /**
   * The attribute word 0x00010007: all three flags, a 16-bit limit of 1,
   * and the pool limit unchanged, since bits 15..12 are clear.
   */
  lemma AttributeExample(limit: U32)
    requires limit < 0x100_0000
    ensures DecodeAttributes(limit, 0x0001_0007) == Attributes(true, true, true, limit, 1)
  {
    MergeKeepsLimit(limit, 0x0001_0007);
  }

  /**
   * The key buffer is non-empty exactly when `keys_top > keys_bottom`, and
   * the local key limit is set exactly when, besides, the bundle is not a
   * pool bundle, in which case it is the buffer's capacity, four bytes per
   * key slot.
   */
  lemma KeyBufferSizing(indexesLength: Byte, keysTop: U32, isPoolBundle: bool)
    ensures var k := KeyTableOf(indexesLength, keysTop, isPoolBundle);
      && k.keysBottom == 1 + indexesLength
      && (k.keyBytesCapacity > 0 <==> keysTop > 1 + indexesLength)
      && (k.localKeyLimit > 0 <==> !isPoolBundle && keysTop > 1 + indexesLength)
      && (k.localKeyLimit > 0 ==> k.keyBytesCapacity == k.localKeyLimit == 4 * keysTop)
      && (isPoolBundle && k.keyBytesCapacity > 0 ==> k.keyBytesCapacity + k.keysBottom == keysTop)
  {
  }

  /** Six slots and `keys_top = 10`: 40 bytes of keys, or 3 for a pool bundle. */
  lemma KeyBufferExample()
    ensures KeyTableOf(6, 10, false) == KeyTable(7, 10, 40, 40)
    ensures KeyTableOf(6, 10, true) == KeyTable(7, 10, 3, 0)
  {
  }

  /** A 48-byte big-endian resource bundle, header 32 bytes long, with an eight-slot table. */
  const FIXTURE: seq<Byte> :=
    [0x00, 0x20, 0xda, 0x27, 0x00, 0x14, 0x00, 0x00] +
    [0x01, 0x00, 0x02, 0x00, 0x52, 0x65, 0x73, 0x42] +
    [0x03, 0x00, 0x00, 0x00, 0x01, 0x04, 0x00, 0x00] +
    [0x00, 0x00, 0x00, 0x00, 0x00, 0x00, 0x00, 0x00] +
    [0x20, 0x00, 0x18, 0x78, 0x00, 0xcb, 0x92, 0x08] +
    [0x00, 0x00, 0x00, 0x09, 0x00, 0x00, 0x18, 0x92]

  /** The fixture's header size: 32 bytes, with a 20-byte data-info block. */
  lemma FixtureHeaderSize()
    ensures HeaderSizeOf(BigEndian, FIXTURE) == Ok(32)
  {
    var data := FIXTURE;
    assert data[0] == 0x00 && data[1] == 0x20 && data[4] == 0x00 && data[5] == 0x14;
  }

  /** The fixture is tagged "ResB" with format version 3.0.0.0. */
  lemma FixtureFormat()
    ensures FormatStatus(FIXTURE, ResourceBundle) == Ok(())
  {
    var data := FIXTURE;
    assert (data[12], data[13], data[14], data[15]) == (0x52, 0x65, 0x73, 0x42);
    assert (data[16], data[17], data[18], data[19]) == (3, 0, 0, 0);
    ResourceBundleRule((3, 0, 0, 0));
  }

  /** The fixture's header: big-endian, 32 bytes, a resource bundle of format 3, data version 1.4.0.0. */
  lemma FixtureHeader()
    ensures MagicStatus(FIXTURE) == Ok(())
    ensures EndiannessFlag(FIXTURE) == Ok(1)
    ensures HeaderOf(BigEndian, FIXTURE, ResourceBundle) == Ok((32, (1, 4, 0, 0)))
  {
    var data := FIXTURE;
    assert data[2] == 0xda && data[3] == 0x27;
    assert data[8] == 1 && data[9] == 0 && data[10] == 2;
    FixtureHeaderSize();
    FixtureFormat();
    assert data[20] == 1 && data[21] == 4 && data[22] == 0 && data[23] == 0;
    assert QuadAt(data, 20) == Ok((1, 4, 0, 0));
  }

  /** The fixture's table words, slot by slot at byte offsets from 36. */
  lemma FixtureWords()
    ensures U32At(BigEndian, FIXTURE, 32) == Ok(0x2000_1878)
    ensures U32At(BigEndian, FIXTURE, 36) == Ok(0x00cb_9208)
    ensures U32At(BigEndian, FIXTURE, 39) == Ok(0x0800_0000)
    ensures U32At(BigEndian, FIXTURE, 41) == Ok(0x0000_0900)
    ensures U32At(BigEndian, FIXTURE, 37) == Ok(0xcb92_0800)
  {
    var data := FIXTURE;
    assert data[32] == 0x20 && data[33] == 0x00 && data[34] == 0x18 && data[35] == 0x78;
    assert data[36] == 0x00 && data[37] == 0xcb && data[38] == 0x92 && data[39] == 0x08;
    assert data[40] == 0x00 && data[41] == 0x00 && data[42] == 0x00 && data[43] == 0x09;
    assert data[44] == 0x00;
  }

  /**
   * The fixture parses: data version 1.4.0.0, root word 0x20001878, length
   * 8, top of bundle 0x08000000 read across the slot-3/slot-4 boundary,
   * attribute word 0x00000900 (no flags set), and keys top 0xcb920800.
   */
  lemma FixtureParses()
    ensures Parse(FIXTURE, ResourceBundle) == Ok(Bootstrap(
      BigEndian, 32, (1, 4, 0, 0), 0x2000_1878, 8, 0x07FF_FFFF,
      Attributes(false, false, false, 0xcb92, 0),
      KeyTable(9, 0xcb92_0800, 0xcb92_0800 * 4, 0xcb92_0800 * 4)))
  {
    FixtureHeader();
    FixtureTable();
  }

  lemma FixtureTable()
    ensures IndexTableOf(BigEndian, FIXTURE, 32, (1, 4, 0, 0)) == Ok(Bootstrap(
      BigEndian, 32, (1, 4, 0, 0), 0x2000_1878, 8, 0x07FF_FFFF,
      Attributes(false, false, false, 0xcb92, 0),
      KeyTable(9, 0xcb92_0800, 0xcb92_0800 * 4, 0xcb92_0800 * 4)))
  {
    FixtureWords();
    FixtureAttributes();
    FixtureKeys();
    assert FIXTURE[16] == 3;
    assert InitialLimit(3, 0x00cb_9208) == 0xcb92;
  }

  /** Format major version 3 and attribute word 0x00000900: no flag set, limits 0xcb92 and 0. */
  lemma FixtureAttributes()
    ensures AttributesOf(BigEndian, FIXTURE, 32, 8, 0xcb92) == Ok(Attributes(false, false, false, 0xcb92, 0))
  {
    FixtureWords();
    MergeKeepsLimit(0xcb92, 0x900);
  }

  /** `keys_top` 0xcb920800 above `keys_bottom` 9, not a pool bundle: four bytes per key. */
  lemma FixtureKeys()
    ensures KeysOf(BigEndian, FIXTURE, 32, 8, false) == Ok(KeyTable(9, 0xcb92_0800, 0xcb92_0800 * 4, 0xcb92_0800 * 4))
  {
    FixtureWords();
  }

  /** `version()` of the reader built from the fixture is `Unicode10_0(1.4.0.0)`. */
  method FixtureVersion() returns (v: Version)
    ensures v == Unicode10_0((1, 4, 0, 0))
  {
    var bytes := new ByteSource(FIXTURE);
    FixtureParses();
    var r := ResourceBundleReader.TryInit(bytes, ResourceBundle);
    v := r.value.Version();
  }
}
