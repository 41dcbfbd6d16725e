/**
 * The index-table bootstrap and the reader it produces
 * (src/lib.rs:194-296).
 *
 * After the header the cursor stands at `header_size`, where the root
 * resource word and then the index table begin.  The source addresses the
 * table slots as `header_size + 4 + n` with `n` counted in BYTES, not in
 * 32-bit words, so slot "n" is the unaligned word starting n bytes into
 * the table; the model does the same.  Three of the values computed there
 * (the maximum offset, the key-buffer capacity and the local key limit)
 * never reach the reader; `Bootstrap` records them beside the ones that do.
 */
module Bundle {
  import opened Bits
  import opened Errors
  import opened Versions
  import opened Formats
  import opened Reader
  import opened Header

  // Indices into the index table, added to `header_size + 4` as byte counts.
  const RES_INDEX_LENGTH: nat := 0
  const RES_INDEX_KEYS_TOP: nat := 1
  const RES_INDEX_RESOURCES_TOP: nat := 2
  const RES_INDEX_BUNDLE_TOP: nat := 3
  const RES_INDEX_MAX_TABLE_LENGTH: nat := 4
  const RES_INDEX_ATTRIBUTES: nat := 5
  const RES_INDEX_16BIT_TOP: nat := 6
  const RES_INDEX_POOL_CHECKSUM: nat := 7

  /**
   * The `offset(n)` closure: where the table slot `n` is read.  It lies
   * after the root word, and for every slot past 0 it falls short of where
   * the `n`-th 32-bit word of the table begins.
   */
  function Offset(headerSize: U16, n: nat): (p: nat)
    ensures p >= headerSize + 4
    ensures n > 0 ==> p < headerSize + 4 + 4 * n
  {
    headerSize + 4 + n
  }

  /** The attribute flags and the two pool limits. */
  datatype Attributes = Attributes(
    noFallback: bool,
    isPoolBundle: bool,
    usesPoolBundle: bool,
    poolStringIndexLimit: U32,
    poolStringIndex16Limit: U32)

  /** Key-table bounds: `keys_bottom`, `keys_top`, `key_bytes` capacity and `local_key_limit`. */
  datatype KeyTable = KeyTable(keysBottom: nat, keysTop: U32, keyBytesCapacity: nat, localKeyLimit: nat)

  /** Everything a successful parse computes. */
  datatype Bootstrap = Bootstrap(
    order: Order,
    headerSize: U16,
    dataVersion: Quad,
    rootResource: U32,
    indexesLength: Byte,
    maxOffset: U32,
    attributes: Attributes,
    keys: KeyTable)

  /** `indexes_0 >> 8` when the file format major version is at least 3, 0 otherwise. */
  function InitialLimit(major: Byte, indexes0: U32): (r: U32)
    ensures r < 0x100_0000
  {
    if major >= 3 then indexes0 / 0x100 else 0
  }

  /**
   * `limit |= (att & 0xf000) << 12`: bits 15..12 of the attribute word
   * moved to bits 27..24.  On a limit below bit 24 the low 24 bits keep the
   * limit and the next four are the moved bits.
   */
  function MergeLimit(limit: U32, att: U32): (r: U32)
    ensures limit < 0x100_0000 ==> r % 0x100_0000 == limit && r / 0x100_0000 == (att / 0x1000) % 0x10
  {
    var moved := ((att / 0x1000) % 0x10) * 0x100_0000;
    MergeSplits(limit, (att / 0x1000) % 0x10);
    BitOr(limit, moved)
  }

  /** The OR of a limit and four bits moved to 27..24 is a `u32`, and a plain sum on a 24-bit limit. */
  lemma MergeSplits(limit: U32, nibble: nat)
    requires nibble < 0x10
    ensures BitOr(limit, nibble * 0x100_0000) < 0x1_0000_0000
    ensures limit < 0x100_0000 ==> BitOr(limit, nibble * 0x100_0000) == limit + nibble * 0x100_0000
  {
    Pow2Value32();
    BitOrBound(limit, nibble * 0x100_0000, 32);
    if limit < 0x100_0000 {
      BitOrDisjoint(limit, nibble, 24);
    }
  }

  /**
   * The attributes when slot 5 is read as `att`: a 24-bit limit survives in
   * the low 24 bits, and the 16-bit limit is the upper half of `att`.
   */
  function DecodeAttributes(limit: U32, att: U32): (a: Attributes)
    ensures limit < 0x100_0000 ==> a.poolStringIndexLimit % 0x100_0000 == limit
    ensures a.poolStringIndex16Limit < 0x1_0000
  {
    Attributes(
      att % 2 != 0,                // att & RES_ATT_NO_FALLBACK
      (att / 2) % 2 != 0,          // att & RES_ATT_IS_POOL_BUNDLE
      (att / 4) % 2 != 0,          // att & RES_ATT_USES_POOL_BUNDLE
      MergeLimit(limit, att),
      att / 0x1_0000)              // att >> 16
  }

  /**
   * The key buffer: empty unless `keys_top > keys_bottom`; then
   * `keys_top - keys_bottom` bytes for a pool bundle, else `keys_top << 2`,
   * which is also the local key limit.  (The target is taken to have a
   * 64-bit `usize`, where the shift loses nothing.)
   */
  function KeyTableOf(indexesLength: Byte, keysTop: U32, isPoolBundle: bool): (k: KeyTable)
    ensures k.keysBottom == 1 + indexesLength && k.keysTop == keysTop
    ensures k.localKeyLimit <= k.keyBytesCapacity
  {
    var keysBottom := 1 + indexesLength;
    if keysTop > keysBottom then
      if isPoolBundle then KeyTable(keysBottom, keysTop, keysTop - keysBottom, 0)
      else KeyTable(keysBottom, keysTop, keysTop * 4, keysTop * 4)
    else KeyTable(keysBottom, keysTop, 0, 0)
  }

  /*
   * The functions below spell each `?` of the source out as a `match` that
   * passes an error on unchanged.
   */

  /** What the index-table part of `try_init` yields, the header having passed. */
  function IndexTableOf(order: Order, data: seq<Byte>, headerSize: U16, dataVersion: Quad): (r: Result<Bootstrap>)
    ensures r.Ok? ==> r.value.order == order && r.value.headerSize == headerSize && r.value.dataVersion == dataVersion
  {
    match U32At(order, data, headerSize)
    case Err(e) => Err(e)
    case Ok(rootResource) =>
      match U32At(order, data, Offset(headerSize, RES_INDEX_LENGTH))
      case Err(e) => Err(e)
      case Ok(indexes0) =>
        if indexes0 % 0x100 <= RES_INDEX_MAX_TABLE_LENGTH then Err(NotEnoughIndexes)
        else TableOf(order, data, headerSize, dataVersion, rootResource, indexes0)
  }

  /**
   * The rest of the table, once its length has passed the gate.  The read
   * of `keys_top` cannot fail: the bundle-top word, read before it, ends
   * further on.
   */
  function TableOf(order: Order, data: seq<Byte>, headerSize: U16, dataVersion: Quad,
                   rootResource: U32, indexes0: U32): (r: Result<Bootstrap>)
    ensures r.Ok? ==> && r.value.order == order && r.value.headerSize == headerSize
                      && r.value.dataVersion == dataVersion && r.value.rootResource == rootResource
    ensures r.Err? ==> r.error == UnexpectedEof || r.error == Overflow(BundleTopMinusOne)
  {
    var indexesLength := indexes0 % 0x100;
    match U32At(order, data, Offset(headerSize, RES_INDEX_BUNDLE_TOP))
    case Err(e) => Err(e)
    case Ok(bundleTop) =>
      if bundleTop == 0 then Err(Overflow(BundleTopMinusOne))
      else
        match ByteAt(data, 16)
        case Err(e) => Err(e)
        case Ok(major) =>
          match AttributesOf(order, data, headerSize, indexesLength, InitialLimit(major, indexes0))
          case Err(e) => Err(e)
          case Ok(attributes) =>
            var keys := KeysOf(order, data, headerSize, indexesLength, attributes.isPoolBundle).value;
            Ok(Bootstrap(order, headerSize, dataVersion, rootResource, indexesLength, bundleTop - 1,
                         attributes, keys))
  }

  /**
   * The attributes: slot 5 decoded if the table is longer than 5, the
   * defaults otherwise.  Only a slot that is read can fail, and only by
   * running past the end.
   */
  function AttributesOf(order: Order, data: seq<Byte>, headerSize: U16, indexesLength: Byte, limit: U32): (r: Result<Attributes>)
    ensures r.Err? ==> indexesLength > RES_INDEX_ATTRIBUTES && r.error == UnexpectedEof
    ensures indexesLength <= RES_INDEX_ATTRIBUTES ==> r.Ok? && r.value.poolStringIndexLimit == limit
  {
    if indexesLength > RES_INDEX_ATTRIBUTES then
      match U32At(order, data, Offset(headerSize, RES_INDEX_ATTRIBUTES))
      case Err(e) => Err(e)
      case Ok(att) => Ok(DecodeAttributes(limit, att))
    else Ok(Attributes(false, false, false, limit, 0))
  }

  /** The key table: `keys_top` read from slot 1, then the buffer sized from it. */
  function KeysOf(order: Order, data: seq<Byte>, headerSize: U16, indexesLength: Byte, isPoolBundle: bool): (r: Result<KeyTable>)
    ensures r.Ok? <==> Offset(headerSize, RES_INDEX_KEYS_TOP) + 4 <= |data|
    ensures r.Err? ==> r.error == UnexpectedEof
    ensures r.Ok? ==> r.value.keysBottom == 1 + indexesLength
  {
    match U32At(order, data, Offset(headerSize, RES_INDEX_KEYS_TOP))
    case Err(e) => Err(e)
    case Ok(keysTop) => Ok(KeyTableOf(indexesLength, keysTop, isPoolBundle))
  }

  /**
   * What `try_init` yields for `data` declared as `format`.  A success
   * decoded the header in the order byte 8 selects and carries the header
   * size and the raw data version it read.
   */
  function Parse(data: seq<Byte>, format: DataFormat): (r: Result<Bootstrap>)
    ensures r.Ok? ==> && |data| >= 24 && r.value.order == OrderOf(data[8])
                      && r.value.headerSize >= 24
                      && r.value.dataVersion == (data[20], data[21], data[22], data[23])
  {
    match MagicStatus(data)
    case Err(e) => Err(e)
    case Ok(_) =>
      match EndiannessFlag(data)
      case Err(e) => Err(e)
      case Ok(flag) =>
        var order := OrderOf(flag);
        match HeaderOf(order, data, format)
        case Err(e) => Err(e)
        case Ok(header) => IndexTableOf(order, data, header.0, header.1)
  }

  /** `Parse` stops at the first stage that fails and otherwise is the table read. */
  lemma ParseSteps(data: seq<Byte>, format: DataFormat)
    ensures MagicStatus(data).Err? ==> Parse(data, format) == Err(MagicStatus(data).error)
    ensures MagicStatus(data).Ok? && EndiannessFlag(data).Err? ==> Parse(data, format) == Err(EndiannessFlag(data).error)
    ensures MagicStatus(data).Ok? && EndiannessFlag(data).Ok? ==>
      var order := OrderOf(EndiannessFlag(data).value);
      var header := HeaderOf(order, data, format);
      && (header.Err? ==> Parse(data, format) == Err(header.error))
      && (header.Ok? ==> Parse(data, format) == IndexTableOf(order, data, header.value.0, header.value.1))
  {
  }

  /** A validated resource bundle: the source it was read from and the decoded fields. */
  class ResourceBundleReader {
    const reader: OrderedReader
    const dataVersion: Version
    const rootResource: U32
    const noFallback: bool
    const isPoolBundle: bool
    const usesPoolBundle: bool
    const poolStringIndexLimit: U32
    const poolStringIndex16Limit: U32
    /** The parse this reader came from. */
    ghost const parsed: Bootstrap

    ghost predicate Valid() {
      && reader.order == parsed.order
      && TryFrom(parsed.dataVersion) == Ok(dataVersion)
      && rootResource == parsed.rootResource
      && Attributes(noFallback, isPoolBundle, usesPoolBundle, poolStringIndexLimit, poolStringIndex16Limit)
         == parsed.attributes
    }

    constructor (reader: OrderedReader, dataVersion: Version, rootResource: U32,
                 attributes: Attributes, ghost parsed: Bootstrap)
      requires reader.order == parsed.order && TryFrom(parsed.dataVersion) == Ok(dataVersion)
      requires rootResource == parsed.rootResource && attributes == parsed.attributes
      ensures Valid() && this.reader == reader && this.parsed == parsed
    {
      this.reader := reader;
      this.dataVersion := dataVersion;
      this.rootResource := rootResource;
      this.noFallback := attributes.noFallback;
      this.isPoolBundle := attributes.isPoolBundle;
      this.usesPoolBundle := attributes.usesPoolBundle;
      this.poolStringIndexLimit := attributes.poolStringIndexLimit;
      this.poolStringIndex16Limit := attributes.poolStringIndex16Limit;
      this.parsed := parsed;
    }

    /** `version()`: the data version bytes, tagged by `try_from`. */
    function Version(): (v: Versions.Version)
      requires Valid()
      ensures v.Unicode10_0? && v.quad == parsed.dataVersion
    {
      dataVersion
    }

    /** `root_resource()`: the word at the end of the header. */
    function RootResource(): (r: U32)
      requires Valid()
      ensures r == parsed.rootResource
    {
      rootResource
    }

    /**
     * `try_init`: magic, endianness, header, then the index table, stopping
     * at the first failure.  On success the reader owns `bytes`, left just
     * after the keys-top slot.
     */
    static method TryInit(bytes: ByteSource, format: DataFormat) returns (r: Result<ResourceBundleReader>)
      modifies bytes
      ensures Parse(bytes.data, format).Err? ==> r == Err(Parse(bytes.data, format).error)
      ensures Parse(bytes.data, format).Ok? ==> r.Ok?
      ensures r.Ok? ==> && fresh(r.value) && r.value.Valid()
                        && r.value.parsed == Parse(bytes.data, format).value
                        && r.value.reader.reader == bytes
                        && bytes.pos == Offset(r.value.parsed.headerSize, RES_INDEX_KEYS_TOP) + 4
    {
      ParseSteps(bytes.data, format);
      var _ :- CheckMagic(bytes);
      var flag :- ReadEndianness(bytes);
      var order := if flag == 1 then BigEndian else LittleEndian;
      var reader := new OrderedReader.Wrap(bytes, order);
      var header :- ReadHeader(reader, format);
      var headerSize, dataVersion := header.0, header.1;
      var table :- ReadIndexTable(reader, headerSize, dataVersion);
      // `Version::try_from(data_version)?`: the conversion never fails
      var version := TryFrom(dataVersion).Extract();
      var bundle := new ResourceBundleReader(reader, version, table.rootResource, table.attributes, table);
      r := Ok(bundle);
    }
  }

  /**
   * The index-table part of `try_init`, run with the cursor at the end of
   * the header.  Besides the fields of the reader it computes the maximum
   * offset and the key buffer, which `try_init` then drops.
   */
  method ReadIndexTable(reader: OrderedReader, headerSize: U16, dataVersion: Quad) returns (r: Result<Bootstrap>)
    requires reader.reader.pos == headerSize
    modifies reader.reader
    ensures r == IndexTableOf(reader.order, reader.reader.data, headerSize, dataVersion)
    ensures r.Ok? ==> reader.reader.pos == Offset(headerSize, RES_INDEX_KEYS_TOP) + 4
  {
    var rootResource :- reader.ReadU32();
    var indexes0 :- reader.ReadU32();
    var indexesLength: Byte := indexes0 % 0x100;
    if indexesLength <= RES_INDEX_MAX_TABLE_LENGTH {
      return Err(NotEnoughIndexes);
    }
    r := ReadTableRest(reader, headerSize, dataVersion, rootResource, indexes0);
  }

  /** The reads after the length gate, from `bundle_top` on. */
  method ReadTableRest(reader: OrderedReader, headerSize: U16, dataVersion: Quad, rootResource: U32, indexes0: U32)
    returns (r: Result<Bootstrap>)
    modifies reader.reader
    ensures r == TableOf(reader.order, reader.reader.data, headerSize, dataVersion, rootResource, indexes0)
    ensures r.Ok? ==> reader.reader.pos == Offset(headerSize, RES_INDEX_KEYS_TOP) + 4
  {
    var order := reader.order;
    var indexesLength: Byte := indexes0 % 0x100;
    reader.Seek(Offset(headerSize, RES_INDEX_BUNDLE_TOP));
    var bundleTop :- reader.ReadU32();
    if bundleTop == 0 {
      return Err(Overflow(BundleTopMinusOne));
    }
    var maxOffset := bundleTop - 1;

    reader.Seek(16);
    var fileFormatMajorVersion :- reader.ReadU8();
    var poolStringIndexLimit: U32 := 0;
    if fileFormatMajorVersion >= 3 {
      poolStringIndexLimit := indexes0 / 0x100;
    }

    var attributes :- ReadAttributes(reader, headerSize, indexesLength, poolStringIndexLimit);
    // the bundle-top word ended past the keys-top word, so this read succeeds
    var keys := ReadKeyTable(reader, headerSize, indexesLength, attributes.isPoolBundle);
    r := Ok(Bootstrap(order, headerSize, dataVersion, rootResource, indexesLength, maxOffset, attributes, keys.value));
  }

  /** The attribute flags and limits, starting from the limit taken from `indexes_0`. */
  method ReadAttributes(reader: OrderedReader, headerSize: U16, indexesLength: Byte, limit: U32)
    returns (r: Result<Attributes>)
    modifies reader.reader
    ensures r == AttributesOf(reader.order, reader.reader.data, headerSize, indexesLength, limit)
    ensures r.Ok? ==> reader.reader.pos == if indexesLength > RES_INDEX_ATTRIBUTES
                                           then Offset(headerSize, RES_INDEX_ATTRIBUTES) + 4
                                           else old(reader.reader.pos)
  {
    var noFallback, isPoolBundle, usesPoolBundle := false, false, false;
    var poolStringIndexLimit: U32, poolStringIndex16Limit: U32 := limit, 0;
    if indexesLength > RES_INDEX_ATTRIBUTES {
      reader.Seek(Offset(headerSize, RES_INDEX_ATTRIBUTES));
      var att :- reader.ReadU32();
      noFallback := att % 2 != 0;
      isPoolBundle := (att / 2) % 2 != 0;
      usesPoolBundle := (att / 4) % 2 != 0;
      poolStringIndexLimit := MergeLimit(poolStringIndexLimit, att);
      poolStringIndex16Limit := att / 0x1_0000;
    }
    r := Ok(Attributes(noFallback, isPoolBundle, usesPoolBundle, poolStringIndexLimit, poolStringIndex16Limit));
  }

  /** `keys_top` and the key buffer sized from it; the cursor ends after slot 1. */
  method ReadKeyTable(reader: OrderedReader, headerSize: U16, indexesLength: Byte, isPoolBundle: bool)
    returns (r: Result<KeyTable>)
    modifies reader.reader
    ensures r == KeysOf(reader.order, reader.reader.data, headerSize, indexesLength, isPoolBundle)
    ensures r.Ok? ==> reader.reader.pos == Offset(headerSize, RES_INDEX_KEYS_TOP) + 4
  {
    var keyBytesCapacity := 0;
    var localKeyLimit := 0;
    var keysBottom := 1 + indexesLength;
    reader.Seek(Offset(headerSize, RES_INDEX_KEYS_TOP));
    var keysTop :- reader.ReadU32();
    if keysTop > keysBottom {
      if isPoolBundle {
        keyBytesCapacity := keysTop - keysBottom;
      } else {
        localKeyLimit := keysTop * 4;
        keyBytesCapacity := localKeyLimit;
      }
    }
    r := Ok(KeyTable(keysBottom, keysTop, keyBytesCapacity, localKeyLimit));
  }
}
