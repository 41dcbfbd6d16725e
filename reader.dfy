/**
 * The byte source and the ordered reader wrapped around it
 * (src/lib.rs:110-192).
 *
 * `ByteSource` stands for the `R: Read + Seek` the parser is given: an
 * immutable byte sequence and a position.  Seeking never fails, also past
 * the end; a read that runs past the end fails with `UnexpectedEof`.
 * `OrderedReader` owns a source and a byte order fixed at construction and
 * decodes every `u16`/`u32` in that order.
 *
 * Next to the classes, `ByteAt`, `U16At`, `U32At` and `QuadAt` say what a
 * read at a position yields, directly in terms of the data.
 */
module Reader {
  import opened Bits
  import opened Errors

  datatype Order = BigEndian | LittleEndian

  /** The `u16` stored as the bytes `b0, b1` (in data order) under `order`. */
  function Word16(order: Order, b0: Byte, b1: Byte): (r: U16)
    ensures r / 0x100 == (if order == BigEndian then b0 else b1)
    ensures r % 0x100 == (if order == BigEndian then b1 else b0)
  {
    match order
    case BigEndian => Be16(b0, b1)
    case LittleEndian => Be16(b1, b0)
  }

  /**
   * The `u32` stored as the bytes `q` (in data order) under `order`.  Its
   * low byte, `& 0xff`, is the last byte in big-endian data and the first
   * in little-endian data.
   */
  function Word32(order: Order, q: Quad): (r: U32)
    ensures r % 0x100 == if order == BigEndian then q.3 else q.0
  {
    match order
    case BigEndian => Be32(q)
    case LittleEndian => Be32((q.3, q.2, q.1, q.0))
  }

  /**
   * The two orders read the same word from four bytes exactly when the
   * bytes are a palindrome.
   */
  lemma OrdersAgreeIff(q: Quad)
    ensures Word32(BigEndian, q) == Word32(LittleEndian, q) <==> (q.0 == q.3 && q.1 == q.2)
  {
    if Word32(BigEndian, q) == Word32(LittleEndian, q) {
      Be32RoundTrip(0, q);
      Be32RoundTrip(0, (q.3, q.2, q.1, q.0));
    }
  }

  /** Reading little-endian is reading big-endian with the bytes reversed. */
  lemma LittleIsReversedBig(q: Quad, b0: Byte, b1: Byte)
    ensures Word32(LittleEndian, q) == Word32(BigEndian, (q.3, q.2, q.1, q.0))
    ensures Word16(LittleEndian, b0, b1) == Word16(BigEndian, b1, b0)
  {
  }

  /** The byte at position `p`, if there is one. */
  function ByteAt(data: seq<Byte>, p: nat): (r: Result<Byte>)
    ensures r.Ok? <==> p < |data|
    ensures r.Err? ==> r.error == UnexpectedEof
  {
    if p < |data| then Ok(data[p]) else Err(UnexpectedEof)
  }

  /** The four bytes from position `p` on, in data order. */
  function QuadAt(data: seq<Byte>, p: nat): (r: Result<Quad>)
    ensures r.Ok? <==> p + 4 <= |data|
    ensures r.Err? ==> r.error == UnexpectedEof
  {
    if p + 4 <= |data| then Ok((data[p], data[p + 1], data[p + 2], data[p + 3]))
    else Err(UnexpectedEof)
  }

  /** The `u16` stored from position `p` on. */
  function U16At(order: Order, data: seq<Byte>, p: nat): (r: Result<U16>)
    ensures r.Ok? <==> p + 2 <= |data|
    ensures r.Err? ==> r.error == UnexpectedEof
  {
    if p + 2 <= |data| then Ok(Word16(order, data[p], data[p + 1])) else Err(UnexpectedEof)
  }

  /** The `u32` stored from position `p` on. */
  function U32At(order: Order, data: seq<Byte>, p: nat): (r: Result<U32>)
    ensures r.Ok? <==> p + 4 <= |data|
    ensures r.Err? ==> r.error == UnexpectedEof
  {
    if p + 4 <= |data| then Ok(Word32(order, (data[p], data[p + 1], data[p + 2], data[p + 3])))
    else Err(UnexpectedEof)
  }

  /** A seekable, readable byte source: the data and the current position. */
  class ByteSource {
    const data: seq<Byte>
    var pos: nat

    constructor (data: seq<Byte>)
      ensures this.data == data && pos == 0
    {
      this.data := data;
      pos := 0;
    }

    /** `seek(SeekFrom::Start(p))`; any position is allowed. */
    method Seek(p: nat)
      modifies this
      ensures pos == p
    {
      pos := p;
    }

    /** `read_u8`: the byte at the position, which then moves past it. */
    method ReadU8() returns (r: Result<Byte>)
      modifies this
      ensures r == ByteAt(data, old(pos))
      ensures pos == if r.Ok? then old(pos) + 1 else old(pos)
    {
      if pos < |data| {
        r := Ok(data[pos]);
        pos := pos + 1;
      } else {
        r := Err(UnexpectedEof);
      }
    }
  }

  /**
   * `OrderedReader`: a source with a fixed byte order.  After a failed
   * multi-byte read the position is left unspecified, as it is for a
   * generic `Read`; every caller abandons the parse at that point.
   */
  class OrderedReader {
    const reader: ByteSource
    const order: Order

    /** `OrderedReader::wrap`: takes over the source where it stands. */
    constructor Wrap(reader: ByteSource, order: Order)
      ensures this.reader == reader && this.order == order
    {
      this.reader := reader;
      this.order := order;
    }

    method Seek(p: nat)
      modifies reader
      ensures reader.pos == p
    {
      reader.Seek(p);
    }

    method ReadU8() returns (r: Result<Byte>)
      modifies reader
      ensures r == ByteAt(reader.data, old(reader.pos))
      ensures r.Ok? ==> reader.pos == old(reader.pos) + 1
      ensures r.Err? ==> reader.pos == old(reader.pos)
    {
      r := reader.ReadU8();
    }

    /** `read_u16`: two bytes at the position, decoded in the reader's order. */
    method ReadU16() returns (r: Result<U16>)
      modifies reader
      ensures r == U16At(order, reader.data, old(reader.pos))
      ensures r.Ok? ==> reader.pos == old(reader.pos) + 2
    {
      var b0 :- reader.ReadU8();
      var b1 :- reader.ReadU8();
      r := Ok(Word16(order, b0, b1));
    }

    /** `read_u32`: four bytes at the position, decoded in the reader's order. */
    method ReadU32() returns (r: Result<U32>)
      modifies reader
      ensures r == U32At(order, reader.data, old(reader.pos))
      ensures r.Ok? ==> reader.pos == old(reader.pos) + 4
    {
      var b0 :- reader.ReadU8();
      var b1 :- reader.ReadU8();
      var b2 :- reader.ReadU8();
      var b3 :- reader.ReadU8();
      r := Ok(Word32(order, (b0, b1, b2, b3)));
    }

    method ReadU8From(p: nat) returns (r: Result<Byte>)
      modifies reader
      ensures r == ByteAt(reader.data, p)
      ensures r.Ok? ==> reader.pos == p + 1
    {
      Seek(p);
      r := ReadU8();
    }

    method ReadU16From(p: nat) returns (r: Result<U16>)
      modifies reader
      ensures r == U16At(order, reader.data, p)
      ensures r.Ok? ==> reader.pos == p + 2
    {
      Seek(p);
      r := ReadU16();
    }

    method ReadU32From(p: nat) returns (r: Result<U32>)
      modifies reader
      ensures r == U32At(order, reader.data, p)
      ensures r.Ok? ==> reader.pos == p + 4
    {
      Seek(p);
      r := ReadU32();
    }
  }
}
