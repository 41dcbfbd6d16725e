# ICU data-file header and index-table parser, modelled in Dafny

The model covers the crate's entry point `ResourceBundleReader::try_init`. It
takes a byte blob and a declared `DataFormat` and checks the blob:

- the magic bytes 0xDA 0x27 at offset 2;
- the endianness, charset-family and char-size bytes at 8..10;
- the header size against the data-info size;
- the format tag at 12..15 against the declared format's discriminant;
- the format version at 16..19 against that format's acceptance rule.

It then reads the data version at 20..23, and from `header_size` on the
root-resource word and the index table. From the table come:

- the length byte;
- the bundle-top word;
- the pool-string index limit;
- the attribute word;
- `keys_top`.

The result is either one of the parser's errors or a reader holding:

- the data version, wrapped by `Version::try_from`;
- the root-resource word;
- the three attribute flags;
- the two pool limits.

Modules, one per concern of the source:

- `Bits`: `u8`/`u16`/`u32` as bounded integers. Constant shifts and masks are
  written as division and remainder. The bitwise OR of `|=` is spelled out bit
  by bit, and `u32` shifts truncate.
- `Errors`: the errors the parser raises, and a `Result` usable with `:-` in
  place of Rust's `?`.
- `Versions` (`src/version.rs`): the `Version` enum with its derived order,
  and the `try_from` stub.
- `Formats`: the `DataFormat` tags and `is_acceptable_version`.
- `Reader`: the seekable byte source (`ByteSource`, an immutable sequence and
  a position) and the `OrderedReader` with its `u8`/`u16`/`u32` reads.
- `Header`: `check_magic`, `read_endianness`, `read_header_size`,
  `validate_format_version`, `read_data_version` and `read_header`.
- `Bundle`: the index-table part of `try_init`, the `ResourceBundleReader`
  class and its accessors.
- `ParseFacts`: what `try_init` accepts and extracts, stated on byte positions
  of the raw data, and the crate's own test fixture.

Each step that seeks and reads is a module-level method that takes an
`OrderedReader` or a `ByteSource` as a parameter (`CheckMagic`,
`ReadHeaderSize`, `ReadHeader`, `ReadIndexTable`, `ReadAttributes`, ...); the
single reads are methods of those two classes. Each method is proved equal to a function of the data (`MagicStatus`, `HeaderSizeOf`,
`FormatStatus`, `HeaderOf`, `IndexTableOf`, `Parse`, ...). The lemmas about
those functions carry the properties.

Arithmetic follows the debug build. The three unchecked operations that can
panic end the parse with a distinct `Overflow` outcome:

- `data_info_size + 4` in `u16`;
- `bundle_top - 1` on a zero word;
- a `u32` shift by 32 or more in the BreakIteration rule.

Notes on how the code behaves, all of which the model follows:

- The length gate compares with `RES_INDEX_MAX_TABLE_LENGTH = 4`, so a table
  whose length byte is 5 passes. Its attribute word is then not read.
- Table slots are read at `header_size + 4 + n` with `n` counted in bytes, not
  words, although the comment at src/lib.rs:22-23 calls the constants indices
  into an `indexes[]` array. The words are read unaligned, overlapping each
  other. The
  fixture parses only because of this: its bundle-top word 0x08000000 is read
  across two slots.
- A pool bundle sizes its key buffer as `keys_top - keys_bottom`, with no `<< 2`.
  Otherwise the size is `keys_top << 2`, which is also the local key limit.
- The attribute word 0x00010007 has bits 15..12 clear. So it sets all three
  flags and a 16-bit limit of 1, and leaves bits 27..24 of the pool limit
  clear.
- Two comments on the tags disagree with the values (src/lib.rs:56 and 60):
  StringPrep's discriminant spells "SPRP", not "SPDR", and Case's spells
  "cASE", not "cAsE".
- In the BreakIteration rule `+` binds tighter than `<<`. The version is
  therefore shifted by `24 + minor`, `16 + milli` and `8 + micro` in turn.
  Either a shift reaches 32 (a panic) or every bit is shifted out. No version
  is accepted, (4, 0, 0, 0) included.
- The `keys_top` read cannot fail. The bundle-top word, read earlier, ends
  two bytes further on.

## Model

| member | source | states |
|---|---|---|
| `Bits.Be32RoundTrip` | src/lib.rs:386-387 | splitting a `u32` into its four `(val >> k) as u8` bytes and packing them big-endian again is the identity, both ways |
| `Bits.Be32Matches` | src/lib.rs:386-387 | four bytes equal the bytes of `val` exactly when they read as `val` big-endian, so the bytewise tag comparison is a word comparison |
| `Bits.Shl32Twice` | src/lib.rs:86-88 | two `u32` shifts whose amounts add up to 32 or more leave 0 |
| `Bits.Shl32` | src/lib.rs:86-88 | a `u32` shift by n leaves the low n bits clear |
| `Bits.BitOr` | src/lib.rs:255 | the OR of two words is at least each of them and at most their sum |
| `Bits.BitOrDisjoint` | src/lib.rs:255 | OR-ing a word below bit k with a multiple of 2^k is their sum |
| `Bits.BitOrBound` | src/lib.rs:255 | the OR of two words below bit k stays below bit k, so the merged limit stays a `u32` |
| `Versions.MakeRecovers` | src/version.rs:8-37 | a version is determined by its variant position and its quad |
| `Versions.CmpQuad` | src/version.rs:4-7 | the derived order on `(u8, u8, u8, u8)` says Equal exactly for identical quads |
| `Versions.Cmp` | src/version.rs:7-37 | the derived order on `Version` says Equal exactly for identical versions |
| `Versions.CmpAntisymmetric` | src/version.rs:7 | comparing the other way round flips Less and Greater |
| `Versions.LeRanks` | src/version.rs:7-37 | `a <= b` implies a's variant is not declared after b's, and the quads are ordered when the variants agree |
| `Versions.RanksLe` | src/version.rs:7-37 | the converse: variant order, then lexicographic quad order, gives `a <= b` |
| `Versions.QuadLeTransitive` | src/version.rs:4 | the lexicographic order on quads is transitive |
| `Versions.LeTransitive` | src/version.rs:7 | `<=` is transitive |
| `Versions.LeTotal` | src/version.rs:7 | any two versions are comparable |
| `Versions.LeAntisymmetric` | src/version.rs:7 | `a <= b` and `b <= a` only for equal versions |
| `Versions.EarlierVariantIsLess` | src/version.rs:8-37 | a variant declared earlier is less whatever the quads |
| `Versions.TryFrom` | src/version.rs:43-45 | `try_from` never fails, always yields `Unicode10_0`, and keeps the quad unchanged |
| `Versions.TryFromInjective` | src/version.rs:43-45 | distinct quads give distinct versions |
| `Versions.TryFromRanksLast` | src/version.rs:44 | every variant other than `Unicode10_0` orders below what `try_from` yields |
| `Formats.Discriminant` | src/lib.rs:39-70 | each discriminant is the big-endian reading of its four-character ASCII tag |
| `Formats.DiscriminantInjective` | src/lib.rs:39-70 | no two formats share a discriminant |
| `Formats.TagBytes` | src/lib.rs:378-387 | the expected tag bytes read big-endian as the discriminant |
| `Formats.TagBytesSpellTag` | src/lib.rs:39-70 | the expected bytes at offset 12 are the character codes of the tag, in order |
| `Formats.IsAcceptableVersion` | src/lib.rs:73-107 | only the BreakIteration rule can fail, and only with the shift panic |
| `Formats.BreakIterationCheck` | src/lib.rs:85-90 | the rule panics exactly when minor >= 8, milli >= 16 or micro >= 24, and only with the shift panic |
| `Formats.BreakIterationNeverAccepts` | src/lib.rs:85-90 | the rule panics exactly when minor >= 8, milli >= 16 or micro >= 24, and never answers true |
| `Formats.FourPacksToTarget` | src/lib.rs:89 | 4.0.0.0 is the only quad whose big-endian packing is 0x04000000 |
| `Formats.BreakIterationRejectsFour` | src/lib.rs:85-90 | the rule rejects 4.0.0.0, without panicking |
| `Formats.Inspected` | src/lib.rs:73-107 | only a bound: the inspected bytes are among the four; what they mean is stated by `Formats.VerdictDependsOnInspected` |
| `Formats.VerdictDependsOnInspected` | src/lib.rs:73-107 | versions equal on the inspected bytes get the same verdict: StringPrep ignores byte 1, ConverterAlias byte 3, ResourceBundle bytes 2 and 3, Dictionary all |
| `Formats.MajorOnlyRules` | src/lib.rs:73-107 | the nine single-byte rules accept exactly their required major version |
| `Formats.ResourceBundleRule` | src/lib.rs:76-79 | ResourceBundle accepts exactly major 2 or 3, or major 1 with minor >= 1 |
| `Formats.SpoofRule` | src/lib.rs:91-94 | Spoof rejects exactly x.0.0.0 with x other than 2 |
| `Formats.ExactRules` | src/lib.rs:81-103 | StringPrep accepts exactly 3.\*.5.2, ConverterAlias exactly 3.0.1.\*, Dictionary everything |
| `Reader.Word16` | src/lib.rs:164-169 | the high byte of a `u16` is the first byte in big-endian order and the second in little-endian, and the low byte the other one |
| `Reader.Word32` | src/lib.rs:171-176 | the low byte of a `u32`, its `& 0xff`, is the last byte in big-endian order and the first in little-endian |
| `Reader.OrdersAgreeIff` | src/lib.rs:171-176 | big- and little-endian read the same `u32` exactly from a palindromic quad |
| `Reader.LittleIsReversedBig` | src/lib.rs:164-176 | a little-endian read is a big-endian read of the reversed bytes |
| `Reader.ByteAt` | src/lib.rs:178-181 | a byte exists exactly below the length; otherwise the read fails with EOF |
| `Reader.QuadAt` | src/lib.rs:380-385 | four bytes exist exactly when the data reaches p + 4; otherwise EOF |
| `Reader.U16At` | src/lib.rs:164-169 | a `u16` read succeeds exactly when two bytes remain; otherwise EOF |
| `Reader.U32At` | src/lib.rs:171-176 | a `u32` read succeeds exactly when four bytes remain; otherwise EOF |
| `Reader.ByteSource.constructor` | src/lib.rs:214 | the source holds the given bytes and stands at position 0 |
| `Reader.ByteSource.Seek` | src/lib.rs:147-149 | seeking sets the position, past the end too |
| `Reader.ByteSource.ReadU8` | src/lib.rs:178-181 | yields the byte at the position and moves past it, or fails with EOF and stays |
| `Reader.OrderedReader.Wrap` | src/lib.rs:129-131 | the reader owns the given source with the given order |
| `Reader.OrderedReader.Seek` | src/lib.rs:143-150 | seeks the wrapped source |
| `Reader.OrderedReader.ReadU8` | src/lib.rs:178-181 | yields the byte at the position, which then moves on by 1; on EOF the position stays |
| `Reader.OrderedReader.ReadU16` | src/lib.rs:164-169 | yields the `u16` at the position in the reader's order, which then moves on by 2 |
| `Reader.OrderedReader.ReadU32` | src/lib.rs:171-176 | yields the `u32` at the position in the reader's order, which then moves on by 4 |
| `Reader.OrderedReader.ReadU8From` | src/lib.rs:178-181 | seeks, then reads a byte |
| `Reader.OrderedReader.ReadU16From` | src/lib.rs:183-186 | seeks, then reads a `u16` |
| `Reader.OrderedReader.ReadU32From` | src/lib.rs:188-191 | seeks, then reads a `u32` |
| `Header.MagicStatus` | src/lib.rs:339-354 | `check_magic` fails with EOF exactly when bytes 2 and 3 are missing, and otherwise only as not-ICU data |
| `Header.EndiannessFlag` | src/lib.rs:356-369 | `read_endianness` yields byte 8, which is then 0 or 1; it fails with EOF exactly when bytes 8..10 are missing, and otherwise only with the authentication error |
| `Header.OrderOf` | src/lib.rs:216-220 | flag 1 and only flag 1 selects big-endian; flag 0 selects little-endian |
| `Header.HeaderSizeOf` | src/lib.rs:327-337 | a header size that passes is at least 24; the only failures are EOF, the size error and the `+ 4` overflow |
| `Header.TagStatus` | src/lib.rs:378-390 | the tag check fails with EOF exactly when bytes 12..15 are missing, and otherwise only with the format mismatch |
| `Header.TagStatusSeesTag` | src/lib.rs:378-390 | the tag check passes exactly when bytes 12..15 are the declared format's tag bytes |
| `Header.VersionStatus` | src/lib.rs:391-401 | the version check fails only with EOF, the rejection, or for BreakIteration with the shift panic |
| `Header.FormatStatus` | src/lib.rs:371-404 | a failing tag check decides the outcome; a pass has read 20 bytes |
| `Header.HeaderOf` | src/lib.rs:298-311 | a header that passes covers 24 bytes, has a size of at least 24 and yields bytes 20..23 as the data version; a failing size check is the outcome |
| `Header.CheckMagic` | src/lib.rs:339-354 | reads bytes 2 and 3, then fails unless they are 0xDA 0x27; the cursor ends at 4 |
| `Header.ReadEndianness` | src/lib.rs:356-369 | reads bytes 8..10, then yields byte 8 if it is at most 1, byte 9 is 0 and byte 10 is 2; the cursor ends at 11 |
| `Header.ReadHeaderSize` | src/lib.rs:327-337 | the header-size and data-info-size words, with the size error or the `+ 4` overflow; the cursor ends at 6 |
| `Header.CheckFormatTag` | src/lib.rs:378-390 | bytes 12..15 against the discriminant's bytes, with `InvalidInput` on mismatch; the cursor ends at 16 |
| `Header.CheckFormatVersion` | src/lib.rs:391-401 | bytes 16..19, read with no new seek, judged by the declared format's rule; the cursor ends at 20 |
| `Header.ValidateFormatVersion` | src/lib.rs:371-404 | the tag check, then the version check |
| `Header.ReadQuad` | src/lib.rs:380-385 | four single-byte reads from the cursor, failing with EOF if any is missing |
| `Header.ReadDataVersion` | src/lib.rs:313-325 | the raw bytes 20..23; the cursor ends at 24 |
| `Header.ReadHeader` | src/lib.rs:298-311 | header size, format check and data version in that order, then the cursor placed at `header_size` |
| `Header.HeaderSizeFailures` | src/lib.rs:331-334 | the size check fails with EOF exactly before byte 6, with the size error exactly when the data-info size is below 20 or the header size below it plus 4 (that sum fitting in a `u16`), and with the `+ 4` overflow exactly from a data-info size of 65532 |
| `Header.VersionFailures` | src/lib.rs:391-401 | the version check fails with EOF exactly before byte 20, rejects exactly when the format's rule answers false, and panics exactly when the rule does |
| `Header.HeaderCheckOrder` | src/lib.rs:298-311 | once the sizes pass, a failing tag check is the header's outcome, and with the tag passing a failing or rejecting version check is |
| `Header.HeaderSizePasses` | src/lib.rs:331-336 | a passing size check has data-info size 20 to 65531 and a header size of at least that plus 4, so at least 24 |
| `Header.FormatPasses` | src/lib.rs:378-403 | a passing format check has seen the declared tag and an accepted version |
| `Header.HeaderPasses` | src/lib.rs:298-311 | a passing header is at least 24 bytes, returns the size word and bytes 20..23, and carries the tag and an accepted version |
| `Header.SwapHeaderWords` | src/lib.rs:331-332 | only that byte-swapping the two header words keeps the length; its use is in `Header.SwappedSizes` |
| `Header.SwappedSizes` | src/lib.rs:331-332 | the size check of big-endian data equals that of its swapped little-endian form |
| `Header.SameAfterSix` | src/lib.rs:317-397 | the format check and the data version depend only on bytes from 6 on |
| `Header.QuadsAgree` | src/lib.rs:380-385 | four-byte reads from 6 on agree on data equal from 6 on |
| `Header.HeaderOrderInvariant` | src/lib.rs:298-337 | the same logical header in either byte order gives the same header size and data version |
| `Bundle.Offset` | src/lib.rs:224-226 | a bound only: slot n is read after the root word and, past slot 0, short of where the n-th 32-bit table word begins |
| `Bundle.DecodeAttributes` | src/lib.rs:249-257 | decoding keeps a 24-bit pool limit in the low 24 bits, and the 16-bit limit fits in 16 bits |
| `Bundle.KeyTableOf` | src/lib.rs:259-275 | keys start at `1 + indexes_length`, end at `keys_top`, and the local key limit never exceeds the buffer capacity |
| `Bundle.AttributesOf` | src/lib.rs:249-257 | a table of 5 slots or fewer keeps the limit it is given; only the attribute read of a longer table can fail, with EOF |
| `Bundle.KeysOf` | src/lib.rs:259-275 | the key table is read exactly when the `keys_top` slot is in the data, else EOF, with keys starting at `1 + indexes_length` |
| `Bundle.Parse` | src/lib.rs:214-287 | a successful `try_init` read at least 24 bytes, decoded in the order byte 8 picks, with a header size of at least 24 and bytes 20..23 as the data version |
| `Bundle.InitialLimit` | src/lib.rs:243-247 | a bound only: the limit from `indexes_0 >> 8` fits in 24 bits |
| `Bundle.MergeLimit` | src/lib.rs:255 | on a 24-bit limit the merge keeps the low 24 bits and puts bits 15..12 of `att` in bits 27..24 |
| `Bundle.IndexTableOf` | src/lib.rs:223-232 | a successful table read keeps the order, header size and data version it was given |
| `Bundle.TableOf` | src/lib.rs:240-286 | keeps the root word read before the gate too, and fails only with EOF or the `bundle_top - 1` panic |
| `Bundle.ParseSteps` | src/lib.rs:214-222 | `try_init` stops at the first failing stage, else it is the table read after the header |
| `Bundle.ResourceBundleReader.constructor` | src/lib.rs:277-286 | the reader holds the parse's order, converted version, root word and attributes |
| `Bundle.ResourceBundleReader.Version` | src/lib.rs:289-291 | `version()` is `Unicode10_0` of the parsed data version |
| `Bundle.ResourceBundleReader.RootResource` | src/lib.rs:293-295 | `root_resource()` is the parsed root word |
| `Bundle.ResourceBundleReader.TryInit` | src/lib.rs:214-287 | fails with exactly the error `Parse` gives, and otherwise yields a fresh valid reader over the given source, holding the parsed fields, with the cursor just after the `keys_top` slot |
| `Bundle.ReadIndexTable` | src/lib.rs:223-232 | root word, length word and the gate at 4, then the rest of the table |
| `Bundle.ReadTableRest` | src/lib.rs:240-286 | bundle-top word and its `- 1` panic, byte 16, the attributes and the key table |
| `Bundle.ReadAttributes` | src/lib.rs:249-257 | the attribute word is read only when the length is above 5, and decoded into three flags and two limits; on success the cursor is just after that word, or where it was when nothing is read |
| `Bundle.ReadKeyTable` | src/lib.rs:259-275 | reads `keys_top` and sizes the key buffer from it; the cursor ends just after the slot |
| `ParseFacts.PrefixOkIff` | src/lib.rs:339-369 | the magic and authentication checks pass exactly when bytes 2, 3 and 8..10 hold their required values |
| `ParseFacts.HeaderOkIff` | src/lib.rs:298-404 | `read_header` succeeds exactly on a well-formed header, and then returns the size word |
| `ParseFacts.WellFormedHeaderPasses` | src/lib.rs:298-311 | a well-formed header yields its size word and bytes 20..23 |
| `ParseFacts.TableOkIff` | src/lib.rs:223-275 | the table read succeeds exactly when its words are present, the length byte exceeds 4 and the bundle top is not 0 |
| `ParseFacts.TableFields` | src/lib.rs:223-286 | each field of a successful table read is the word at its byte offset, or decoded from it |
| `ParseFacts.ParseStages` | src/lib.rs:214-222 | a successful parse passed the prefix and the header and is the table read that follows |
| `ParseFacts.ParseSucceedsIff` | src/lib.rs:214-287 | `try_init` succeeds exactly on well-formed data |
| `ParseFacts.MagicFirst` | src/lib.rs:339-354 | data shorter than 4 fails with EOF, and bad magic bytes fail as not-ICU data before anything else |
| `ParseFacts.AuthenticationSecond` | src/lib.rs:356-369 | with good magic, data shorter than 11 fails with EOF, and a bad byte 8, 9 or 10 fails authentication |
| `ParseFacts.OrderFromFlag` | src/lib.rs:216-220 | after a successful parse byte 8 is 0 or 1, and 1 gives big-endian, 0 little-endian |
| `ParseFacts.ParsedFields` | src/lib.rs:222-264 | header size, data version, root word, length byte (> 4), maximum offset and key bounds of a successful parse, by byte position |
| `ParseFacts.BundleTopPanic` | src/lib.rs:240-241 | past the length gate, with the bundle-top word present, the table read panics on `bundle_top - 1` exactly when that word is 0 |
| `ParseFacts.LengthGate` | src/lib.rs:228-232 | once the header passes, the parse fails with "not enough indexes" exactly when the length byte is at most 4 |
| `ParseFacts.IndexTableGate` | src/lib.rs:228-232 | the table read fails with "not enough indexes" exactly when the low byte of `indexes_0` is at most 4 |
| `ParseFacts.ShortTableSkipsAttributes` | src/lib.rs:234-249 | with length 5 or less the flags stay false, the 16-bit limit stays 0 and the pool limit is the one from `indexes_0` |
| `ParseFacts.LongTableDecodesAttributes` | src/lib.rs:243-257 | with length over 5 the flags, the 16-bit limit and the merged pool limit come from the attribute word at `header_size + 9` |
| `ParseFacts.MergeKeepsLimit` | src/lib.rs:255 | with bits 15..12 clear, the merge leaves a 24-bit limit as it is |
| `ParseFacts.AttributeExample` | src/lib.rs:252-256 | the word 0x00010007 sets all three flags and a 16-bit limit of 1, and leaves the pool limit alone |
| `ParseFacts.KeyBufferSizing` | src/lib.rs:262-275 | the buffer is non-empty exactly when `keys_top > keys_bottom`; the local limit is set exactly for a non-pool bundle and is then four bytes per slot |
| `ParseFacts.KeyBufferExample` | src/lib.rs:265-271 | length 6 and `keys_top` 10 give 40 bytes, or 3 for a pool bundle |
| `ParseFacts.FixtureHeaderSize` | src/lib.rs:415-417 | the fixture's header size is 32 |
| `ParseFacts.FixtureFormat` | src/lib.rs:419-420 | the fixture is a resource bundle of format version 3.0.0.0 |
| `ParseFacts.FixtureHeader` | src/lib.rs:415-421 | the fixture's header passes, big-endian, with size 32 and data version 1.4.0.0 |
| `ParseFacts.FixtureWords` | src/lib.rs:424-427 | the fixture's table words at their byte offsets |
| `ParseFacts.FixtureTable` | src/lib.rs:424-427 | the fixture's table read, field by field |
| `ParseFacts.FixtureAttributes` | src/lib.rs:425-427 | the fixture's attribute word 0x00000900 sets no flag and keeps the limit 0xcb92 |
| `ParseFacts.FixtureKeys` | src/lib.rs:425-426 | the fixture's key table: bottom 9 and top 0xcb920800, four bytes per slot |
| `ParseFacts.FixtureParses` | src/lib.rs:412-432 | the whole fixture parses as a resource bundle, with every computed field given |
| `ParseFacts.FixtureVersion` | src/lib.rs:429-431 | the reader built from the fixture reports `Unicode10_0((1, 4, 0, 0))` |

## Left out

- The generic `R: Read + Seek` source and `OrderedReader`'s `Read`/`Seek`
  delegation (src/lib.rs:134-150). The source is an immutable byte sequence
  with a position. Seeking never fails.
- The `byteorder` crate. Big- and little-endian decoding is written out on
  bytes.
- `io::Error` values, their kinds and their message strings. The causes are
  told apart, as `Errors.Error`, by the check that raised them, which is finer
  than kind plus message: src/lib.rs:365 and src/lib.rs:400 both return
  `InvalidData` with the same message.
- `Vec::with_capacity` for the key buffer. Only the capacity number is
  modelled.
- Release-mode wrapping at the three overflow sites. The debug build's panic
  is modelled instead, as a distinct outcome.
- Decoding of the resource tree at `root_resource`, pool-bundle sharing, and
  a real data-version-to-Unicode mapping. The code has none of these.
- `Reader.OrderedReader.ReadU16`: leaves the position unspecified after a
  failed read. The byte reads that passed before the failure have moved it,
  as with a generic `Read`, and every caller abandons the parse then.
- `Reader.OrderedReader.ReadU32`: the same about the position after a failed
  read.
- `Header.ReadQuad`: the same about the position after a failed read.
- `Bundle.ResourceBundleReader.TryInit`: says nothing about the source's
  position after a failed parse, because a `Read` makes no promise about the
  position after an error.
- A 64-bit `usize` is assumed. On a 32-bit target `(keys_top as usize) << 2`
  (src/lib.rs:269) would lose the top two bits of `keys_top`; the model
  computes `keys_top * 4` unbounded.
- Memory allocation. The fixture's non-pool key buffer asks
  `Vec::with_capacity` for 0xcb920800 * 4 bytes, about 13.6 GB, so
  `ParseFacts.FixtureParses` holds only because allocation failure is not
  modelled.
