/**
 * The sub-formats a data file can declare, and the format versions each
 * one accepts (src/lib.rs:38-108).
 */
module Formats {
  import opened Bits
  import opened Errors

  datatype DataFormat =
    | ResourceBundle
    | Collation
    | Dictionary
    | Dat
    | Normalized2
    | CharacterProperty
    | BreakIteration
    | Spoof
    | StringPrep
    | BiDi
    | Case
    | CharacterName
    | ConverterAlias
    | Converter
    | PropertyAlias

  /**
   * `data_format as u32`: the discriminant each variant is declared with,
   * the big-endian reading of the variant's four-character ASCII tag.
   */
  function Discriminant(f: DataFormat): (r: U32)
    ensures forall i :: 0 <= i < 4 ==> TagName(f)[i] as int < 0x100
    ensures r == AsciiWord(TagName(f))
  {
    match f
    case ResourceBundle => 0x5265_7342
    case Collation => 0x5543_6f6c
    case Dictionary => 0x4469_6374
    case Dat => 0x436d_6e44
    case Normalized2 => 0x4e72_6d32
    case CharacterProperty => 0x5550_726f
    case BreakIteration => 0x4272_6b20
    case Spoof => 0x4366_7520
    case StringPrep => 0x5350_5250
    case BiDi => 0x4269_4469
    case Case => 0x6341_5345
    case CharacterName => 0x756e_616d
    case ConverterAlias => 0x4376_416c
    case Converter => 0x636e_7674
    case PropertyAlias => 0x706e_616d
  }

  /**
   * The four ASCII characters each discriminant spells.  (Two comments in
   * the source misspell theirs: StringPrep's value spells "SPRP", not
   * "SPDR", and Case's spells "cASE", not "cAsE".)
   */
  function TagName(f: DataFormat): (s: string)
    ensures |s| == 4
  {
    match f
    case ResourceBundle => "ResB"
    case Collation => "UCol"
    case Dictionary => "Dict"
    case Dat => "CmnD"
    case Normalized2 => "Nrm2"
    case CharacterProperty => "UPro"
    case BreakIteration => "Brk "
    case Spoof => "Cfu "
    case StringPrep => "SPRP"
    case BiDi => "BiDi"
    case Case => "cASE"
    case CharacterName => "unam"
    case ConverterAlias => "CvAl"
    case Converter => "cnvt"
    case PropertyAlias => "pnam"
  }

  /** The `u32` read big-endian from the character codes of a four-character ASCII string. */
  function AsciiWord(s: string): U32
    requires |s| == 4 && forall i :: 0 <= i < 4 ==> s[i] as int < 0x100
  {
    Be32((s[0] as int, s[1] as int, s[2] as int, s[3] as int))
  }

  /** No two formats share a discriminant. */
  lemma DiscriminantInjective(f: DataFormat, g: DataFormat)
    requires Discriminant(f) == Discriminant(g)
    ensures f == g
  {
  }

  /**
   * The four bytes the header must hold at offset 12 for format `f`: the
   * big-endian bytes of its discriminant.
   */
  function TagBytes(f: DataFormat): (q: Quad)
    ensures Be32(q) == Discriminant(f)
  {
    Be32RoundTrip(Discriminant(f), (0, 0, 0, 0));
    Be32Bytes(Discriminant(f))
  }

  /** The expected header bytes are the tag's characters, in order. */
  lemma TagBytesSpellTag(f: DataFormat)
    ensures var s := TagName(f);
      && (forall i :: 0 <= i < 4 ==> s[i] as int < 0x100)
      && TagBytes(f) == (s[0] as int, s[1] as int, s[2] as int, s[3] as int)
  {
    var s := TagName(f);
    var q: Quad := (s[0] as int, s[1] as int, s[2] as int, s[3] as int);
    Be32RoundTrip(0, q);
    Be32RoundTrip(0, TagBytes(f));
  }

  /**
   * `is_acceptable_version`: whether `f` accepts the format version
   * `(v.0, v.1, v.2, v.3)` (major, minor, milli, micro).  Only the
   * BreakIteration rule can panic, from a shift by 32 or more.
   */
  function IsAcceptableVersion(f: DataFormat, v: Quad): (r: Result<bool>)
    ensures r.Err? ==> f == BreakIteration && r.error == Overflow(BreakIterationShift)
  {
    match f
    case ResourceBundle => Ok((v.0 == 1 && v.1 >= 1) || v.0 == 2 || v.0 == 3)
    case Collation => Ok(v.0 == 5)
    case Dictionary => Ok(true)
    case Dat => Ok(v.0 == 1)
    case Normalized2 => Ok(v.0 == 3)
    case CharacterProperty => Ok(v.0 == 7)
    case BreakIteration => BreakIterationCheck(v)
    case Spoof => Ok(v.0 == 2 || v.1 != 0 || v.2 != 0 || v.3 != 0)
    case StringPrep => Ok(v.0 == 3 && v.2 == 5 && v.3 == 2)
    case BiDi => Ok(v.0 == 2)
    case Case => Ok(v.0 == 3)
    case CharacterName => Ok(v.0 == 1)
    case ConverterAlias => Ok(v.0 == 3 && v.1 == 0 && v.2 == 1)
    case Converter => Ok(v.0 == 6)
    case PropertyAlias => Ok(v.0 == 2)
  }

  /**
   * The BreakIteration rule as the source writes it.  Since `+` binds
   * tighter than `<<`, it computes `((a << (24 + b)) << (16 + c)) << (8 + d)`
   * in `u32`, each shift panicking when its amount reaches 32, and compares
   * the outcome with 0x0400_0000.
   */
  function BreakIterationCheck(v: Quad): (r: Result<bool>)
    ensures r.Err? <==> (v.1 >= 8 || v.2 >= 16 || v.3 >= 24)
    ensures r.Err? ==> r.error == Overflow(BreakIterationShift)
  {
    var s1 := 24 + v.1;
    if s1 >= 32 then Err(Overflow(BreakIterationShift)) else
    var x1 := Shl32(v.0, s1);
    var s2 := 16 + v.2;
    if s2 >= 32 then Err(Overflow(BreakIterationShift)) else
    var x2 := Shl32(x1, s2);
    var s3 := 8 + v.3;
    if s3 >= 32 then Err(Overflow(BreakIterationShift)) else
    Ok(Shl32(x2, s3) == 0x0400_0000)
  }

  /**
   * The BreakIteration rule accepts no version at all: it panics when a
   * shift amount reaches 32 and otherwise has shifted every bit out.
   */
  lemma BreakIterationNeverAccepts(v: Quad)
    ensures IsAcceptableVersion(BreakIteration, v).Err? <==> (v.1 >= 8 || v.2 >= 16 || v.3 >= 24)
    ensures IsAcceptableVersion(BreakIteration, v) != Ok(true)
  {
    if v.1 < 8 && v.2 < 16 && v.3 < 24 {
      Shl32Twice(v.0, 24 + v.1, 16 + v.2);
      assert Shl32(0, 8 + v.3) == 0;
    }
  }

  /**
   * Version 4.0.0.0 is the one quad whose plain big-endian packing is the
   * constant the BreakIteration rule compares with ...
   */
  lemma FourPacksToTarget(v: Quad)
    ensures Be32(v) == 0x0400_0000 <==> v == (4, 0, 0, 0)
  {
    Be32RoundTrip(0x0400_0000, v);
  }

  /** ... and the rule rejects it. */
  lemma BreakIterationRejectsFour()
    ensures IsAcceptableVersion(BreakIteration, (4, 0, 0, 0)) == Ok(false)
  {
    BreakIterationNeverAccepts((4, 0, 0, 0));
  }

  /** Version bytes the rule of `f` looks at; the others never matter. */
  function Inspected(f: DataFormat): (s: set<nat>)
    ensures s <= {0, 1, 2, 3}
  {
    match f
    case ResourceBundle => {0, 1}
    case Dictionary => {}
    case BreakIteration => {0, 1, 2, 3}
    case Spoof => {0, 1, 2, 3}
    case StringPrep => {0, 2, 3}
    case ConverterAlias => {0, 1, 2}
    case _ => {0}
  }

  predicate AgreeOn(s: set<nat>, p: Quad, q: Quad) {
    && (0 in s ==> p.0 == q.0)
    && (1 in s ==> p.1 == q.1)
    && (2 in s ==> p.2 == q.2)
    && (3 in s ==> p.3 == q.3)
  }

  /**
   * Two versions that agree on the bytes `f` inspects get the same verdict:
   * StringPrep ignores the minor byte, ConverterAlias the micro byte,
   * ResourceBundle the last two, Dictionary all four, and the other rules
   * everything but the major byte.
   */
  lemma VerdictDependsOnInspected(f: DataFormat, p: Quad, q: Quad)
    requires AgreeOn(Inspected(f), p, q)
    ensures IsAcceptableVersion(f, p) == IsAcceptableVersion(f, q)
  {
    if f == BreakIteration {
      assert p == q;
    }
  }

  /** The major version each single-byte rule requires; -1 for the other formats. */
  function RequiredMajor(f: DataFormat): int
  {
    match f
    case Collation => 5
    case Dat => 1
    case Normalized2 => 3
    case CharacterProperty => 7
    case BiDi => 2
    case Case => 3
    case CharacterName => 1
    case Converter => 6
    case PropertyAlias => 2
    case _ => -1
  }

  /** The nine formats with a required major version accept exactly that major version. */
  lemma MajorOnlyRules(f: DataFormat, v: Quad)
    requires RequiredMajor(f) >= 0
    ensures IsAcceptableVersion(f, v) == Ok(v.0 == RequiredMajor(f))
  {
  }

  /** ResourceBundle: major 2 or 3, or major 1 with a nonzero minor. */
  lemma ResourceBundleRule(v: Quad)
    ensures IsAcceptableVersion(ResourceBundle, v) == Ok(v.0 in {2, 3} || (v.0 == 1 && v.1 > 0))
    ensures IsAcceptableVersion(ResourceBundle, (1, 1, 0, 0)) == Ok(true)
    ensures IsAcceptableVersion(ResourceBundle, (1, 0, 0, 0)) == Ok(false)
    ensures IsAcceptableVersion(ResourceBundle, (2, 0, 0, 0)) == Ok(true)
    ensures IsAcceptableVersion(ResourceBundle, (3, 9, 9, 9)) == Ok(true)
    ensures IsAcceptableVersion(ResourceBundle, (0, 9, 9, 9)) == Ok(false)
  {
  }

  /** Spoof rejects exactly the versions x.0.0.0 with x other than 2. */
  lemma SpoofRule(v: Quad)
    ensures IsAcceptableVersion(Spoof, v) == Ok(false) <==> (v.0 != 2 && v.1 == 0 && v.2 == 0 && v.3 == 0)
  {
  }

  /**
   * StringPrep and ConverterAlias each accept exactly one setting of the
   * bytes they inspect; Dictionary accepts everything.
   */
  lemma ExactRules(v: Quad)
    ensures IsAcceptableVersion(StringPrep, v) == Ok(true) <==> v == (3, v.1, 5, 2)
    ensures IsAcceptableVersion(ConverterAlias, v) == Ok(true) <==> v == (3, 0, 1, v.3)
    ensures IsAcceptableVersion(Dictionary, v) == Ok(true)
  {
  }
}
