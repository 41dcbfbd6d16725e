/**
 * Unicode versions a data file can be tagged with (src/version.rs).
 *
 * Every variant carries the data file's raw four-byte data version.  Rust's
 * derived ordering compares the variant's position in the declaration first
 * and the carried bytes second; `Cmp` states that order and the lemmas below
 * show it is a total order.  The conversion from raw bytes is a stub in the
 * source: it accepts every quad and always picks the newest variant.
 */
module Versions {
  import opened Bits
  import opened Errors

  /** (major, minor, milli, micro) as read from the file. */
  type PiecewiseVersion = (Byte, Byte, Byte, Byte)

  datatype Version =
    | Unicode1_0(quad: PiecewiseVersion)
    | Unicode1_0_1(quad: PiecewiseVersion)
    | Unicode1_1_0(quad: PiecewiseVersion)
    | Unicode1_1_5(quad: PiecewiseVersion)
    | Unicode2_0(quad: PiecewiseVersion)
    | Unicode2_1_2(quad: PiecewiseVersion)
    | Unicode2_1_5(quad: PiecewiseVersion)
    | Unicode2_1_8(quad: PiecewiseVersion)
    | Unicode2_1_9(quad: PiecewiseVersion)
    | Unicode3_0(quad: PiecewiseVersion)
    | Unicode3_0_1(quad: PiecewiseVersion)
    | Unicode3_1_0(quad: PiecewiseVersion)
    | Unicode3_1_1(quad: PiecewiseVersion)
    | Unicode3_2(quad: PiecewiseVersion)
    | Unicode4_0(quad: PiecewiseVersion)
    | Unicode4_0_1(quad: PiecewiseVersion)
    | Unicode4_1(quad: PiecewiseVersion)
    | Unicode5_0(quad: PiecewiseVersion)
    | Unicode5_1(quad: PiecewiseVersion)
    | Unicode5_2(quad: PiecewiseVersion)
    | Unicode6_0(quad: PiecewiseVersion)
    | Unicode6_1(quad: PiecewiseVersion)
    | Unicode6_2(quad: PiecewiseVersion)
    | Unicode6_3(quad: PiecewiseVersion)
    | Unicode7_0(quad: PiecewiseVersion)
    | Unicode8_0(quad: PiecewiseVersion)
    | Unicode9_0(quad: PiecewiseVersion)
    | Unicode10_0(quad: PiecewiseVersion)

  /** Position of the variant in the declaration, the first key of the derived order. */
  function Rank(v: Version): (r: nat)
    ensures r < 28
  {
    match v
    case Unicode1_0(_) => 0
    case Unicode1_0_1(_) => 1
    case Unicode1_1_0(_) => 2
    case Unicode1_1_5(_) => 3
    case Unicode2_0(_) => 4
    case Unicode2_1_2(_) => 5
    case Unicode2_1_5(_) => 6
    case Unicode2_1_8(_) => 7
    case Unicode2_1_9(_) => 8
    case Unicode3_0(_) => 9
    case Unicode3_0_1(_) => 10
    case Unicode3_1_0(_) => 11
    case Unicode3_1_1(_) => 12
    case Unicode3_2(_) => 13
    case Unicode4_0(_) => 14
    case Unicode4_0_1(_) => 15
    case Unicode4_1(_) => 16
    case Unicode5_0(_) => 17
    case Unicode5_1(_) => 18
    case Unicode5_2(_) => 19
    case Unicode6_0(_) => 20
    case Unicode6_1(_) => 21
    case Unicode6_2(_) => 22
    case Unicode6_3(_) => 23
    case Unicode7_0(_) => 24
    case Unicode8_0(_) => 25
    case Unicode9_0(_) => 26
    case Unicode10_0(_) => 27
  }

  /** The variant at position `rank` carrying `q`: the inverse of `Rank` and `quad`. */
  function Make(rank: nat, q: PiecewiseVersion): (v: Version)
    requires rank < 28
  {
    if rank == 0 then Unicode1_0(q)
    else if rank == 1 then Unicode1_0_1(q)
    else if rank == 2 then Unicode1_1_0(q)
    else if rank == 3 then Unicode1_1_5(q)
    else if rank == 4 then Unicode2_0(q)
    else if rank == 5 then Unicode2_1_2(q)
    else if rank == 6 then Unicode2_1_5(q)
    else if rank == 7 then Unicode2_1_8(q)
    else if rank == 8 then Unicode2_1_9(q)
    else if rank == 9 then Unicode3_0(q)
    else if rank == 10 then Unicode3_0_1(q)
    else if rank == 11 then Unicode3_1_0(q)
    else if rank == 12 then Unicode3_1_1(q)
    else if rank == 13 then Unicode3_2(q)
    else if rank == 14 then Unicode4_0(q)
    else if rank == 15 then Unicode4_0_1(q)
    else if rank == 16 then Unicode4_1(q)
    else if rank == 17 then Unicode5_0(q)
    else if rank == 18 then Unicode5_1(q)
    else if rank == 19 then Unicode5_2(q)
    else if rank == 20 then Unicode6_0(q)
    else if rank == 21 then Unicode6_1(q)
    else if rank == 22 then Unicode6_2(q)
    else if rank == 23 then Unicode6_3(q)
    else if rank == 24 then Unicode7_0(q)
    else if rank == 25 then Unicode8_0(q)
    else if rank == 26 then Unicode9_0(q)
    else Unicode10_0(q)
  }

  lemma MakeRecovers(v: Version)
    ensures Make(Rank(v), v.quad) == v
  {
  }

  datatype Ordering = Less | Equal | Greater {
    function Flip(): Ordering {
      match this
      case Less => Greater
      case Equal => Equal
      case Greater => Less
    }
  }

  function CmpInt(a: int, b: int): Ordering {
    if a < b then Less else if a > b then Greater else Equal
  }

  /** Lexicographic order on quads, as derived for Rust tuples. */
  function CmpQuad(p: PiecewiseVersion, q: PiecewiseVersion): (o: Ordering)
    ensures o == Equal <==> p == q
  {
    if p.0 != q.0 then CmpInt(p.0, q.0)
    else if p.1 != q.1 then CmpInt(p.1, q.1)
    else if p.2 != q.2 then CmpInt(p.2, q.2)
    else CmpInt(p.3, q.3)
  }

  /**
   * The derived `Ord` of `Version`: declaration order, then the quad.  It
   * says Equal exactly when the two are the same value.
   */
  function Cmp(a: Version, b: Version): (o: Ordering)
    ensures o == Equal <==> a == b
  {
    MakeRecovers(a);
    MakeRecovers(b);
    if Rank(a) != Rank(b) then CmpInt(Rank(a), Rank(b)) else CmpQuad(a.quad, b.quad)
  }

  predicate Le(a: Version, b: Version) {
    Cmp(a, b) != Greater
  }

  /** Swapping the operands flips the answer. */
  lemma CmpAntisymmetric(a: Version, b: Version)
    ensures Cmp(b, a) == Cmp(a, b).Flip()
  {
    var ra, rb := Rank(a), Rank(b);
    if ra != rb {
      CmpIntFlip(ra, rb);
    } else {
      CmpQuadFlip(a.quad, b.quad);
    }
  }

  lemma CmpIntFlip(x: int, y: int)
    ensures CmpInt(y, x) == CmpInt(x, y).Flip()
  {
  }

  lemma CmpQuadFlip(p: PiecewiseVersion, q: PiecewiseVersion)
    ensures CmpQuad(q, p) == CmpQuad(p, q).Flip()
  {
  }

  lemma LeTransitive(a: Version, b: Version, c: Version)
    requires Le(a, b) && Le(b, c)
    ensures Le(a, c)
  {
    LeRanks(a, b);
    LeRanks(b, c);
    if Rank(a) == Rank(c) {
      QuadLeTransitive(a.quad, b.quad, c.quad);
    }
    RanksLe(a, c);
  }

  /** The converse of `LeRanks`. */
  lemma RanksLe(a: Version, b: Version)
    requires Rank(a) <= Rank(b)
    requires Rank(a) == Rank(b) ==> CmpQuad(a.quad, b.quad) != Greater
    ensures Le(a, b)
  {
  }

  /** `a <= b` orders the variants, and the quads when the variants agree. */
  lemma LeRanks(a: Version, b: Version)
    requires Le(a, b)
    ensures Rank(a) <= Rank(b)
    ensures Rank(a) == Rank(b) ==> CmpQuad(a.quad, b.quad) != Greater
  {
  }

  lemma QuadLeTransitive(p: PiecewiseVersion, q: PiecewiseVersion, r: PiecewiseVersion)
    requires CmpQuad(p, q) != Greater && CmpQuad(q, r) != Greater
    ensures CmpQuad(p, r) != Greater
  {
  }

  lemma LeTotal(a: Version, b: Version)
    ensures Le(a, b) || Le(b, a)
  {
    CmpAntisymmetric(a, b);
  }

  lemma LeAntisymmetric(a: Version, b: Version)
    requires Le(a, b) && Le(b, a)
    ensures a == b
  {
    CmpAntisymmetric(a, b);
  }

  /** The variant order is the declaration order, whatever the quads say. */
  lemma EarlierVariantIsLess(a: Version, b: Version)
    requires Rank(a) < Rank(b)
    ensures Cmp(a, b) == Less
  {
  }

  /**
   * `Version::try_from`: never fails, always the newest variant, the quad
   * kept unchanged.
   */
  function TryFrom(version: PiecewiseVersion): (r: Result<Version>)
    ensures r.Ok?
    ensures r.value.Unicode10_0?
    ensures r.value.quad == version
  {
    Ok(Unicode10_0(version))
  }

  /** Distinct quads give distinct versions. */
  lemma TryFromInjective(p: PiecewiseVersion, q: PiecewiseVersion)
    requires TryFrom(p) == TryFrom(q)
    ensures p == q
  {
  }

  /** Every other variant orders below whatever `try_from` yields. */
  lemma TryFromRanksLast(v: Version, q: PiecewiseVersion)
    requires !v.Unicode10_0?
    ensures Cmp(v, TryFrom(q).value) == Less
  {
  }
}
