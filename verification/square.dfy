/**
 * `Square`: a byte holding a square index 0..63 (rank * 8 + file, a1 = 0,
 * h8 = 63) or NULL_SQUARE = 64 for "no square".
 */
module Squares {

  /** The stored byte `m_Value`. */
  type Square = v: int | 0 <= v < 256

  /** A square on the board. */
  type BoardSquare = v: Square | v < 64

  const NULL_SQUARE: Square := 64

  const A1: BoardSquare := 0
  const C1: BoardSquare := 2
  const E1: BoardSquare := 4
  const G1: BoardSquare := 6
  const E8: BoardSquare := 60

  /** `Square(value)`, whose default argument is NULL_SQUARE. */
  function FromValue(value: Square := NULL_SQUARE): (s: Square)
    ensures s == value
  {
    value
  }

  /** A default-constructed square is NULL_SQUARE, that is 64. */
  lemma DefaultIsNull()
    ensures FromValue() == NULL_SQUARE == 64
  {
  }

  /** `Square(rank, file)`: `rank * 8 + file` stored in a byte. */
  function FromRankFile(rank: Square, file: Square): Square {
    (rank * 8 + file) % 256
  }

  function GetRank(s: Square): (r: int)
    ensures 0 <= r < 32 && (s < 64 ==> r < 8)
  {
    s / 8
  }

  function GetFile(s: Square): (f: int)
    ensures 0 <= f < 8
  {
    s % 8
  }

  /** Rank and file decode back from `Square(rank, file)`. */
  lemma RankFileRoundTrip(rank: Square, file: Square)
    requires rank < 8 && file < 8
    ensures FromRankFile(rank, file) < 64
    ensures GetRank(FromRankFile(rank, file)) == rank
    ensures GetFile(FromRankFile(rank, file)) == file
  {
  }

  /** Every square is rebuilt from its rank and file. */
  lemma RankFileOfSquare(s: BoardSquare)
    ensures FromRankFile(GetRank(s), GetFile(s)) == s
  {
  }

  /** `Flipped`: `m_Value ^ 56`, the same square seen from the other side. */
  function Flipped(s: Square): Square {
    ((s as bv8) ^ 56) as int
  }

  /** Flipping keeps the file, mirrors the rank, and is an involution. */
  lemma FlippedMirrorsRank(s: BoardSquare)
    ensures Flipped(s) < 64
    ensures GetFile(Flipped(s)) == GetFile(s)
    ensures GetRank(Flipped(s)) == 7 - GetRank(s)
    ensures Flipped(Flipped(s)) == s
  {
    var b := s as bv8;
    assert b as int == s;
    FlipBits(b);
    ByteDivMod(b);
    ByteDivMod(b ^ 56);
    FlipBits(b ^ 56);
  }

  lemma FlipBits(b: bv8)
    requires b < 64
    ensures b ^ 56 < 64 && (b ^ 56) % 8 == b % 8 && (b ^ 56) / 8 == 7 - b / 8 && (b ^ 56) ^ 56 == b
  {
  }

  lemma ByteDivMod(b: bv8)
    ensures (b % 8) as int == (b as int) % 8 && (b / 8) as int == (b as int) / 8
  {
  }

  function Clamp(x: int, lo: int, hi: int): (r: int)
    requires lo <= hi
    ensures lo <= r <= hi
    ensures lo <= x <= hi ==> r == x
  {
    if x < lo then lo else if x > hi then hi else x
  }

  /**
   * `Square(text)`: the file from the first character and the rank from the
   * second, each clamped into 0..7.
   */
  function FromText(text: string): (s: BoardSquare)
    requires |text| >= 2
    ensures GetFile(s) == Clamp(text[0] as int - 'a' as int, 0, 7)
    ensures GetRank(s) == Clamp(text[1] as int - '0' as int - 1, 0, 7)
  {
    var file := Clamp(text[0] as int - 'a' as int, 0, 7);
    var rank := Clamp(text[1] as int - '0' as int - 1, 0, 7);
    rank * 8 + file
  }

  /** `ToString`: "-" for NULL_SQUARE, otherwise a file letter then a rank digit. */
  function ToString(s: Square): (text: string)
    ensures s == NULL_SQUARE ==> text == "-"
    ensures s != NULL_SQUARE ==> |text| == 2
  {
    if s == NULL_SQUARE then "-"
    else [('a' as int + GetFile(s)) as char, ('0' as int + GetRank(s) + 1) as char]
  }

  /** A board square prints as a letter 'a'..'h' followed by a digit '1'..'8'. */
  lemma ToStringShape(s: BoardSquare)
    ensures |ToString(s)| == 2
    ensures 'a' <= ToString(s)[0] <= 'h'
    ensures '1' <= ToString(s)[1] <= '8'
  {
  }

  /** Parsing the text of a board square gives the square back. */
  lemma TextRoundTrip(s: BoardSquare)
    ensures FromText(ToString(s)) == s
  {
    var t := ToString(s);
    assert t[0] as int - 'a' as int == GetFile(s);
    assert t[1] as int - '0' as int - 1 == GetRank(s);
  }
}
