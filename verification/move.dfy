/**
 * `Move`: a 16-bit word packing the origin square in bits 0-5, the move
 * flag in bits 6-9 and the destination square in bits 10-15.
 */
module Moves {
  import opened Types
  import opened Squares

  type Move = bv16

  /** `FLAG_MASK`: bits 6-9. */
  const FLAG_MASK: bv16 := 15 << 6

  /** `Move(value)` with its default argument: the null move. */
  const NULL_MOVE: Move := 0

  /**
   * `Move(from, to, flag)`: `to << 10 | flag | from`, truncated to 16 bits
   * as the assignment to the `uint16_t` field does.
   */
  function NewMove(from: Square, to: Square, flag: MoveFlag): Move {
    ((to as bv16) << 10) | flag | (from as bv16)
  }

  function GetFromSquare(m: Move): (s: Square)
    ensures s < 64
  {
    (m & 63) as int
  }

  function GetToSquare(m: Move): (s: Square)
    ensures s < 64
  {
    (m >> 10) as int
  }

  function GetFlag(m: Move): (flag: MoveFlag)
    ensures flag & !FLAG_MASK == 0
  {
    m & FLAG_MASK
  }

  /** `IsCapture`: bit 8, the bit CAPTURE_FLAG sets. */
  predicate IsCapture(m: Move) {
    m & CAPTURE_FLAG != 0
  }

  /** `IsEnPassant`: both bits of EN_PASSANT_FLAG are set. */
  predicate IsEnPassant(m: Move) {
    m & EN_PASSANT_FLAG == EN_PASSANT_FLAG
  }

  /** `IsPromotion`: bit 9, the bit KNIGHT_PROMOTION_FLAG sets. */
  predicate IsPromotion(m: Move) {
    m & KNIGHT_PROMOTION_FLAG != 0
  }

  /** `GetPromotionPieceType`: the low two bits of the flag code, plus one. */
  function GetPromotionPieceType(m: Move): (p: PieceType)
    ensures KNIGHT <= p <= QUEEN
  {
    PromotionPieceOf(GetFlag(m))
  }

  function PromotionPieceOf(flag: MoveFlag): (p: PieceType)
    ensures KNIGHT <= p <= QUEEN
  {
    (((flag >> 6) & 3) + 1) as int
  }

  /** Every flag enumerator lies inside FLAG_MASK. */
  lemma FlagInsideMask(flag: MoveFlag)
    requires IsMoveFlag(flag)
    ensures flag & !FLAG_MASK == 0
  {
  }

  lemma FromRoundTrip(from: BoardSquare, to: BoardSquare, flag: MoveFlag)
    requires flag & !FLAG_MASK == 0
    ensures GetFromSquare(NewMove(from, to, flag)) == from
  {
    var f := from as bv16;
    var t := to as bv16;
    SmallBits(from);
    FromBits(f, t << 10, flag);
  }

  lemma SmallBits(x: int)
    requires 0 <= x < 64
    ensures (x as bv16) as int == x && x as bv16 < 64
  {
  }

  lemma WordBits(b: bv16)
    ensures (b as int) as bv16 == b
  {
  }

  lemma FromBits(f: bv16, t: bv16, flag: bv16)
    requires f < 64 && t & 1023 == 0 && flag & !FLAG_MASK == 0
    ensures (t | flag | f) & 63 == f
  {
  }

  lemma ToRoundTrip(from: BoardSquare, to: BoardSquare, flag: MoveFlag)
    requires flag & !FLAG_MASK == 0
    ensures GetToSquare(NewMove(from, to, flag)) == to
  {
    var t := to as bv16;
    SmallBits(from);
    SmallBits(to);
    ToBits(from as bv16, t, flag);
  }

  lemma ToBits(f: bv16, t: bv16, flag: bv16)
    requires f < 64 && t < 64 && flag & !FLAG_MASK == 0
    ensures ((t << 10) | flag | f) >> 10 == t
  {
  }

  lemma FlagRoundTrip(from: BoardSquare, to: BoardSquare, flag: MoveFlag)
    requires flag & !FLAG_MASK == 0
    ensures GetFlag(NewMove(from, to, flag)) == flag
  {
    FlagBits(from as bv16, to as bv16, flag);
  }

  lemma FlagBits(f: bv16, t: bv16, flag: bv16)
    requires f < 64 && flag & !FLAG_MASK == 0
    ensures ((t << 10) | flag | f) & FLAG_MASK == flag
  {
  }

  /** Decoding a packed move gives back its origin, destination and flag. */
  lemma DecodeEncode(from: BoardSquare, to: BoardSquare, flag: MoveFlag)
    requires IsMoveFlag(flag)
    ensures GetFromSquare(NewMove(from, to, flag)) == from
    ensures GetToSquare(NewMove(from, to, flag)) == to
    ensures GetFlag(NewMove(from, to, flag)) == flag
  {
    FlagInsideMask(flag);
    FromRoundTrip(from, to, flag);
    ToRoundTrip(from, to, flag);
    FlagRoundTrip(from, to, flag);
  }

  /** Every 16-bit word is the packing of its three fields. */
  lemma EncodeDecode(m: Move)
    ensures NewMove(GetFromSquare(m), GetToSquare(m), GetFlag(m)) == m
  {
    var f := m & 63;
    var t := m >> 10;
    WordBits(f);
    WordBits(t);
    SplitBits(m, f, t);
  }

  lemma SplitBits(m: bv16, f: bv16, t: bv16)
    requires f == m & 63 && t == m >> 10
    ensures (t << 10) | (m & FLAG_MASK) | f == m
  {
  }

  /** The capture, en-passant and promotion tests read only the flag bits. */
  lemma TestsReadFlag(m: Move)
    ensures IsCapture(m) <==> GetFlag(m) & CAPTURE_FLAG != 0
    ensures IsEnPassant(m) <==> GetFlag(m) & EN_PASSANT_FLAG == EN_PASSANT_FLAG
    ensures IsPromotion(m) <==> GetFlag(m) & KNIGHT_PROMOTION_FLAG != 0
  {
  }

  /** `IsCapture` holds exactly for the six capturing flags. */
  lemma CaptureFlags(from: BoardSquare, to: BoardSquare, flag: MoveFlag)
    requires IsMoveFlag(flag)
    ensures IsCapture(NewMove(from, to, flag)) <==> IsCaptureKind(flag)
  {
    DecodeEncode(from, to, flag);
    TestsReadFlag(NewMove(from, to, flag));
    MoveFlagBits(flag);
  }

  /** `IsPromotion` holds exactly for the eight promotion flags. */
  lemma PromotionFlags(from: BoardSquare, to: BoardSquare, flag: MoveFlag)
    requires IsMoveFlag(flag)
    ensures IsPromotion(NewMove(from, to, flag)) <==> IsPromotionKind(flag)
  {
    DecodeEncode(from, to, flag);
    TestsReadFlag(NewMove(from, to, flag));
    MoveFlagBits(flag);
  }

  /**
   * `IsEnPassant` as written: the flags holding both bits of EN_PASSANT_FLAG
   * are EN_PASSANT_FLAG and the bishop and queen promotion captures.
   */
  lemma EnPassantAsWritten(flag: MoveFlag)
    requires IsMoveFlag(flag)
    ensures flag & EN_PASSANT_FLAG == EN_PASSANT_FLAG <==>
            flag in {EN_PASSANT_FLAG, BISHOP_PROMOTION_CAPTURE_FLAG, QUEEN_PROMOTION_CAPTURE_FLAG}
  {
  }

  /** A bishop promotion capture passes the en-passant test. */
  lemma BishopPromotionCaptureLooksEnPassant()
    ensures IsEnPassant(NewMove(52, 59, BISHOP_PROMOTION_CAPTURE_FLAG))
    ensures GetFlag(NewMove(52, 59, BISHOP_PROMOTION_CAPTURE_FLAG)) != EN_PASSANT_FLAG
  {
    DecodeEncode(52, 59, BISHOP_PROMOTION_CAPTURE_FLAG);
    TestsReadFlag(NewMove(52, 59, BISHOP_PROMOTION_CAPTURE_FLAG));
  }

  /** The en-passant test as intended: the flag is EN_PASSANT_FLAG. */
  predicate IsEnPassantMove(m: Move) {
    GetFlag(m) == EN_PASSANT_FLAG
  }

  /** The intended test picks out en-passant moves and nothing else. */
  lemma EnPassantExactly(from: BoardSquare, to: BoardSquare, flag: MoveFlag)
    requires IsMoveFlag(flag)
    ensures IsEnPassantMove(NewMove(from, to, flag)) <==> flag == EN_PASSANT_FLAG
  {
    DecodeEncode(from, to, flag);
  }

  /** The piece a promotion flag promotes to, capture or not. */
  lemma PromotionPieces(flag: MoveFlag)
    requires IsPromotionKind(flag)
    ensures flag in {KNIGHT_PROMOTION_FLAG, KNIGHT_PROMOTION_CAPTURE_FLAG} ==> PromotionPieceOf(flag) == KNIGHT
    ensures flag in {BISHOP_PROMOTION_FLAG, BISHOP_PROMOTION_CAPTURE_FLAG} ==> PromotionPieceOf(flag) == BISHOP
    ensures flag in {ROOK_PROMOTION_FLAG, ROOK_PROMOTION_CAPTURE_FLAG} ==> PromotionPieceOf(flag) == ROOK
    ensures flag in {QUEEN_PROMOTION_FLAG, QUEEN_PROMOTION_CAPTURE_FLAG} ==> PromotionPieceOf(flag) == QUEEN
  {
  }

  /** The promotion piece of a packed move is the one its flag names. */
  lemma PromotionPieceOfMove(from: BoardSquare, to: BoardSquare, flag: MoveFlag)
    requires IsPromotionKind(flag)
    ensures GetPromotionPieceType(NewMove(from, to, flag)) == PromotionPieceOf(flag)
  {
    FlagRoundTrip(from, to, flag);
  }

  /** `PROMOTION_PIECE`: the suffix letter of each promotion piece. */
  const PROMOTION_PIECE: seq<char> := ['n', 'b', 'r', 'q']

  /**
   * `Move::ToString(chess960)`. `isCastle` is the answer of `IsCastle()`,
   * which is not part of this model.
   */
  function ToString(m: Move, chess960: bool, isCastle: bool): (text: string)
    ensures m == NULL_MOVE ==> text == "null_move"
    ensures m != NULL_MOVE ==> 4 <= |text| <= 5
  {
    if m == NULL_MOVE then "null_move"
    else
      var from := GetFromSquare(m);
      var to := GetToSquare(m);
      if !chess960 && isCastle then
        Squares.ToString(from) + Squares.ToString(CastleDestination(m))
      else
        var squares := Squares.ToString(from) + Squares.ToString(to);
        if IsPromotion(m) then squares + [PROMOTION_PIECE[GetPromotionPieceType(m) - 1]] else squares
  }

  /**
   * The king's destination printed for a castle: c1 for a queen-side castle
   * and g1 otherwise, moved to rank 8 when the origin is in the upper half.
   */
  function CastleDestination(m: Move): (s: BoardSquare)
    ensures GetFile(s) == (if GetFlag(m) == QUEEN_SIDE_CASTLE_FLAG then 2 else 6)
    ensures GetRank(s) == (if GetFromSquare(m) < 32 then 0 else 7)
  {
    var side := if GetFromSquare(m) < 32 then WHITE else BLACK;
    (if GetFlag(m) == QUEEN_SIDE_CASTLE_FLAG then C1 else G1) + 56 * side
  }

  /**
   * The text of a move that is not printed as a castle parses back: the
   * first two characters give the origin, the next two the destination, and
   * a fifth character appears exactly for promotions and names the piece.
   */
  lemma ToStringParses(m: Move, chess960: bool, isCastle: bool)
    requires m != NULL_MOVE && !(!chess960 && isCastle)
    ensures FromText(ToString(m, chess960, isCastle)[0..2]) == GetFromSquare(m)
    ensures FromText(ToString(m, chess960, isCastle)[2..4]) == GetToSquare(m)
    ensures |ToString(m, chess960, isCastle)| == 5 <==> IsPromotion(m)
    ensures IsPromotion(m) ==>
              ToString(m, chess960, isCastle)[4] == PROMOTION_PIECE[GetPromotionPieceType(m) - KNIGHT]
  {
    var text := ToString(m, chess960, isCastle);
    var from := GetFromSquare(m);
    var to := GetToSquare(m);
    assert text[0..2] == Squares.ToString(from);
    assert text[2..4] == Squares.ToString(to);
    TextRoundTrip(from);
    TextRoundTrip(to);
  }

  /** A castle in standard notation parses back to its origin and its printed destination. */
  lemma CastleToStringParses(m: Move)
    requires m != NULL_MOVE
    ensures |ToString(m, false, true)| == 4
    ensures FromText(ToString(m, false, true)[0..2]) == GetFromSquare(m)
    ensures FromText(ToString(m, false, true)[2..4]) == CastleDestination(m)
  {
    var text := ToString(m, false, true);
    assert text[0..2] == Squares.ToString(GetFromSquare(m));
    assert text[2..4] == Squares.ToString(CastleDestination(m));
    TextRoundTrip(GetFromSquare(m));
    TextRoundTrip(CastleDestination(m));
  }

  /** The white king-side castle e1-g1 prints as "e1g1" in standard notation. */
  lemma WhiteKingSideCastleText()
    ensures ToString(NewMove(E1, G1, KING_SIDE_CASTLE_FLAG), false, true) == "e1g1"
  {
    DecodeEncode(E1, G1, KING_SIDE_CASTLE_FLAG);
  }
}
