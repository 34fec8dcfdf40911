/**
 * Enumerations and constant tables shared by the whole engine: the side to
 * move, piece types, the 4-bit move flags (stored pre-shifted into bits 6-9
 * of a move), the castle-right bits, phase weights, the standard per-square
 * castle mask and the move-buffer capacity.
 */
module Types {

  /** `SideToMove`, an unsigned byte holding WHITE = 0 or BLACK = 1. */
  type Side = s: int | 0 <= s <= 1

  const WHITE: Side := 0
  const BLACK: Side := 1

  /** `operator~`: the side computed as `1 - stm`. */
  function Opposite(stm: Side): (r: Side)
    ensures r != stm
    ensures r + stm == 1
  {
    1 - stm
  }

  /** `~` swaps the two sides and is an involution. */
  lemma OppositeSwaps(stm: Side)
    ensures Opposite(WHITE) == BLACK && Opposite(BLACK) == WHITE
    ensures Opposite(Opposite(stm)) == stm
  {
  }

  /** `PieceType`, including the NULL_PIECE marker. */
  type PieceType = p: int | 0 <= p <= 6

  /** A piece type that indexes the six piece bitboards. */
  type Piece = p: PieceType | p < 6

  const PAWN: Piece := 0
  const KNIGHT: Piece := 1
  const BISHOP: Piece := 2
  const ROOK: Piece := 3
  const QUEEN: Piece := 4
  const KING: Piece := 5
  const NULL_PIECE: PieceType := 6

  /** `MoveFlag`: a 16-bit value, a 4-bit code shifted left by 6. */
  type MoveFlag = bv16

  const QUIET_MOVE_FLAG: MoveFlag := 0 << 6
  const DOUBLE_PUSH_FLAG: MoveFlag := 1 << 6
  const KING_SIDE_CASTLE_FLAG: MoveFlag := 2 << 6
  const QUEEN_SIDE_CASTLE_FLAG: MoveFlag := 3 << 6
  const CAPTURE_FLAG: MoveFlag := 4 << 6
  const EN_PASSANT_FLAG: MoveFlag := 5 << 6
  const KNIGHT_PROMOTION_FLAG: MoveFlag := 8 << 6
  const BISHOP_PROMOTION_FLAG: MoveFlag := 9 << 6
  const ROOK_PROMOTION_FLAG: MoveFlag := 10 << 6
  const QUEEN_PROMOTION_FLAG: MoveFlag := 11 << 6
  const KNIGHT_PROMOTION_CAPTURE_FLAG: MoveFlag := 12 << 6
  const BISHOP_PROMOTION_CAPTURE_FLAG: MoveFlag := 13 << 6
  const ROOK_PROMOTION_CAPTURE_FLAG: MoveFlag := 14 << 6
  const QUEEN_PROMOTION_CAPTURE_FLAG: MoveFlag := 15 << 6

  /** The enumerators of `MoveFlag`, in declaration order. */
  const MOVE_FLAGS: seq<MoveFlag> := [
    QUIET_MOVE_FLAG, DOUBLE_PUSH_FLAG, KING_SIDE_CASTLE_FLAG, QUEEN_SIDE_CASTLE_FLAG,
    CAPTURE_FLAG, EN_PASSANT_FLAG,
    KNIGHT_PROMOTION_FLAG, BISHOP_PROMOTION_FLAG, ROOK_PROMOTION_FLAG, QUEEN_PROMOTION_FLAG,
    KNIGHT_PROMOTION_CAPTURE_FLAG, BISHOP_PROMOTION_CAPTURE_FLAG,
    ROOK_PROMOTION_CAPTURE_FLAG, QUEEN_PROMOTION_CAPTURE_FLAG
  ]

  /** The 4-bit codes of the enumerators, in the same order. */
  const MOVE_FLAG_CODES: seq<bv16> := [0, 1, 2, 3, 4, 5, 8, 9, 10, 11, 12, 13, 14, 15]

  predicate IsMoveFlag(flag: MoveFlag) {
    flag in MOVE_FLAGS
  }

  /** Flags that take a piece off the board. */
  predicate IsCaptureKind(flag: MoveFlag) {
    flag in {CAPTURE_FLAG, EN_PASSANT_FLAG, KNIGHT_PROMOTION_CAPTURE_FLAG,
             BISHOP_PROMOTION_CAPTURE_FLAG, ROOK_PROMOTION_CAPTURE_FLAG, QUEEN_PROMOTION_CAPTURE_FLAG}
  }

  /** Flags that replace the pawn by another piece. */
  predicate IsPromotionKind(flag: MoveFlag) {
    flag in {KNIGHT_PROMOTION_FLAG, BISHOP_PROMOTION_FLAG, ROOK_PROMOTION_FLAG, QUEEN_PROMOTION_FLAG,
             KNIGHT_PROMOTION_CAPTURE_FLAG, BISHOP_PROMOTION_CAPTURE_FLAG,
             ROOK_PROMOTION_CAPTURE_FLAG, QUEEN_PROMOTION_CAPTURE_FLAG}
  }

  /**
   * The 14 flags are pairwise distinct, each is its 4-bit code shifted left
   * by 6, so no flag has a bit outside bits 6-9.
   */
  lemma MoveFlagLayout()
    ensures |MOVE_FLAGS| == |MOVE_FLAG_CODES| == 14
    ensures forall i, j :: 0 <= i < j < 14 ==> MOVE_FLAGS[i] != MOVE_FLAGS[j]
    ensures forall i :: 0 <= i < 14 ==> MOVE_FLAG_CODES[i] < 16 && MOVE_FLAGS[i] == MOVE_FLAG_CODES[i] << 6
    ensures forall i :: 0 <= i < 14 ==> MOVE_FLAGS[i] & !(15 << 6) == 0
  {
  }

  /**
   * Bit 8 marks exactly the capturing flags and bit 9 exactly the
   * promotions.
   */
  lemma MoveFlagBits(flag: MoveFlag)
    requires IsMoveFlag(flag)
    ensures (flag & (1 << 8) != 0) <==> IsCaptureKind(flag)
    ensures (flag & (1 << 9) != 0) <==> IsPromotionKind(flag)
  {
  }

  /** `CastleRightsFlag`. */
  const CASTLE_BLACK_KING: bv8 := 0x1
  const CASTLE_BLACK_QUEEN: bv8 := 0x2
  const CASTLE_WHITE_KING: bv8 := 0x4
  const CASTLE_WHITE_QUEEN: bv8 := 0x8

  /** The four rights are distinct single bits covering exactly 0xF. */
  lemma CastleRightsLayout()
    ensures forall f :: f in [CASTLE_BLACK_KING, CASTLE_BLACK_QUEEN, CASTLE_WHITE_KING, CASTLE_WHITE_QUEEN] ==>
                          f != 0 && f & (f - 1) == 0
    ensures CASTLE_BLACK_KING & CASTLE_BLACK_QUEEN == 0 && CASTLE_BLACK_KING & CASTLE_WHITE_KING == 0
    ensures CASTLE_BLACK_KING & CASTLE_WHITE_QUEEN == 0 && CASTLE_BLACK_QUEEN & CASTLE_WHITE_KING == 0
    ensures CASTLE_BLACK_QUEEN & CASTLE_WHITE_QUEEN == 0 && CASTLE_WHITE_KING & CASTLE_WHITE_QUEEN == 0
    ensures CASTLE_BLACK_KING | CASTLE_BLACK_QUEEN | CASTLE_WHITE_KING | CASTLE_WHITE_QUEEN == 0xF
  {
  }

  /** `PHASE_VALUES`: phase weight of each piece type. */
  const PHASE_VALUES: seq<int> := [0, 1, 1, 2, 4, 0]

  /** Piece count of one side in the standard starting setup, by piece type. */
  const STARTING_COUNTS: seq<int> := [8, 2, 2, 2, 1, 1]

  /** Sum of `weights[p] * counts[p]` over the first `n` piece types. */
  function WeightedSum(weights: seq<int>, counts: seq<int>, n: nat): int
    requires n <= |weights| && n <= |counts|
  {
    if n == 0 then 0 else WeightedSum(weights, counts, n - 1) + weights[n - 1] * counts[n - 1]
  }

  /** Both sides' starting material, weighted by PHASE_VALUES, gives phase 24. */
  lemma StartingPhase()
    ensures 2 * WeightedSum(PHASE_VALUES, STARTING_COUNTS, 6) == 24
  {
  }

  /**
   * `CASTLE_MASK`: the rights lost when a piece moves from or to each square
   * of the standard setup.
   */
  const CASTLE_MASK: seq<bv8> :=
    [0x8, 0, 0, 0, 0xC, 0, 0, 0x4] +
    [0, 0, 0, 0, 0, 0, 0, 0] + [0, 0, 0, 0, 0, 0, 0, 0] + [0, 0, 0, 0, 0, 0, 0, 0] +
    [0, 0, 0, 0, 0, 0, 0, 0] + [0, 0, 0, 0, 0, 0, 0, 0] + [0, 0, 0, 0, 0, 0, 0, 0] +
    [0x2, 0, 0, 0, 0x3, 0, 0, 0x1]

  /** CASTLE_MASK is non-zero only on a1, e1, h1, a8, e8 and h8. */
  lemma CastleMaskEntries()
    ensures |CASTLE_MASK| == 64
    ensures CASTLE_MASK[0] == 0x8 && CASTLE_MASK[4] == 0xC && CASTLE_MASK[7] == 0x4
    ensures CASTLE_MASK[56] == 0x2 && CASTLE_MASK[60] == 0x3 && CASTLE_MASK[63] == 0x1
    ensures forall s :: 0 <= s < 64 && s !in {0, 4, 7, 56, 60, 63} ==> CASTLE_MASK[s] == 0
  {
  }

  /** `MAX_MOVES`: capacity of every move buffer. */
  const MAX_MOVES: nat := 218
}
