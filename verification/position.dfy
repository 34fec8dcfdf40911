/**
 * The state of a `Board` as a value: what the attack, pin-mask and move
 * generation code reads through `const Board &`, and what a `Board` copy
 * carries. The read-only `Board` accessors are functions of this value.
 */
module Positions {
  import opened Types
  import opened Squares
  import opened Bitboards
  import opened BitArithmetic
  import opened Zobrist

  /** A `uint8_t` field. */
  type Byte = x: int | 0 <= x < 256

  datatype BoardState = BoardState(
    occupancy: seq<Bitboard>,   // m_Occupancy, by side
    pieces: seq<Bitboard>,      // m_Pieces, by piece type, both colours together
    hash: bv64,                 // m_Hash
    side: Side,                 // m_Side
    castleRights: bv8,          // m_CastleRights
    enPassant: Square,          // m_enPassantSquare
    halfMoves: Byte,            // m_HalfMoves
    phase: Byte,                // m_Phase
    chess960: bool,             // m_Chess960
    rooks: seq<Square>)         // m_Rooks, the castling rook of each right

  type Position = b: BoardState | |b.occupancy| == 2 && |b.pieces| == 6 && |b.rooks| == 4
    witness BoardState([EMPTY, EMPTY], [EMPTY, EMPTY, EMPTY, EMPTY, EMPTY, EMPTY], 0, WHITE, 0, 0, 0, 0, false, [0, 0, 0, 0])

  /** `GetOccupancy()`: the squares of both sides. */
  function AllOccupancy(p: Position): (occupancy: Bitboard)
    ensures SquareSet(occupancy) == SquareSet(p.occupancy[WHITE]) + SquareSet(p.occupancy[BLACK])
  {
    SquaresOr(p.occupancy[WHITE], p.occupancy[BLACK]);
    p.occupancy[WHITE] | p.occupancy[BLACK]
  }

  /** Either side's pieces are among the occupied squares. */
  lemma SideWithinOccupancy(p: Position, side: Side)
    ensures SquareSet(p.occupancy[side]) <= SquareSet(AllOccupancy(p))
  {
    if side == WHITE {
      assert SquareSet(p.occupancy[side]) == SquareSet(p.occupancy[WHITE]);
    } else {
      assert SquareSet(p.occupancy[side]) == SquareSet(p.occupancy[BLACK]);
    }
  }

  /** `GetPieceMask(piece, stm)`: the pieces of one type and one side. */
  function PieceMask(p: Position, piece: Piece, stm: Side): (mask: Bitboard)
    ensures SquareSet(mask) == SquareSet(p.occupancy[stm]) * SquareSet(p.pieces[piece])
  {
    SquaresAnd(p.occupancy[stm], p.pieces[piece]);
    p.occupancy[stm] & p.pieces[piece]
  }

  /** `GetStmKingSquare`: the lowest square holding a king of the side to move, or 64 if there is none. */
  function StmKingSquare(p: Position): (king: Square)
    ensures king == 64 <==> SquareSet(p.occupancy[p.side]) * SquareSet(p.pieces[KING]) == {}
    ensures king < 64 ==> king in SquareSet(p.occupancy[p.side]) && king in SquareSet(p.pieces[KING])
    ensures king < 64 ==> forall s :: s in SquareSet(p.occupancy[p.side]) * SquareSet(p.pieces[KING]) ==> king <= s
  {
    var mask := PieceMask(p, KING, p.side);
    EmptySquares(mask);
    Ls1bSquare(mask)
  }

  /** A bitboard is empty exactly when it holds no square. */
  lemma EmptySquares(b: Bitboard)
    ensures SquareSet(b) == {} <==> b == EMPTY
  {
    SquaresConstants(0);
    if SquareSet(b) == {} {
      Extensionality(b, EMPTY);
    }
  }

  /** `GetPieceColorOnSquare`: BLACK on a black-occupied square, WHITE everywhere else, empty squares included. */
  function PieceColorOnSquare(p: Position, square: BoardSquare): (color: Side)
    ensures color == BLACK <==> square in SquareSet(p.occupancy[BLACK])
  {
    SquaresMember(p.occupancy[BLACK], square);
    if GetBit(p.occupancy[BLACK], square) then BLACK else WHITE
  }

  /*
   * Insufficient material.
   */

  /** The light squares a2, b1, ...: those whose rank and file sum to an odd number. */
  const LIGHT_SQUARES: Bitboard := 0x55AA55AA55AA55AA
  const DARK_SQUARES: Bitboard := 0xAA55AA55AA55AA55

  predicate IsLight(s: BoardSquare) {
    (GetRank(s) + GetFile(s)) % 2 == 1
  }

  lemma LightBits(k: bv7)
    requires k < 64
    ensures LIGHT_SQUARES & ShiftedOne(k) != 0 <==> ((k >> 3) + (k & 7)) & 1 == 1
  {
  }

  lemma DarkBits(k: bv7)
    requires k < 64
    ensures DARK_SQUARES & ShiftedOne(k) != 0 <==> ((k >> 3) + (k & 7)) & 1 == 0
  {
  }

  lemma ParityOfBits(s: BoardSquare)
    ensures (((s as bv7) >> 3) + ((s as bv7) & 7)) & 1 == 1 <==> IsLight(s)
  {
  }

  lemma LightMask(s: BoardSquare)
    ensures s in SquareSet(LIGHT_SQUARES) <==> IsLight(s)
  {
    LightBits(s as bv7);
    ParityOfBits(s);
    SquaresMember(LIGHT_SQUARES, s);
  }

  lemma DarkMask(s: BoardSquare)
    ensures s in SquareSet(DARK_SQUARES) <==> !IsLight(s)
  {
    DarkBits(s as bv7);
    ParityOfBits(s);
    SquaresMember(DARK_SQUARES, s);
  }

  /** The two masks are the light and the dark squares. */
  lemma ColourMasks(s: BoardSquare)
    ensures s in SquareSet(LIGHT_SQUARES) <==> IsLight(s)
    ensures s in SquareSet(DARK_SQUARES) <==> !IsLight(s)
  {
    LightMask(s);
    DarkMask(s);
  }

  /** `b & m == b`: the test the source uses for "every square of `b` is in `m`". */
  predicate Within(b: Bitboard, m: Bitboard) {
    b & m == b
  }

  lemma MaskedUp(b: Bitboard, m: Bitboard)
    requires Within(b, m)
    ensures SquareSet(b) <= SquareSet(m)
  {
    SquaresAnd(b, m);
  }

  lemma MaskedDown(b: Bitboard, m: Bitboard)
    requires SquareSet(b) <= SquareSet(m)
    ensures Within(b, m)
  {
    SquaresAnd(b, m);
    Extensionality(b & m, b);
  }

  lemma Masked(b: Bitboard, m: Bitboard)
    ensures Within(b, m) <==> SquareSet(b) <= SquareSet(m)
  {
    if Within(b, m) {
      MaskedUp(b, m);
    }
    if SquareSet(b) <= SquareSet(m) {
      MaskedDown(b, m);
    }
  }

  /** All squares of the set have one colour. */
  ghost predicate OnOneColour(squares: set<BoardSquare>) {
    (forall s :: s in squares ==> IsLight(s)) || (forall s :: s in squares ==> !IsLight(s))
  }

  /** `IsInsufficientMaterial`. */
  function IsInsufficientMaterial(p: Position): bool {
    var bishops := p.pieces[BISHOP];
    p.phase <= 2 && p.pieces[PAWN] == EMPTY &&
    (p.phase != 2 ||
      (!Within(bishops, p.occupancy[WHITE]) && !Within(bishops, p.occupancy[BLACK]) &&
       (Within(bishops, LIGHT_SQUARES) || Within(bishops, DARK_SQUARES))))
  }

  /**
   * Material is insufficient when the phase is at most 2 and there are no
   * pawns; at phase 2 the bishops must also not all belong to one side and
   * must all stand on squares of one colour.
   */
  lemma InsufficientMaterialMeaning(p: Position)
    ensures IsInsufficientMaterial(p) <==>
      p.phase <= 2 && SquareSet(p.pieces[PAWN]) == {} &&
      (p.phase == 2 ==> BishopsCanNotMate(SquareSet(p.pieces[BISHOP]), SquareSet(p.occupancy[WHITE]), SquareSet(p.occupancy[BLACK])))
  {
    EmptySquares(p.pieces[PAWN]);
    BishopMasks(p.pieces[BISHOP], p.occupancy[WHITE], p.occupancy[BLACK]);
  }

  /** The bishops are not all of one side and all stand on one square colour. */
  ghost predicate BishopsCanNotMate(bishops: set<BoardSquare>, white: set<BoardSquare>, black: set<BoardSquare>) {
    !(bishops <= white) && !(bishops <= black) && OnOneColour(bishops)
  }

  lemma BishopMasks(bishops: Bitboard, white: Bitboard, black: Bitboard)
    ensures (!Within(bishops, white) && !Within(bishops, black) &&
             (Within(bishops, LIGHT_SQUARES) || Within(bishops, DARK_SQUARES))) <==>
            BishopsCanNotMate(SquareSet(bishops), SquareSet(white), SquareSet(black))
  {
    Masked(bishops, white);
    Masked(bishops, black);
    Masked(bishops, LIGHT_SQUARES);
    Masked(bishops, DARK_SQUARES);
    SameColour(SquareSet(bishops));
  }

  lemma SameColour(squares: set<BoardSquare>)
    ensures OnOneColour(squares) <==> squares <= SquareSet(LIGHT_SQUARES) || squares <= SquareSet(DARK_SQUARES)
  {
    forall s: BoardSquare
      ensures s in SquareSet(LIGHT_SQUARES) <==> IsLight(s)
      ensures s in SquareSet(DARK_SQUARES) <==> !IsLight(s)
    {
      ColourMasks(s);
    }
  }

  /*
   * Placing and removing a piece.
   */

  /** The hash term of one piece: `SEEDS[(piece + color * 6) * 64 + square]`. */
  function PieceKey(seeds: Seeds, piece: Piece, color: Side, square: BoardSquare): bv64 {
    seeds[PieceSeedIndex(piece, color, square)]
  }

  /** `SetPieceOnSquare` on a value. */
  function PlacePiece(p: Position, seeds: Seeds, square: BoardSquare, piece: Piece, color: Side): Position {
    var occupancy := p.occupancy[color := WithBit(p.occupancy[color], square)];
    var pieces := p.pieces[piece := WithBit(p.pieces[piece], square)];
    assert |occupancy| == 2 && |pieces| == 6;
    p.(occupancy := occupancy, pieces := pieces, hash := p.hash ^ PieceKey(seeds, piece, color, square))
  }

  /** `RemovePieceOnSquare` on a value. */
  function LiftPiece(p: Position, seeds: Seeds, square: BoardSquare, piece: Piece, color: Side): Position {
    var occupancy := p.occupancy[color := WithoutBit(p.occupancy[color], square)];
    var pieces := p.pieces[piece := WithoutBit(p.pieces[piece], square)];
    assert |occupancy| == 2 && |pieces| == 6;
    p.(occupancy := occupancy, pieces := pieces, hash := p.hash ^ PieceKey(seeds, piece, color, square))
  }

  /**
   * Placing a piece adds its square to its colour's occupancy and to its
   * type's bitboard and toggles its hash term; the other side's occupancy,
   * the other piece types and all remaining fields are unchanged.
   */
  lemma PlacePieceEffect(p: Position, seeds: Seeds, square: BoardSquare, piece: Piece, color: Side)
    ensures var r := PlacePiece(p, seeds, square, piece, color);
      SquareSet(r.occupancy[color]) == SquareSet(p.occupancy[color]) + {square} &&
      SquareSet(r.pieces[piece]) == SquareSet(p.pieces[piece]) + {square} &&
      r.occupancy[Opposite(color)] == p.occupancy[Opposite(color)] &&
      (forall q :: 0 <= q < 6 && q != piece ==> r.pieces[q] == p.pieces[q]) &&
      r.hash == p.hash ^ PieceKey(seeds, piece, color, square) &&
      r.(occupancy := p.occupancy, pieces := p.pieces, hash := p.hash) == p
  {
    var r := PlacePiece(p, seeds, square, piece, color);
    assert r.occupancy == p.occupancy[color := WithBit(p.occupancy[color], square)];
    assert r.pieces == p.pieces[piece := WithBit(p.pieces[piece], square)];
  }

  /** Lifting a piece removes its square from both bitboards and toggles the same hash term; nothing else changes. */
  lemma LiftPieceEffect(p: Position, seeds: Seeds, square: BoardSquare, piece: Piece, color: Side)
    ensures var r := LiftPiece(p, seeds, square, piece, color);
      SquareSet(r.occupancy[color]) == SquareSet(p.occupancy[color]) - {square} &&
      SquareSet(r.pieces[piece]) == SquareSet(p.pieces[piece]) - {square} &&
      r.occupancy[Opposite(color)] == p.occupancy[Opposite(color)] &&
      (forall q :: 0 <= q < 6 && q != piece ==> r.pieces[q] == p.pieces[q]) &&
      r.hash == p.hash ^ PieceKey(seeds, piece, color, square) &&
      r.(occupancy := p.occupancy, pieces := p.pieces, hash := p.hash) == p
  {
    var r := LiftPiece(p, seeds, square, piece, color);
    assert r.occupancy == p.occupancy[color := WithoutBit(p.occupancy[color], square)];
    assert r.pieces == p.pieces[piece := WithoutBit(p.pieces[piece], square)];
  }

  /** Setting and popping the same square of one entry restores the entry list. */
  lemma EntryRestored(xs: seq<Bitboard>, i: nat, square: BoardSquare)
    requires i < |xs| && square !in SquareSet(xs[i])
    ensures var ys := xs[i := WithBit(xs[i], square)]; ys[i := WithoutBit(ys[i], square)] == xs
  {
    SetThenPop(xs[i], square);
  }

  lemma EntryRestoredAfterPop(xs: seq<Bitboard>, i: nat, square: BoardSquare)
    requires i < |xs| && square in SquareSet(xs[i])
    ensures var ys := xs[i := WithoutBit(xs[i], square)]; ys[i := WithBit(ys[i], square)] == xs
  {
    PopThenSet(xs[i], square);
  }

  /** A position is determined by its boards, its hash and the remaining fields. */
  lemma SameFields(p: Position, r: Position)
    requires r.occupancy == p.occupancy && r.pieces == p.pieces && r.hash == p.hash
    requires r.(occupancy := p.occupancy, pieces := p.pieces, hash := p.hash) == p
    ensures r == p
  {
  }

  /** Placing a piece on a square that held neither its colour nor its type, then lifting it, restores every field. */
  lemma LiftUndoesPlace(p: Position, seeds: Seeds, square: BoardSquare, piece: Piece, color: Side)
    requires square !in SquareSet(p.occupancy[color]) && square !in SquareSet(p.pieces[piece])
    ensures LiftPiece(PlacePiece(p, seeds, square, piece, color), seeds, square, piece, color) == p
  {
    var q := PlacePiece(p, seeds, square, piece, color);
    var r := LiftPiece(q, seeds, square, piece, color);
    LiftRestoresBoards(p, q, r, square, piece, color);
    LiftRestoresRest(p, seeds, square, piece, color);
    SameFields(p, r);
  }

  lemma LiftRestoresRest(p: Position, seeds: Seeds, square: BoardSquare, piece: Piece, color: Side)
    ensures var r := LiftPiece(PlacePiece(p, seeds, square, piece, color), seeds, square, piece, color);
      r.hash == p.hash && r.(occupancy := p.occupancy, pieces := p.pieces, hash := p.hash) == p
  {
    PlacePieceEffect(p, seeds, square, piece, color);
    LiftPieceEffect(PlacePiece(p, seeds, square, piece, color), seeds, square, piece, color);
    ToggleTwice(p.hash, PieceKey(seeds, piece, color, square));
  }

  lemma LiftRestoresBoards(p: Position, q: Position, r: Position, square: BoardSquare, piece: Piece, color: Side)
    requires square !in SquareSet(p.occupancy[color]) && square !in SquareSet(p.pieces[piece])
    requires q.occupancy == p.occupancy[color := WithBit(p.occupancy[color], square)]
    requires q.pieces == p.pieces[piece := WithBit(p.pieces[piece], square)]
    requires r.occupancy == q.occupancy[color := WithoutBit(q.occupancy[color], square)]
    requires r.pieces == q.pieces[piece := WithoutBit(q.pieces[piece], square)]
    ensures r.occupancy == p.occupancy && r.pieces == p.pieces
  {
    EntryRestored(p.occupancy, color, square);
    EntryRestored(p.pieces, piece, square);
  }

  /** Lifting a piece that is there, then placing it again, restores every field. */
  lemma PlaceUndoesLift(p: Position, seeds: Seeds, square: BoardSquare, piece: Piece, color: Side)
    requires square in SquareSet(p.occupancy[color]) && square in SquareSet(p.pieces[piece])
    ensures PlacePiece(LiftPiece(p, seeds, square, piece, color), seeds, square, piece, color) == p
  {
    var q := LiftPiece(p, seeds, square, piece, color);
    var r := PlacePiece(q, seeds, square, piece, color);
    PlaceRestoresBoards(p, q, r, square, piece, color);
    PlaceRestoresRest(p, seeds, square, piece, color);
    SameFields(p, r);
  }

  lemma PlaceRestoresRest(p: Position, seeds: Seeds, square: BoardSquare, piece: Piece, color: Side)
    ensures var r := PlacePiece(LiftPiece(p, seeds, square, piece, color), seeds, square, piece, color);
      r.hash == p.hash && r.(occupancy := p.occupancy, pieces := p.pieces, hash := p.hash) == p
  {
    LiftPieceEffect(p, seeds, square, piece, color);
    PlacePieceEffect(LiftPiece(p, seeds, square, piece, color), seeds, square, piece, color);
    ToggleTwice(p.hash, PieceKey(seeds, piece, color, square));
  }

  lemma PlaceRestoresBoards(p: Position, q: Position, r: Position, square: BoardSquare, piece: Piece, color: Side)
    requires square in SquareSet(p.occupancy[color]) && square in SquareSet(p.pieces[piece])
    requires q.occupancy == p.occupancy[color := WithoutBit(p.occupancy[color], square)]
    requires q.pieces == p.pieces[piece := WithoutBit(p.pieces[piece], square)]
    requires r.occupancy == q.occupancy[color := WithBit(q.occupancy[color], square)]
    requires r.pieces == q.pieces[piece := WithBit(q.pieces[piece], square)]
    ensures r.occupancy == p.occupancy && r.pieces == p.pieces
  {
    EntryRestoredAfterPop(p.occupancy, color, square);
    EntryRestoredAfterPop(p.pieces, piece, square);
  }

  /*
   * The default position.
   */

  const D1: BoardSquare := 3
  const D8: BoardSquare := 59
  const A8: BoardSquare := 56
  const H1: BoardSquare := 7
  const H8: BoardSquare := 63

  /** The hash constant `Board()` stores for the start position. */
  const START_HASH: bv64 := 0x325BF1EB13D84627

  /** The rook slots as `Board()` and `Board(fen)` write them: the castle-right bits 8, 4, 2, 1. */
  const ROOK_SLOTS_AS_WRITTEN: seq<Square> := [0x8, 0x4, 0x2, 0x1]

  /** The rook slots of the standard setup: a1, h1, a8, h8. */
  const STANDARD_ROOKS: seq<Square> := [A1, H1, A8, H8]

  /** `Board()`, with the rook slots of the standard setup. */
  function DefaultPosition(): (p: Position) {
    BoardState(
      [RANK_1 | RANK_2, RANK_7 | RANK_8],
      [RANK_2 | RANK_7, 0x4200000000000042, 0x2400000000000024, 0x8100000000000081,
       0x0800000000000008, 0x1000000000000010],
      START_HASH, WHITE, 0xF, NULL_SQUARE, 0, 24, false, STANDARD_ROOKS)
  }

  /** The queen and king bitboards of `Board()` are set with `SetBit` on d1, d8 and e1, e8. */
  lemma DefaultQueensAndKings()
    ensures DefaultPosition().pieces[QUEEN] == WithBit(WithBit(EMPTY, D1), D8)
    ensures DefaultPosition().pieces[KING] == WithBit(WithBit(EMPTY, E1), E8)
  {
    assert WithBit(WithBit(EMPTY, D1), D8) == (EMPTY | FromSquare(D1)) | FromSquare(D8);
    assert WithBit(WithBit(EMPTY, E1), E8) == (EMPTY | FromSquare(E1)) | FromSquare(E8);
  }

  /**
   * The default position is the standard setup: the six piece bitboards are
   * pairwise disjoint and together cover exactly the occupied squares, the
   * two sides are disjoint, and its phase is the weighted starting material.
   */
  lemma DefaultIsStandardSetup()
    ensures var p := DefaultPosition();
      (forall i, j :: 0 <= i < j < 6 ==> p.pieces[i] & p.pieces[j] == EMPTY) &&
      p.pieces[0] | p.pieces[1] | p.pieces[2] | p.pieces[3] | p.pieces[4] | p.pieces[5] == AllOccupancy(p) &&
      p.occupancy[WHITE] & p.occupancy[BLACK] == EMPTY &&
      p.phase == 2 * WeightedSum(PHASE_VALUES, STARTING_COUNTS, 6)
    ensures DefaultPosition().side == WHITE && DefaultPosition().castleRights == 0xF
    ensures DefaultPosition().enPassant == NULL_SQUARE && DefaultPosition().halfMoves == 0
  {
    StartingPhase();
  }

  /** In the default position white's king is on e1. */
  lemma DefaultKing()
    ensures StmKingSquare(DefaultPosition()) == E1
  {
    var p := DefaultPosition();
    assert PieceMask(p, KING, WHITE) == FromSquare(E1);
    SquaresConstants(E1);
  }

  /** Castle-right slot `slot` names a square holding a rook of the slot's side (slots 0, 1 white; 2, 3 black). */
  predicate HoldsCastlingRook(p: Position, slot: nat)
    requires slot < 4
  {
    p.rooks[slot] < 64 && GetBit(PieceMask(p, ROOK, if slot < 2 then WHITE else BLACK), p.rooks[slot])
  }

  /** With the rook slots as written, no slot of the default position names a rook. */
  lemma RookSlotsAsWrittenHoldNoRook()
    ensures forall i :: 0 <= i < 4 ==> !HoldsCastlingRook(DefaultPosition().(rooks := ROOK_SLOTS_AS_WRITTEN), i)
  {
    var p: Position := DefaultPosition().(rooks := ROOK_SLOTS_AS_WRITTEN);
    assert PieceMask(p, ROOK, WHITE) == 0x81;
    assert PieceMask(p, ROOK, BLACK) == 0x8100000000000000;
    assert !GetBit(0x81, 8) && !GetBit(0x81, 4);
    assert !GetBit(0x8100000000000000, 2) && !GetBit(0x8100000000000000, 1);
  }

  /**
   * Each standard rook slot holds a rook of the slot's side, slots 0 and 2
   * below their king's square and slots 1 and 3 above it.
   */
  lemma StandardRooksHoldRooks()
    ensures forall i :: 0 <= i < 4 ==> HoldsCastlingRook(DefaultPosition(), i)
    ensures STANDARD_ROOKS[0] < E1 < STANDARD_ROOKS[1] && STANDARD_ROOKS[2] < E8 < STANDARD_ROOKS[3]
  {
    var p := DefaultPosition();
    assert PieceMask(p, ROOK, WHITE) == 0x81;
    assert PieceMask(p, ROOK, BLACK) == 0x8100000000000000;
    assert GetBit(0x81, A1) && GetBit(0x81, H1);
    assert GetBit(0x8100000000000000, A8) && GetBit(0x8100000000000000, H8);
  }
}
