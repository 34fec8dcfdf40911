/**
 * `Board`: the object the engine updates in place. Its fields are those of
 * a `Position`, and `Snapshot` reads them as one; every method states the
 * new state as a function of the old one.
 */
module Boards {
  import opened Types
  import opened Squares
  import opened Bitboards
  import opened Zobrist
  import opened Positions
  import opened Attacks
  import opened Fens

  /*
   * Piece lookup.
   */

  /** The lowest piece type from `first` on whose bitboard holds the square, or NULL_PIECE. */
  function PieceFrom(pieces: seq<Bitboard>, square: BoardSquare, first: nat): (piece: PieceType)
    requires |pieces| == 6 && first <= 6
    ensures piece == NULL_PIECE <==> forall q :: first <= q < 6 ==> !GetBit(pieces[q], square)
    ensures piece != NULL_PIECE ==> first <= piece && GetBit(pieces[piece], square)
    ensures piece != NULL_PIECE ==> forall q :: first <= q < piece ==> !GetBit(pieces[q], square)
    decreases 6 - first
  {
    if first == 6 then NULL_PIECE
    else if GetBit(pieces[first], square) then first
    else PieceFrom(pieces, square, first + 1)
  }

  /** What `GetPieceOnSquare` answers on a position. */
  function PieceOnSquare(p: Position, square: BoardSquare): (piece: PieceType) {
    PieceFrom(p.pieces, square, 0)
  }

  /** Placing a piece on a square no piece type holds makes that piece the one found there. */
  lemma PlacedPieceFound(p: Position, seeds: Seeds, square: BoardSquare, piece: Piece, color: Side)
    requires forall q :: 0 <= q < 6 ==> !GetBit(p.pieces[q], square)
    ensures PieceOnSquare(PlacePiece(p, seeds, square, piece, color), square) == piece
  {
    var r := PlacePiece(p, seeds, square, piece, color);
    PlacePieceEffect(p, seeds, square, piece, color);
    SquaresMember(r.pieces[piece], square);
    forall q | 0 <= q < piece
      ensures !GetBit(r.pieces[q], square)
    {
    }
  }

  /** Lifting the only piece on a square leaves the square empty. */
  lemma LiftedPieceGone(p: Position, seeds: Seeds, square: BoardSquare, piece: Piece, color: Side)
    requires forall q :: 0 <= q < 6 && q != piece ==> !GetBit(p.pieces[q], square)
    ensures PieceOnSquare(LiftPiece(p, seeds, square, piece, color), square) == NULL_PIECE
  {
    var r := LiftPiece(p, seeds, square, piece, color);
    LiftPieceEffect(p, seeds, square, piece, color);
    SquaresMember(r.pieces[piece], square);
    forall q | 0 <= q < 6
      ensures !GetBit(r.pieces[q], square)
    {
    }
  }

  /*
   * Reading the board rows of a FEN.
   */

  predicate IsUpper(c: char) {
    'A' <= c <= 'Z'
  }

  predicate IsLower(c: char) {
    'a' <= c <= 'z'
  }

  function ToUpper(c: char): char {
    if IsLower(c) then (c as int - 32) as char else c
  }

  function ToLower(c: char): char {
    if IsUpper(c) then (c as int + 32) as char else c
  }

  /** `static_cast<SideToMove>(pieceChar > 90)`: everything above 'Z' is black. */
  function ColorOfChar(c: char): Side {
    if c as int > 90 then BLACK else WHITE
  }

  /** The piece type a placement character names after `tolower`, or NULL_PIECE for any other character. */
  function PieceOfChar(c: char): PieceType {
    var lower := ToLower(c);
    if lower == 'p' then PAWN
    else if lower == 'n' then KNIGHT
    else if lower == 'b' then BISHOP
    else if lower == 'r' then ROOK
    else if lower == 'q' then QUEEN
    else if lower == 'k' then KING
    else NULL_PIECE
  }

  /** A letter is black exactly when it is lower case, and the twelve piece letters name the six types. */
  lemma LetterColour(c: char)
    requires IsUpper(c) || IsLower(c)
    ensures ColorOfChar(c) == BLACK <==> IsLower(c)
    ensures PieceOfChar(c) != NULL_PIECE <==> ToLower(c) in "pnbrqk"
    ensures PieceOfChar(c) != NULL_PIECE ==> "pnbrqk"[PieceOfChar(c)] == ToLower(c)
  {
  }

  /** One placement character on one square: a piece letter places its piece, anything else changes nothing. */
  function CharStep(p: Position, seeds: Seeds, c: char, square: BoardSquare): Position {
    var piece := PieceOfChar(c);
    if piece == NULL_PIECE then p else PlacePiece(p, seeds, square, piece, ColorOfChar(c))
  }

  /**
   * The inner placement loop from `file` and `index` on: a digit d moves the
   * file on by d (the `file += d - 1` and the loop's `file++`, which for d = 0
   * wrap around 255 back to the same file), any other character is placed
   * and moves the file on by one. Past the end of the row the character read
   * is NUL.
   */
  function PlaceRow(p: Position, seeds: Seeds, row: string, rank: int, file: nat, index: nat): Position
    requires 0 <= rank < 8
    decreases 8 - file, if index < |row| then |row| - index else 0
  {
    if file >= 8 then p
    else
      var c := CharAt(row, index);
      if IsDigit(c) then PlaceRow(p, seeds, row, rank, file + (c as int - '0' as int), index + 1)
      else PlaceRow(CharStep(p, seeds, c, rank * 8 + file), seeds, row, rank, file + 1, index + 1)
  }

  /** The first `n` rows, row i filling rank 7 - i. */
  function PlaceRows(p: Position, seeds: Seeds, rows: seq<string>, n: nat): Position
    requires n <= |rows| <= 8
  {
    if n == 0 then p else PlaceRow(PlaceRows(p, seeds, rows, n - 1), seeds, rows[n - 1], 7 - (n - 1), 0, 0)
  }

  /** The squares of one rank from one file on. */
  ghost function RankFrom(rank: int, file: int): set<BoardSquare> {
    set s: BoardSquare | GetRank(s) == rank && GetFile(s) >= file
  }

  /** The squares of the ranks from `rank` up. */
  ghost function RanksFrom(rank: int): set<BoardSquare> {
    set s: BoardSquare | GetRank(s) >= rank
  }

  /** A position whose occupancy of one side only grows, and only on the given squares. */
  ghost predicate GrowsWithin(p: Position, r: Position, side: Side, squares: set<BoardSquare>) {
    SquareSet(p.occupancy[side]) <= SquareSet(r.occupancy[side]) <= SquareSet(p.occupancy[side]) + squares
  }

  /** Two positions that agree on every field except the bitboards and the hash. */
  predicate SameOutsideBoards(p: Position, r: Position) {
    r.side == p.side && r.castleRights == p.castleRights && r.enPassant == p.enPassant &&
    r.halfMoves == p.halfMoves && r.phase == p.phase && r.chess960 == p.chess960 && r.rooks == p.rooks
  }

  /** Placing one character grows each side's occupancy by at most the one square. */
  lemma CharStepGrows(p: Position, seeds: Seeds, c: char, square: BoardSquare, side: Side)
    ensures GrowsWithin(p, CharStep(p, seeds, c, square), side, {square})
  {
    var piece := PieceOfChar(c);
    if piece != NULL_PIECE {
      var color := ColorOfChar(c);
      PlacePieceEffect(p, seeds, square, piece, color);
      if side != color {
        assert side == Opposite(color);
      }
    }
  }

  /** The squares of a rank from a file on are that file's square and those after it. */
  lemma RankFromSplit(rank: int, file: int, square: BoardSquare)
    requires 0 <= rank < 8 && 0 <= file < 8 && square == rank * 8 + file
    ensures RankFrom(rank, file) == RankFrom(rank, file + 1) + {square}
  {
    assert GetRank(square) == rank && GetFile(square) == file;
  }

  /** Growth within two sets in a row is growth within their union. */
  lemma GrowsChain(p: Position, q: Position, r: Position, side: Side, first: set<BoardSquare>, second: set<BoardSquare>)
    requires GrowsWithin(p, q, side, first) && GrowsWithin(q, r, side, second)
    ensures GrowsWithin(p, r, side, second + first)
  {
  }

  /** Growth within a set is growth within any larger set. */
  lemma GrowsWeaken(p: Position, r: Position, side: Side, small: set<BoardSquare>, large: set<BoardSquare>)
    requires GrowsWithin(p, r, side, small) && small <= large
    ensures GrowsWithin(p, r, side, large)
  {
  }

  /** A row touches only its own rank, from the current file on. */
  lemma {:induction false} PlaceRowWithinRank(p: Position, seeds: Seeds, row: string, rank: int, file: nat, index: nat, side: Side)
    requires 0 <= rank < 8
    ensures GrowsWithin(p, PlaceRow(p, seeds, row, rank, file, index), side, RankFrom(rank, file))
    decreases 8 - file, if index < |row| then |row| - index else 0
  {
    if file < 8 {
      var c := CharAt(row, index);
      if IsDigit(c) {
        var next := file + (c as int - '0' as int);
        var r := PlaceRow(p, seeds, row, rank, next, index + 1);
        assert PlaceRow(p, seeds, row, rank, file, index) == r;
        PlaceRowWithinRank(p, seeds, row, rank, next, index + 1, side);
        GrowsWeaken(p, r, side, RankFrom(rank, next), RankFrom(rank, file));
      } else {
        var square: BoardSquare := rank * 8 + file;
        var q := CharStep(p, seeds, c, square);
        var r := PlaceRow(q, seeds, row, rank, file + 1, index + 1);
        assert PlaceRow(p, seeds, row, rank, file, index) == r;
        CharStepGrows(p, seeds, c, square, side);
        PlaceRowWithinRank(q, seeds, row, rank, file + 1, index + 1, side);
        RankFromSplit(rank, file, square);
        GrowsChain(p, q, r, side, {square}, RankFrom(rank, file + 1));
      }
    }
  }

  /** A row alters no field but the bitboards and the hash. */
  lemma {:induction false} PlaceRowKeepsFields(p: Position, seeds: Seeds, row: string, rank: int, file: nat, index: nat)
    requires 0 <= rank < 8
    ensures SameOutsideBoards(p, PlaceRow(p, seeds, row, rank, file, index))
    decreases 8 - file, if index < |row| then |row| - index else 0
  {
    if file < 8 {
      var c := CharAt(row, index);
      if IsDigit(c) {
        PlaceRowKeepsFields(p, seeds, row, rank, file + (c as int - '0' as int), index + 1);
      } else {
        var q := CharStep(p, seeds, c, rank * 8 + file);
        PlaceRowKeepsFields(q, seeds, row, rank, file + 1, index + 1);
      }
    }
  }

  /** The first `n` rows fill only the top `n` ranks, row 0 rank 8. */
  lemma {:induction false} PlaceRowsWithinRanks(p: Position, seeds: Seeds, rows: seq<string>, n: nat, side: Side)
    requires n <= |rows| <= 8
    ensures GrowsWithin(p, PlaceRows(p, seeds, rows, n), side, RanksFrom(8 - n))
  {
    if n > 0 {
      var q := PlaceRows(p, seeds, rows, n - 1);
      PlaceRowsWithinRanks(p, seeds, rows, n - 1, side);
      PlaceRowWithinRank(q, seeds, rows[n - 1], 7 - (n - 1), 0, 0, side);
      assert RankFrom(7 - (n - 1), 0) <= RanksFrom(8 - n);
      assert RanksFrom(8 - (n - 1)) <= RanksFrom(8 - n);
    }
  }

  /** The rows alter no field but the bitboards and the hash. */
  lemma {:induction false} PlaceRowsKeepFields(p: Position, seeds: Seeds, rows: seq<string>, n: nat)
    requires n <= |rows| <= 8
    ensures SameOutsideBoards(p, PlaceRows(p, seeds, rows, n))
  {
    if n > 0 {
      PlaceRowsKeepFields(p, seeds, rows, n - 1);
      PlaceRowKeepsFields(PlaceRows(p, seeds, rows, n - 1), seeds, rows[n - 1], 7 - (n - 1), 0, 0);
    }
  }

  /** A row "8" places nothing. */
  lemma EmptyRowPlacesNothing(p: Position, seeds: Seeds, rank: int)
    requires 0 <= rank < 8
    ensures PlaceRow(p, seeds, "8", rank, 0, 0) == p
  {
    assert CharAt("8", 0) == '8';
  }

  /*
   * The castle field.
   */

  /** `GetKingSquare(side)`: not part of this model, so a parameter reading the occupancy and piece bitboards. */
  type KingLocator = (seq<Bitboard>, seq<Bitboard>, Side) -> BoardSquare

  /** The castle rights and the four rook slots the castle loop writes. */
  datatype CastleState = CastleState(rights: bv8, rooks: seq<Square>)

  /** `std::isupper(character) ? WHITE : BLACK`. */
  function CastleCharSide(c: char): Side {
    if IsUpper(c) then WHITE else BLACK
  }

  /** The slot a rook on `file` takes: 2 * side, plus one unless the rook is left of the king. */
  function RookSlot(side: Side, file: int, king: Square): (slot: nat)
    ensures slot < 4
  {
    2 * side + (if file < GetFile(king) then 0 else 1)
  }

  /** Setting one right and recording its rook on the king's rank. */
  function Grant(s: CastleState, slot: nat, king: Square, file: Square): (r: CastleState)
    requires |s.rooks| == 4 && slot < 4
    ensures |r.rooks| == 4
  {
    CastleState(s.rights | ((0x8 as bv8) >> slot), s.rooks[slot := FromRankFile(GetRank(king), file)])
  }

  /** One castle character as written: the file is `toupper(c) - 'A'` as a `uint8_t`, whatever the character. */
  function CastleStepAsWritten(s: CastleState, c: char, king: Square): (r: CastleState)
    requires |s.rooks| == 4
    ensures |r.rooks| == 4
  {
    var file := (ToUpper(c) as int - 'A' as int) % 256;
    Grant(s, RookSlot(CastleCharSide(c), file, king), king, file)
  }

  /** The castle loop as written, over the rights 0 and the rook slots 8, 4, 2, 1. */
  function DecodeCastleAsWritten(chars: string, kingSquare: KingLocator, occupancy: seq<Bitboard>, pieces: seq<Bitboard>): (s: CastleState)
    ensures |s.rooks| == 4
  {
    if chars == [] then CastleState(0, ROOK_SLOTS_AS_WRITTEN)
    else
      var c := chars[|chars| - 1];
      CastleStepAsWritten(DecodeCastleAsWritten(chars[..|chars| - 1], kingSquare, occupancy, pieces), c,
        kingSquare(occupancy, pieces, CastleCharSide(c)))
  }

  /** Whether `rooks` holds a rook on `file` of the king's rank. */
  predicate RookOnFile(rooks: Bitboard, king: BoardSquare, file: int)
    requires 0 <= file < 8
  {
    RankFileRoundTrip(GetRank(king), file);
    GetBit(rooks, FromRankFile(GetRank(king), file))
  }

  datatype Option<T> = None | Some(value: T)

  /**
   * The king-side rook 'K' or 'k' names: searching the king's rank from `file`
   * down toward the king, the first file holding a rook. From the h-file
   * that is the rook right of the king farthest from it.
   */
  function KingSideRook(rooks: Bitboard, king: BoardSquare, file: int): (r: Option<int>)
    requires GetFile(king) <= file < 8
    ensures r.Some? ==> GetFile(king) < r.value <= file && RookOnFile(rooks, king, r.value)
    ensures r.Some? ==> forall f :: r.value < f <= file ==> !RookOnFile(rooks, king, f)
    ensures r.None? ==> forall f :: GetFile(king) < f <= file ==> !RookOnFile(rooks, king, f)
    decreases file
  {
    if file == GetFile(king) then None
    else if RookOnFile(rooks, king, file) then Some(file)
    else KingSideRook(rooks, king, file - 1)
  }

  /**
   * The queen-side rook 'Q' or 'q' names: searching the king's rank from
   * `file` up toward the king, the first file holding a rook. From the
   * a-file that is the rook left of the king farthest from it.
   */
  function QueenSideRook(rooks: Bitboard, king: BoardSquare, file: int): (r: Option<int>)
    requires 0 <= file <= GetFile(king)
    ensures r.Some? ==> file <= r.value < GetFile(king) && RookOnFile(rooks, king, r.value)
    ensures r.Some? ==> forall f :: file <= f < r.value ==> !RookOnFile(rooks, king, f)
    ensures r.None? ==> forall f :: file <= f < GetFile(king) ==> !RookOnFile(rooks, king, f)
    decreases GetFile(king) - file
  {
    if file == GetFile(king) then None
    else if RookOnFile(rooks, king, file) then Some(file)
    else QueenSideRook(rooks, king, file + 1)
  }

  /** The rook a 'K'/'k' or 'Q'/'q' names, searched from the h- or the a-file. */
  function OutermostRook(rooks: Bitboard, king: BoardSquare, kingSide: bool): Option<int> {
    if kingSide then KingSideRook(rooks, king, 7) else QueenSideRook(rooks, king, 0)
  }

  /**
   * One castle character read as the Chess960 notation the FEN reader's
   * tests expect: 'K' and 'k' name the outermost rook of that colour right of
   * its king on the king's rank, 'Q' and 'q' the outermost one left of it, a
   * file letter 'A'..'H' or 'a'..'h' names the rook on that file, and
   * anything else, "-" included, grants nothing. A 'K' or 'Q' without such a
   * rook grants nothing either. `rooks` are the rooks of the character's colour.
   */
  function CastleStep(s: CastleState, c: char, king: BoardSquare, rooks: Bitboard): (r: CastleState)
    requires |s.rooks| == 4
    ensures |r.rooks| == 4
  {
    var upper := ToUpper(c);
    if upper == 'K' || upper == 'Q' then
      match OutermostRook(rooks, king, upper == 'K')
      case Some(file) => Grant(s, RookSlot(CastleCharSide(c), file, king), king, file)
      case None => s
    else if 'A' <= upper <= 'H' then
      var file := upper as int - 'A' as int;
      Grant(s, RookSlot(CastleCharSide(c), file, king), king, file)
    else s
  }

  /** `GetPieceMask(ROOK, side)` over the bitboards the castle loop reads. */
  function SideRooks(occupancy: seq<Bitboard>, pieces: seq<Bitboard>, side: Side): Bitboard
    requires |occupancy| == 2 && |pieces| == 6
  {
    occupancy[side] & pieces[ROOK]
  }

  /** The corrected castle loop, over the rights 0 and the rook slots of the standard setup. */
  function DecodeCastle(chars: string, kingSquare: KingLocator, occupancy: seq<Bitboard>, pieces: seq<Bitboard>): (s: CastleState)
    requires |occupancy| == 2 && |pieces| == 6
    ensures |s.rooks| == 4
  {
    if chars == [] then CastleState(0, STANDARD_ROOKS)
    else
      var c := chars[|chars| - 1];
      var side := CastleCharSide(c);
      CastleStep(DecodeCastle(chars[..|chars| - 1], kingSquare, occupancy, pieces), c,
        kingSquare(occupancy, pieces, side), SideRooks(occupancy, pieces, side))
  }

  /** A file letter 'A'..'H' or 'a'..'h' is read the same as written and corrected. */
  lemma FileLettersAgree(s: CastleState, c: char, king: BoardSquare, rooks: Bitboard)
    requires |s.rooks| == 4
    requires 'A' <= ToUpper(c) <= 'H'
    ensures CastleStepAsWritten(s, c, king) == CastleStep(s, c, king, rooks)
  {
  }

  /** The right flag a 'K', 'Q', 'k' or 'q' sets, and the slot it fills. */
  function LetterRight(c: char): bv8 {
    if c == 'K' then CASTLE_WHITE_KING else if c == 'Q' then CASTLE_WHITE_QUEEN
    else if c == 'k' then CASTLE_BLACK_KING else CASTLE_BLACK_QUEEN
  }

  function LetterSlot(c: char): (slot: nat)
    ensures slot < 4
  {
    if c == 'K' then 1 else if c == 'Q' then 0 else if c == 'k' then 3 else 2
  }

  /**
   * Each of 'K', 'Q', 'k', 'q' sets exactly its own right flag and records
   * the outermost rook on its side of the king, on the king's rank; without
   * such a rook it changes nothing.
   */
  lemma LettersTakeOutermostRook(s: CastleState, c: char, king: BoardSquare, rooks: Bitboard)
    requires |s.rooks| == 4
    requires c in "KQkq"
    ensures var r := CastleStep(s, c, king, rooks);
      match OutermostRook(rooks, king, c == 'K' || c == 'k')
      case None => r == s
      case Some(file) =>
        r.rights == s.rights | LetterRight(c) &&
        r.rooks == s.rooks[LetterSlot(c) := FromRankFile(GetRank(king), file)]
  {
    if c == 'K' || c == 'k' {
      assert ToUpper(c) == 'K';
    } else {
      assert ToUpper(c) == 'Q';
    }
  }

  /**
   * With rooks on the a- and h-files of the king's rank and the king between
   * them, 'K' and 'k' record the h-file rook and 'Q' and 'q' the a-file one.
   */
  lemma StandardLettersSetTheirRight(s: CastleState, c: char, king: BoardSquare, rooks: Bitboard)
    requires |s.rooks| == 4 && 0 < GetFile(king) < 7
    requires c in "KQkq"
    requires RookOnFile(rooks, king, 0) && RookOnFile(rooks, king, 7)
    ensures var r := CastleStep(s, c, king, rooks);
      r.rights == s.rights | LetterRight(c) &&
      r.rooks[LetterSlot(c)] == FromRankFile(GetRank(king), if c == 'K' || c == 'k' then 7 else 0)
  {
    LettersTakeOutermostRook(s, c, king, rooks);
  }

  /** The corrected loop skips "-": no rights, and the standard rook slots. */
  lemma DashGrantsNothing(kingSquare: KingLocator, occupancy: seq<Bitboard>, pieces: seq<Bitboard>)
    requires |occupancy| == 2 && |pieces| == 6
    ensures DecodeCastle("-", kingSquare, occupancy, pieces) == CastleState(0, STANDARD_ROOKS)
  {
    assert "-"[..0] == [];
  }

  /**
   * "KQkq" with the kings on e1 and e8 and rooks on a1, h1, a8 and h8
   * decodes to all four rights and those rooks.
   */
  lemma StandardCastleField(kingSquare: KingLocator, occupancy: seq<Bitboard>, pieces: seq<Bitboard>)
    requires |occupancy| == 2 && |pieces| == 6
    requires kingSquare(occupancy, pieces, WHITE) == E1 && kingSquare(occupancy, pieces, BLACK) == E8
    requires GetBit(SideRooks(occupancy, pieces, WHITE), A1) && GetBit(SideRooks(occupancy, pieces, WHITE), H1)
    requires GetBit(SideRooks(occupancy, pieces, BLACK), A8) && GetBit(SideRooks(occupancy, pieces, BLACK), H8)
    ensures DecodeCastle("KQkq", kingSquare, occupancy, pieces) == CastleState(0xF, STANDARD_ROOKS)
  {
    assert "KQkq"[..3] == "KQk" && "KQk"[..2] == "KQ" && "KQ"[..1] == "K" && "K"[..0] == [];
    StandardSteps(SideRooks(occupancy, pieces, WHITE), SideRooks(occupancy, pieces, BLACK));
    assert DecodeCastle("K", kingSquare, occupancy, pieces) == CastleState(0x4, STANDARD_ROOKS);
    assert DecodeCastle("KQ", kingSquare, occupancy, pieces) == CastleState(0xC, STANDARD_ROOKS);
    assert DecodeCastle("KQk", kingSquare, occupancy, pieces) == CastleState(0xD, STANDARD_ROOKS);
  }

  /** The four steps of "KQkq" with rooks on a1, h1, a8 and h8. */
  lemma StandardSteps(white: Bitboard, black: Bitboard)
    requires GetBit(white, A1) && GetBit(white, H1) && GetBit(black, A8) && GetBit(black, H8)
    ensures CastleStep(CastleState(0, STANDARD_ROOKS), 'K', E1, white) == CastleState(0x4, STANDARD_ROOKS)
    ensures CastleStep(CastleState(0x4, STANDARD_ROOKS), 'Q', E1, white) == CastleState(0xC, STANDARD_ROOKS)
    ensures CastleStep(CastleState(0xC, STANDARD_ROOKS), 'k', E8, black) == CastleState(0xD, STANDARD_ROOKS)
    ensures CastleStep(CastleState(0xD, STANDARD_ROOKS), 'q', E8, black) == CastleState(0xF, STANDARD_ROOKS)
  {
    WhiteStandardSteps(white);
    BlackStandardSteps(black);
  }

  lemma WhiteStandardSteps(white: Bitboard)
    requires GetBit(white, A1) && GetBit(white, H1)
    ensures CastleStep(CastleState(0, STANDARD_ROOKS), 'K', E1, white) == CastleState(0x4, STANDARD_ROOKS)
    ensures CastleStep(CastleState(0x4, STANDARD_ROOKS), 'Q', E1, white) == CastleState(0xC, STANDARD_ROOKS)
  {
    assert RookOnFile(white, E1, 7) && RookOnFile(white, E1, 0);
    LetterStep(CastleState(0, STANDARD_ROOKS), 'K', E1, white, 7);
    LetterStep(CastleState(0x4, STANDARD_ROOKS), 'Q', E1, white, 0);
  }

  lemma BlackStandardSteps(black: Bitboard)
    requires GetBit(black, A8) && GetBit(black, H8)
    ensures CastleStep(CastleState(0xC, STANDARD_ROOKS), 'k', E8, black) == CastleState(0xD, STANDARD_ROOKS)
    ensures CastleStep(CastleState(0xD, STANDARD_ROOKS), 'q', E8, black) == CastleState(0xF, STANDARD_ROOKS)
  {
    assert RookOnFile(black, E8, 7) && RookOnFile(black, E8, 0);
    LetterStep(CastleState(0xC, STANDARD_ROOKS), 'k', E8, black, 7);
    LetterStep(CastleState(0xD, STANDARD_ROOKS), 'q', E8, black, 0);
  }

  /**
   * A Chess960 setup: white rooks c1, f1, h1 with the king on e1, black rooks
   * b8, d8, g8, h8 with the king on c8. "KQkq" names h1, c1, h8 and b8, the
   * files "HChb" spells.
   */
  lemma OutermostRooksChosen(kingSquare: KingLocator, occupancy: seq<Bitboard>, pieces: seq<Bitboard>)
    requires |occupancy| == 2 && |pieces| == 6
    requires kingSquare(occupancy, pieces, WHITE) == E1 && kingSquare(occupancy, pieces, BLACK) == 58
    requires SideRooks(occupancy, pieces, WHITE) == 0xA4
    requires SideRooks(occupancy, pieces, BLACK) == 0xCA00_0000_0000_0000
    ensures DecodeCastle("KQkq", kingSquare, occupancy, pieces) == CastleState(0xF, [C1, H1, 57, H8])
  {
    assert "KQkq"[..3] == "KQk" && "KQk"[..2] == "KQ" && "KQ"[..1] == "K" && "K"[..0] == [];
    TestSteps();
    assert DecodeCastle("K", kingSquare, occupancy, pieces) == CastleStep(CastleState(0, STANDARD_ROOKS), 'K', E1, 0xA4);
    assert DecodeCastle("KQ", kingSquare, occupancy, pieces) == CastleState(0xC, [C1, H1, A8, H8]);
    assert DecodeCastle("KQk", kingSquare, occupancy, pieces) == CastleState(0xD, [C1, H1, A8, H8]);
  }

  /** The four steps of "KQkq" on the rooks of that setup. */
  lemma TestSteps()
    ensures CastleStep(CastleState(0, STANDARD_ROOKS), 'K', E1, 0xA4) == CastleState(0x4, [A1, H1, A8, H8])
    ensures CastleStep(CastleState(0x4, [A1, H1, A8, H8]), 'Q', E1, 0xA4) == CastleState(0xC, [C1, H1, A8, H8])
    ensures CastleStep(CastleState(0xC, [C1, H1, A8, H8]), 'k', 58, 0xCA00_0000_0000_0000) == CastleState(0xD, [C1, H1, A8, H8])
    ensures CastleStep(CastleState(0xD, [C1, H1, A8, H8]), 'q', 58, 0xCA00_0000_0000_0000) == CastleState(0xF, [C1, H1, 57, H8])
  {
    WhiteTestSteps();
    BlackTestSteps();
  }

  lemma WhiteTestSteps()
    ensures CastleStep(CastleState(0, STANDARD_ROOKS), 'K', E1, 0xA4) == CastleState(0x4, [A1, H1, A8, H8])
    ensures CastleStep(CastleState(0x4, [A1, H1, A8, H8]), 'Q', E1, 0xA4) == CastleState(0xC, [C1, H1, A8, H8])
  {
    WhiteTestRooks();
    LetterStep(CastleState(0, STANDARD_ROOKS), 'K', E1, 0xA4, 7);
    LetterStep(CastleState(0x4, [A1, H1, A8, H8]), 'Q', E1, 0xA4, 2);
  }

  lemma BlackTestSteps()
    ensures CastleStep(CastleState(0xC, [C1, H1, A8, H8]), 'k', 58, 0xCA00_0000_0000_0000) == CastleState(0xD, [C1, H1, A8, H8])
    ensures CastleStep(CastleState(0xD, [C1, H1, A8, H8]), 'q', 58, 0xCA00_0000_0000_0000) == CastleState(0xF, [C1, H1, 57, H8])
  {
    BlackTestRooks();
    LetterStep(CastleState(0xC, [C1, H1, A8, H8]), 'k', 58, 0xCA00_0000_0000_0000, 7);
    LetterStep(CastleState(0xD, [C1, H1, A8, H8]), 'q', 58, 0xCA00_0000_0000_0000, 1);
  }

  lemma LetterStep(s: CastleState, c: char, king: BoardSquare, rooks: Bitboard, file: int)
    requires |s.rooks| == 4 && c in "KQkq"
    requires OutermostRook(rooks, king, c == 'K' || c == 'k') == Some(file)
    ensures CastleStep(s, c, king, rooks) ==
      CastleState(s.rights | LetterRight(c), s.rooks[LetterSlot(c) := FromRankFile(GetRank(king), file)])
  {
    LettersTakeOutermostRook(s, c, king, rooks);
  }

  lemma WhiteTestRooks()
    ensures OutermostRook(0xA4, E1, true) == Some(7) && OutermostRook(0xA4, E1, false) == Some(2)
  {
    assert RookOnFile(0xA4, E1, 7);
    assert !RookOnFile(0xA4, E1, 0) && !RookOnFile(0xA4, E1, 1) && RookOnFile(0xA4, E1, 2);
  }

  lemma BlackTestRooks()
    ensures OutermostRook(0xCA00_0000_0000_0000, 58, true) == Some(7)
    ensures OutermostRook(0xCA00_0000_0000_0000, 58, false) == Some(1)
  {
    assert RookOnFile(0xCA00_0000_0000_0000, 58, 7);
    assert !RookOnFile(0xCA00_0000_0000_0000, 58, 0) && RookOnFile(0xCA00_0000_0000_0000, 58, 1);
  }

  /**
   * As written, "KQkq" with the kings on e1 and e8 sets only the two king-side
   * rights: 'Q' becomes file 16, to the right of the king. The rook slots
   * end as 8, 16, 2, 72 rather than a1, h1, a8, h8.
   */
  lemma StandardCastleFieldAsWritten(kingSquare: KingLocator, occupancy: seq<Bitboard>, pieces: seq<Bitboard>)
    requires kingSquare(occupancy, pieces, WHITE) == E1 && kingSquare(occupancy, pieces, BLACK) == E8
    ensures DecodeCastleAsWritten("KQkq", kingSquare, occupancy, pieces) == CastleState(0x5, [8, 16, 2, 72])
  {
    assert "KQkq"[..3] == "KQk" && "KQk"[..2] == "KQ" && "KQ"[..1] == "K" && "K"[..0] == [];
    assert DecodeCastleAsWritten("K", kingSquare, occupancy, pieces) == CastleState(0x4, [8, 10, 2, 1]);
    assert DecodeCastleAsWritten("KQ", kingSquare, occupancy, pieces) == CastleState(0x4, [8, 16, 2, 1]);
    assert DecodeCastleAsWritten("KQk", kingSquare, occupancy, pieces) == CastleState(0x5, [8, 16, 2, 66]);
  }

  /**
   * As written, the castle field "-" of a position without castling grants
   * black the king-side right: '-' is not upper case, so it is read as a
   * black file 236, right of the king.
   */
  lemma DashCastleFieldAsWritten(kingSquare: KingLocator, occupancy: seq<Bitboard>, pieces: seq<Bitboard>)
    requires kingSquare(occupancy, pieces, BLACK) == E8
    ensures DecodeCastleAsWritten("-", kingSquare, occupancy, pieces).rights == CASTLE_BLACK_KING
  {
    assert "-"[..0] == [];
  }

  /*
   * The FEN constructor as a function of the FEN.
   */

  /** The fields of a `Board` before the constructor body runs: empty bitboards, hash 0 and the header's defaults. */
  function BlankPosition(): (p: Position) {
    BoardState([EMPTY, EMPTY], [EMPTY, EMPTY, EMPTY, EMPTY, EMPTY, EMPTY], 0, WHITE, 0, 0, 0, 0, false,
      [NULL_SQUARE, NULL_SQUARE, NULL_SQUARE, NULL_SQUARE])
  }

  /** `Board()` as written: the standard setup with the rook slots 8, 4, 2, 1. */
  function DefaultAsWritten(): (p: Position) {
    DefaultPosition().(rooks := ROOK_SLOTS_AS_WRITTEN)
  }

  /** `m_Side`: white for "w", black for anything else. */
  function SideOfText(text: string): Side {
    if text == "w" then WHITE else BLACK
  }

  /** `m_enPassantSquare`: NULL_SQUARE for "-", otherwise the square the text names. */
  function EnPassantOf(text: string): Square {
    if text == "-" then NULL_SQUARE else TextSquare(text)
  }

  /** The en-passant square is NULL_SQUARE exactly for "-", and a board square otherwise. */
  lemma EnPassantDecoded(text: string)
    ensures EnPassantOf(text) == NULL_SQUARE <==> text == "-"
    ensures text != "-" ==> EnPassantOf(text) < 64
    ensures |text| == 2 && text != "-" ==> EnPassantOf(text) == FromText(text)
  {
    if |text| == 2 {
      assert [CharAt(text, 0), CharAt(text, 1)] == text;
    }
  }

  /** `m_Chess960` and `m_Side` read from the FEN. */
  function WithSide(p: Position, fen: Fen): Position {
    p.(chess960 := fen.chess960, side := SideOfText(fen.sideToMove))
  }

  /** The position after the rows, `m_Chess960` and `m_Side`. */
  function PlacedPosition(fen: Fen, seeds: Seeds): Position
    requires |fen.board| == 8
  {
    WithSide(PlaceRows(BlankPosition(), seeds, fen.board, 8), fen)
  }

  /** The king of the side not to move is attacked by the side to move. */
  predicate Illegal(p: Position, kingSquare: KingLocator) {
    var nstm := Opposite(p.side);
    IsSquareAttacked(p, kingSquare(p.occupancy, p.pieces, nstm), nstm)
  }

  /** The castle rights, rook slots, en-passant square and half-move count written over a placed position. */
  function WithFields(p: Position, castle: CastleState, fen: Fen): Position
    requires |castle.rooks| == 4 && ReadsInt(fen.halfMoveCounter)
  {
    p.(rooks := castle.rooks, castleRights := castle.rights, enPassant := EnPassantOf(fen.enPassantSquare),
      halfMoves := IntValue(fen.halfMoveCounter) % 256)
  }

  /** The rest of `Board(fen)` as written, from the placed position on. */
  function FinishAsWritten(p: Position, fen: Fen, kingSquare: KingLocator): Position
    requires ReadsInt(fen.halfMoveCounter)
  {
    if Illegal(p, kingSquare) then DefaultAsWritten()
    else WithFields(p, DecodeCastleAsWritten(fen.castleRights, kingSquare, p.occupancy, p.pieces), fen)
  }

  /** The rest of the corrected `Board(fen)`, from the placed position on. */
  function Finish(p: Position, fen: Fen, kingSquare: KingLocator): Position
    requires ReadsInt(fen.halfMoveCounter)
  {
    if Illegal(p, kingSquare) then DefaultPosition()
    else WithFields(p, DecodeCastle(fen.castleRights, kingSquare, p.occupancy, p.pieces), fen)
  }

  /** `Board(fen)` as written. */
  function FenPositionAsWritten(fen: Fen, seeds: Seeds, kingSquare: KingLocator): Position
    requires |fen.board| == 8 && ReadsInt(fen.halfMoveCounter)
  {
    FinishAsWritten(PlacedPosition(fen, seeds), fen, kingSquare)
  }

  /** `Board(fen)` with the castle field read as the notation means it and rook slots that name squares. */
  function FenPosition(fen: Fen, seeds: Seeds, kingSquare: KingLocator): Position
    requires |fen.board| == 8 && ReadsInt(fen.halfMoveCounter)
  {
    Finish(PlacedPosition(fen, seeds), fen, kingSquare)
  }

  /**
   * What the FEN constructor promises: an illegal position falls back to the
   * default board; otherwise the pieces come from the rows, the side from
   * field 1, the en-passant square from field 3, the half-move count from
   * field 4 modulo 256, the phase stays 0, and the castle rights and rook
   * slots come from the castle field.
   */
  lemma FenPositionFields(fen: Fen, seeds: Seeds, kingSquare: KingLocator)
    requires |fen.board| == 8 && ReadsInt(fen.halfMoveCounter)
    ensures var r := FenPosition(fen, seeds, kingSquare); var p := PlacedPosition(fen, seeds);
      (Illegal(p, kingSquare) ==> r == DefaultPosition()) &&
      (!Illegal(p, kingSquare) ==>
        r.occupancy == p.occupancy && r.pieces == p.pieces && r.hash == p.hash &&
        (r.side == WHITE <==> fen.sideToMove == "w") && r.chess960 == fen.chess960 &&
        (r.enPassant == NULL_SQUARE <==> fen.enPassantSquare == "-") &&
        r.halfMoves == IntValue(fen.halfMoveCounter) % 256 && r.phase == 0 &&
        CastleState(r.castleRights, r.rooks) == DecodeCastle(fen.castleRights, kingSquare, p.occupancy, p.pieces))
  {
    EnPassantDecoded(fen.enPassantSquare);
    PlaceRowsKeepFields(BlankPosition(), seeds, fen.board, 8);
  }

  /**
   * `Board(fen)` never sets `m_Phase`, so it stays 0: a legal FEN position is
   * judged insufficient material exactly when it has no pawns, whatever else
   * stands on the board.
   */
  lemma FenInsufficientWithoutPawns(fen: Fen, seeds: Seeds, kingSquare: KingLocator)
    requires |fen.board| == 8 && ReadsInt(fen.halfMoveCounter)
    requires !Illegal(PlacedPosition(fen, seeds), kingSquare)
    ensures FenPositionAsWritten(fen, seeds, kingSquare).phase == 0
    ensures IsInsufficientMaterial(FenPositionAsWritten(fen, seeds, kingSquare)) <==>
      FenPositionAsWritten(fen, seeds, kingSquare).pieces[PAWN] == EMPTY
  {
    PlaceRowsKeepFields(BlankPosition(), seeds, fen.board, 8);
  }

  /*
   * The board object.
   */

  class Board {
    var occupancy: seq<Bitboard>   // m_Occupancy
    var pieces: seq<Bitboard>      // m_Pieces
    var hash: bv64                 // m_Hash, the value of its ZobristHash
    var side: Side                 // m_Side
    var castleRights: bv8          // m_CastleRights
    var enPassant: Square          // m_enPassantSquare
    var halfMoves: Byte            // m_HalfMoves
    var phase: Byte                // m_Phase
    var chess960: bool             // m_Chess960
    var rooks: seq<Square>         // m_Rooks

    ghost predicate Valid()
      reads this
    {
      |occupancy| == 2 && |pieces| == 6 && |rooks| == 4
    }

    /** The fields read as one position. */
    function Snapshot(): Position
      reads this
      requires Valid()
    {
      BoardState(occupancy, pieces, hash, side, castleRights, enPassant, halfMoves, phase, chess960, rooks)
    }

    /** `Board()`: the standard setup, with the rook slots as written. */
    constructor ()
      ensures Valid() && Snapshot() == DefaultAsWritten()
    {
      DefaultQueensAndKings();
      occupancy := [RANK_1 | RANK_2, RANK_7 | RANK_8];
      pieces := [RANK_2 | RANK_7, 0x4200000000000042, 0x2400000000000024, 0x8100000000000081,
        WithBit(WithBit(EMPTY, D1), D8), WithBit(WithBit(EMPTY, E1), E8)];
      enPassant := NULL_SQUARE;
      side := WHITE;
      castleRights := 0xF;
      halfMoves := 0;
      phase := 24;
      chess960 := false;
      rooks := ROOK_SLOTS_AS_WRITTEN;
      hash := START_HASH;
    }

    /** `Board()` with rook slots that name the rooks: a1, h1, a8, h8. */
    constructor Standard()
      ensures Valid() && Snapshot() == DefaultPosition()
    {
      DefaultQueensAndKings();
      occupancy := [RANK_1 | RANK_2, RANK_7 | RANK_8];
      pieces := [RANK_2 | RANK_7, 0x4200000000000042, 0x2400000000000024, 0x8100000000000081,
        WithBit(WithBit(EMPTY, D1), D8), WithBit(WithBit(EMPTY, E1), E8)];
      enPassant := NULL_SQUARE;
      side := WHITE;
      castleRights := 0xF;
      halfMoves := 0;
      phase := 24;
      chess960 := false;
      rooks := STANDARD_ROOKS;
      hash := START_HASH;
    }

    /** `*this = other`: every field copied from a position. */
    method Load(other: Position)
      modifies this
      ensures Valid() && Snapshot() == other
    {
      occupancy, pieces, hash, side := other.occupancy, other.pieces, other.hash, other.side;
      castleRights, enPassant, halfMoves, phase := other.castleRights, other.enPassant, other.halfMoves, other.phase;
      chess960, rooks := other.chess960, other.rooks;
    }

    /** `SetPieceOnSquare`: both bitboards gain the square and the hash toggles the piece's key. */
    method SetPieceOnSquare(seeds: Seeds, square: BoardSquare, piece: Piece, pieceColor: Side)
      requires Valid()
      modifies this
      ensures Valid() && Snapshot() == PlacePiece(old(Snapshot()), seeds, square, piece, pieceColor)
    {
      occupancy := occupancy[pieceColor := WithBit(occupancy[pieceColor], square)];
      pieces := pieces[piece := WithBit(pieces[piece], square)];
      hash := hash ^ PieceKey(seeds, piece, pieceColor, square);
    }

    /** `RemovePieceOnSquare`: both bitboards lose the square and the hash toggles the piece's key. */
    method RemovePieceOnSquare(seeds: Seeds, square: BoardSquare, piece: Piece, pieceColor: Side)
      requires Valid()
      modifies this
      ensures Valid() && Snapshot() == LiftPiece(old(Snapshot()), seeds, square, piece, pieceColor)
    {
      occupancy := occupancy[pieceColor := WithoutBit(occupancy[pieceColor], square)];
      pieces := pieces[piece := WithoutBit(pieces[piece], square)];
      hash := hash ^ PieceKey(seeds, piece, pieceColor, square);
    }

    /** `GetPieceOnSquare`: the piece types in order, returning the first whose bitboard holds the square. */
    method GetPieceOnSquare(square: BoardSquare) returns (piece: PieceType)
      requires Valid()
      ensures piece == PieceOnSquare(Snapshot(), square)
    {
      for q := 0 to 6
        invariant forall r :: 0 <= r < q ==> !GetBit(pieces[r], square)
      {
        if GetBit(pieces[q], square) {
          return q;
        }
      }
      return NULL_PIECE;
    }

    /** One character of a FEN row: the `tolower` switch. */
    method PlaceChar(seeds: Seeds, c: char, square: BoardSquare)
      requires Valid()
      modifies this
      ensures Valid() && Snapshot() == CharStep(old(Snapshot()), seeds, c, square)
    {
      var pieceColor := if c as int > 90 then BLACK else WHITE;
      var lower := ToLower(c);
      if lower == 'p' {
        SetPieceOnSquare(seeds, square, PAWN, pieceColor);
      } else if lower == 'n' {
        SetPieceOnSquare(seeds, square, KNIGHT, pieceColor);
      } else if lower == 'b' {
        SetPieceOnSquare(seeds, square, BISHOP, pieceColor);
      } else if lower == 'r' {
        SetPieceOnSquare(seeds, square, ROOK, pieceColor);
      } else if lower == 'q' {
        SetPieceOnSquare(seeds, square, QUEEN, pieceColor);
      } else if lower == 'k' {
        SetPieceOnSquare(seeds, square, KING, pieceColor);
      }
    }

    /** The inner placement loop over one row. */
    method PlaceBoardRow(seeds: Seeds, row: string, rank: int)
      requires Valid() && 0 <= rank < 8
      modifies this
      ensures Valid() && Snapshot() == PlaceRow(old(Snapshot()), seeds, row, rank, 0, 0)
    {
      var file, index := 0, 0;
      while file < 8
        invariant Valid() && 0 <= file <= 17
        invariant PlaceRow(Snapshot(), seeds, row, rank, file, index) == PlaceRow(old(Snapshot()), seeds, row, rank, 0, 0)
        decreases 17 - file, if index < |row| then |row| - index else 0
      {
        var pieceChar := CharAt(row, index);
        if IsDigit(pieceChar) {
          file := file + (pieceChar as int - '0' as int);
        } else {
          PlaceChar(seeds, pieceChar, rank * 8 + file);
          file := file + 1;
        }
        index := index + 1;
      }
    }

    /** The outer placement loop: row i of the FEN fills rank 7 - i. */
    method PlaceBoardRows(seeds: Seeds, rows: seq<string>)
      requires Valid() && |rows| == 8
      modifies this
      ensures Valid() && Snapshot() == PlaceRows(old(Snapshot()), seeds, rows, 8)
    {
      for rankIndex := 0 to 8
        invariant Valid() && Snapshot() == PlaceRows(old(Snapshot()), seeds, rows, rankIndex)
      {
        PlaceBoardRow(seeds, rows[rankIndex], 7 - rankIndex);
      }
    }

    /** The castle rights and rook slots read as written. */
    method ReadCastleRightsAsWritten(chars: string, kingSquare: KingLocator)
      requires Valid()
      modifies this
      ensures Valid()
      ensures var castle := DecodeCastleAsWritten(chars, kingSquare, old(occupancy), old(pieces));
        Snapshot() == old(Snapshot()).(castleRights := castle.rights, rooks := castle.rooks)
    {
      var castle := CastleLoopAsWritten(chars, kingSquare, occupancy, pieces);
      castleRights, rooks := castle.rights, castle.rooks;
    }

    /** The castle rights and rook slots read as the notation means them. */
    method ReadCastleRights(chars: string, kingSquare: KingLocator)
      requires Valid()
      modifies this
      ensures Valid()
      ensures var castle := DecodeCastle(chars, kingSquare, old(occupancy), old(pieces));
        Snapshot() == old(Snapshot()).(castleRights := castle.rights, rooks := castle.rooks)
    {
      var castle := CastleLoop(chars, kingSquare, occupancy, pieces);
      castleRights, rooks := castle.rights, castle.rooks;
    }

    /** `m_Chess960` and `m_Side` from the FEN: white for "w", black otherwise. */
    method ReadSide(fen: Fen)
      requires Valid()
      modifies this
      ensures Valid() && Snapshot() == WithSide(old(Snapshot()), fen)
    {
      chess960 := fen.chess960;
      if fen.sideToMove == "w" {
        side := WHITE;
      } else {
        side := BLACK;
      }
    }

    /** The en-passant field and the half-move counter. */
    method ReadCounters(fen: Fen)
      requires Valid() && ReadsInt(fen.halfMoveCounter)
      modifies this
      ensures Valid()
      ensures Snapshot() == old(Snapshot()).(enPassant := EnPassantOf(fen.enPassantSquare), halfMoves := IntValue(fen.halfMoveCounter) % 256)
    {
      enPassant := NULL_SQUARE;
      if fen.enPassantSquare != "-" {
        enPassant := TextSquare(fen.enPassantSquare);
      }
      halfMoves := IntValue(fen.halfMoveCounter) % 256;
    }

    /** The legality check, then the castle field and the counters as written. */
    method ResolveAsWritten(fen: Fen, kingSquare: KingLocator)
      requires Valid() && ReadsInt(fen.halfMoveCounter)
      modifies this
      ensures Valid() && Snapshot() == FinishAsWritten(old(Snapshot()), fen, kingSquare)
    {
      if IsSquareAttacked(Snapshot(), kingSquare(occupancy, pieces, Opposite(side)), Opposite(side)) {
        Load(DefaultAsWritten());
      } else {
        ReadCastleRightsAsWritten(fen.castleRights, kingSquare);
        ReadCounters(fen);
      }
    }

    /** The legality check, then the corrected castle field and the counters. */
    method Resolve(fen: Fen, kingSquare: KingLocator)
      requires Valid() && ReadsInt(fen.halfMoveCounter)
      modifies this
      ensures Valid() && Snapshot() == Finish(old(Snapshot()), fen, kingSquare)
    {
      if IsSquareAttacked(Snapshot(), kingSquare(occupancy, pieces, Opposite(side)), Opposite(side)) {
        Load(DefaultPosition());
      } else {
        ReadCastleRights(fen.castleRights, kingSquare);
        ReadCounters(fen);
      }
    }

    /** `Board(fen)` as written. */
    constructor FromFenAsWritten(fen: Fen, seeds: Seeds, kingSquare: KingLocator)
      requires |fen.board| == 8 && ReadsInt(fen.halfMoveCounter)
      ensures Valid() && Snapshot() == FenPositionAsWritten(fen, seeds, kingSquare)
    {
      var blank := BlankPosition();
      occupancy, pieces, hash, side := blank.occupancy, blank.pieces, blank.hash, blank.side;
      castleRights, enPassant, halfMoves, phase := blank.castleRights, blank.enPassant, blank.halfMoves, blank.phase;
      chess960, rooks := blank.chess960, blank.rooks;
      new;
      PlaceBoardRows(seeds, fen.board);
      ReadSide(fen);
      ResolveAsWritten(fen, kingSquare);
    }

    /** `Board(fen)` with the castle field read as the notation means it. */
    constructor FromFen(fen: Fen, seeds: Seeds, kingSquare: KingLocator)
      requires |fen.board| == 8 && ReadsInt(fen.halfMoveCounter)
      ensures Valid() && Snapshot() == FenPosition(fen, seeds, kingSquare)
    {
      var blank := BlankPosition();
      occupancy, pieces, hash, side := blank.occupancy, blank.pieces, blank.hash, blank.side;
      castleRights, enPassant, halfMoves, phase := blank.castleRights, blank.enPassant, blank.halfMoves, blank.phase;
      chess960, rooks := blank.chess960, blank.rooks;
      new;
      PlaceBoardRows(seeds, fen.board);
      ReadSide(fen);
      Resolve(fen, kingSquare);
    }
  }

  /** The castle loop as written, from rights 0 and rook slots 8, 4, 2, 1. */
  method CastleLoopAsWritten(chars: string, kingSquare: KingLocator, occupancy: seq<Bitboard>, pieces: seq<Bitboard>)
    returns (castle: CastleState)
    ensures castle == DecodeCastleAsWritten(chars, kingSquare, occupancy, pieces)
  {
    var castleRights: bv8 := 0;
    var rooks: seq<Square> := ROOK_SLOTS_AS_WRITTEN;
    for i := 0 to |chars|
      invariant CastleState(castleRights, rooks) == DecodeCastleAsWritten(chars[..i], kingSquare, occupancy, pieces)
    {
      var character := chars[i];
      var side := CastleCharSide(character);
      var kingSquare := kingSquare(occupancy, pieces, side);
      var file := (ToUpper(character) as int - 'A' as int) % 256;
      var index := RookSlot(side, file, kingSquare);
      castleRights := castleRights | ((0x8 as bv8) >> index);
      rooks := rooks[index := FromRankFile(GetRank(kingSquare), file)];
      assert chars[..i + 1][..i] == chars[..i];
    }
    assert chars[..|chars|] == chars;
    castle := CastleState(castleRights, rooks);
  }

  /** The castle loop read as the notation means it, from rights 0 and the standard rook slots. */
  method CastleLoop(chars: string, kingSquare: KingLocator, occupancy: seq<Bitboard>, pieces: seq<Bitboard>)
    returns (castle: CastleState)
    requires |occupancy| == 2 && |pieces| == 6
    ensures castle == DecodeCastle(chars, kingSquare, occupancy, pieces)
  {
    castle := CastleState(0, STANDARD_ROOKS);
    for i := 0 to |chars|
      invariant castle == DecodeCastle(chars[..i], kingSquare, occupancy, pieces)
    {
      var character := chars[i];
      var side := CastleCharSide(character);
      castle := CastleStep(castle, character, kingSquare(occupancy, pieces, side), occupancy[side] & pieces[ROOK]);
      assert chars[..i + 1][..i] == chars[..i];
    }
    assert chars[..|chars|] == chars;
  }

  /** Setting a piece and removing it again restores the whole board, hash included. */
  method SetThenRemove(board: Board, seeds: Seeds, square: BoardSquare, piece: Piece, color: Side)
    requires board.Valid()
    requires !GetBit(board.occupancy[color], square) && !GetBit(board.pieces[piece], square)
    modifies board
    ensures board.Valid() && board.Snapshot() == old(board.Snapshot())
  {
    ghost var before := board.Snapshot();
    SquaresMember(before.occupancy[color], square);
    SquaresMember(before.pieces[piece], square);
    board.SetPieceOnSquare(seeds, square, piece, color);
    board.RemovePieceOnSquare(seeds, square, piece, color);
    LiftUndoesPlace(before, seeds, square, piece, color);
  }
}
