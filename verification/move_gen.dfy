/**
 * `MoveGenerator`: the state fixed when a generator is built for a board
 * (the opponent's attack map, the checkers of the side to move, the squares
 * its king may step to and the two pin masks), the standard castling
 * generator, and `GenerateMoves_Internal`, which decides which emitter is
 * called with which target map for each number of checkers and each mode.
 *
 * The pawn, piece and king emitters are parameters (`Emitters`): the model
 * fixes the maps they are handed and where their moves land in the buffer,
 * not which moves they produce. Each emitter call is named by a `Call`
 * value, and `Plan` is the sequence of calls one generation makes.
 */
module MoveGen {
  import opened Types
  import opened Squares
  import opened Bitboards
  import opened Positions
  import opened Rays
  import opened RayTable
  import opened AttackSets
  import opened Attacks
  import opened PinMasks
  import opened Moves
  import opened SquareMasks

  /** `MoveGenMode`: whether a mode holds the QUIET bit and the NOISY bit. */
  datatype MoveGenMode = MoveGenMode(quiet: bool, noisy: bool)

  const QUIET: MoveGenMode := MoveGenMode(true, false)
  const NOISY: MoveGenMode := MoveGenMode(false, true)
  const ALL: MoveGenMode := MoveGenMode(true, true)

  /** The const members `m_Board` to `m_KingMoveMap`, the pin mask as its two masks. */
  datatype Generator = Generator(
    board: Position,
    side: Side,
    oppositeSide: Side,
    kingSquare: BoardSquare,
    diagonalPins: Bitboard,
    orthogonalPins: Bitboard,
    attackMap: Bitboard,
    checkers: Bitboard,
    kingMoveMap: Bitboard)

  /**
   * The member initialisers of `MoveGenerator(board)`, with `kingSquare`
   * the square `GetKingSquare(m_Side)` returns.
   */
  function NewGenerator(p: Position, kingSquare: BoardSquare): Generator {
    var attackMap := AttackMap(p, p.side, kingSquare);
    Generator(p, p.side, Opposite(p.side), kingSquare,
      DiagonalMask(p, p.side, kingSquare), OrthogonalMask(p, p.side, kingSquare),
      attackMap,
      if GetBit(attackMap, kingSquare) then GenerateCheckersMask(p, kingSquare) else EMPTY,
      KingMoveMap(kingSquare, attackMap))
  }

  /** The king's neighbouring squares that are not attacked. */
  function KingMoveMap(kingSquare: BoardSquare, attackMap: Bitboard): Bitboard {
    KingAttacks(kingSquare) & !attackMap
  }

  /*
   * The generator's state.
   */

  /**
   * The king may step exactly to the neighbouring squares that no opposing
   * piece attacks once the king itself is lifted from the board, so the
   * king never steps back along the line of a slider that checks it.
   */
  lemma KingMoveMapMeaning(p: Position, kingSquare: BoardSquare, s: BoardSquare)
    ensures s in SquareSet(NewGenerator(p, kingSquare).kingMoveMap) <==>
      KingStep(kingSquare, s) && !Attacked(p, s, p.side, AttackMapOccupancy(p, kingSquare))
  {
    var attackMap := AttackMap(p, p.side, kingSquare);
    assert NewGenerator(p, kingSquare).kingMoveMap == KingMoveMap(kingSquare, attackMap);
    KingMoveMapSquares(kingSquare, attackMap, s);
    AttackMapMeaning(p, p.side, kingSquare, s);
  }

  /** The king move map holds the king's steps that the attack map leaves out. */
  lemma KingMoveMapSquares(kingSquare: BoardSquare, attackMap: Bitboard, s: BoardSquare)
    ensures s in SquareSet(KingMoveMap(kingSquare, attackMap)) <==> KingStep(kingSquare, s) && s !in SquareSet(attackMap)
  {
    SquaresAnd(KingAttacks(kingSquare), !attackMap);
    NotMember(attackMap, s);
    KingMember(kingSquare, s);
  }

  /**
   * Whether a piece attacks `square` does not depend on whether `square`
   * itself is occupied: only the squares strictly between can block.
   */
  lemma TargetOccupancyIrrelevant(p: Position, from: BoardSquare, square: BoardSquare, defenderSide: Side,
                                  occupancy: Bitboard, other: Bitboard)
    requires forall t: BoardSquare :: t != square ==> (t in SquareSet(occupancy) <==> t in SquareSet(other))
    ensures AttacksFrom(p, from, square, defenderSide, occupancy) <==> AttacksFrom(p, from, square, defenderSide, other)
  {
    forall t: BoardSquare | Between(from, square, t)
      ensures GetBit(occupancy, t) <==> GetBit(other, t)
    {
      assert t != square;
      assert t in SquareSet(occupancy) <==> GetBit(occupancy, t);
      assert t in SquareSet(other) <==> GetBit(other, t);
    }
  }

  /** The same for "some piece attacks `square`". */
  lemma AttackedAtTarget(p: Position, square: BoardSquare, defenderSide: Side, occupancy: Bitboard, other: Bitboard)
    requires forall t: BoardSquare :: t != square ==> (t in SquareSet(occupancy) <==> t in SquareSet(other))
    ensures Attacked(p, square, defenderSide, occupancy) <==> Attacked(p, square, defenderSide, other)
  {
    forall from: BoardSquare
      ensures AttacksFrom(p, from, square, defenderSide, occupancy) <==> AttacksFrom(p, from, square, defenderSide, other)
    {
      TargetOccupancyIrrelevant(p, from, square, defenderSide, occupancy, other);
    }
  }

  /**
   * Computing the checkers only when the attack map covers the king loses
   * nothing: with the king on its square, the checkers are exactly the
   * opposing pieces attacking it, and they are empty exactly when the side
   * to move is not in check.
   */
  lemma CheckersOfGenerator(p: Position, kingSquare: BoardSquare, from: BoardSquare)
    requires kingSquare in SquareSet(AllOccupancy(p))
    ensures from in SquareSet(NewGenerator(p, kingSquare).checkers) <==> AttacksFrom(p, from, kingSquare, p.side, AllOccupancy(p))
    ensures NewGenerator(p, kingSquare).checkers == EMPTY <==> !IsInCheck(p, kingSquare)
  {
    CheckersMeaning(p, kingSquare, from);
    if !GetBit(AttackMap(p, p.side, kingSquare), kingSquare) {
      UnattackedKing(p, kingSquare);
      SquaresConstants(from);
    }
  }

  /** A king the attack map leaves out is not in check. */
  lemma UnattackedKing(p: Position, kingSquare: BoardSquare)
    requires kingSquare in SquareSet(AllOccupancy(p))
    requires !GetBit(AttackMap(p, p.side, kingSquare), kingSquare)
    ensures !IsInCheck(p, kingSquare)
  {
    var all, lifted := AllOccupancy(p), AttackMapOccupancy(p, kingSquare);
    KingRemovedFromOccupancy(p, kingSquare);
    AttackMapMeaning(p, p.side, kingSquare, kingSquare);
    assert !Attacked(p, kingSquare, p.side, lifted);
    AttackedAtTarget(p, kingSquare, p.side, all, lifted);
    CheckersMeaning(p, kingSquare, kingSquare);
  }

  /*
   * Castling.
   */

  const B1: BoardSquare := 1
  const F1: BoardSquare := 5
  const B8: BoardSquare := 57
  const C8: BoardSquare := 58
  const F8: BoardSquare := 61
  const G8: BoardSquare := 62

  /**
   * One castling move: written when the right is held, no square of
   * `crossed` is attacked and no square of `between` is occupied.
   */
  function CastleOption(g: Generator, allowed: bool, crossed: Bitboard, between: Bitboard, m: Move): seq<Move> {
    if allowed && PathClear(crossed, between, g.attackMap, AllOccupancy(g.board)) then [m] else []
  }

  /** No square of `crossed` is attacked and no square of `between` is occupied. */
  predicate PathClear(crossed: Bitboard, between: Bitboard, attackMap: Bitboard, occupancy: Bitboard) {
    (crossed & attackMap) == EMPTY && (between & occupancy) == EMPTY
  }

  /**
   * `GetCastleMoves`: for the side to move only, king side when the right is
   * held and the king's two squares towards the rook are neither attacked
   * nor occupied, queen side when the right is held, the king's two squares
   * towards the rook are not attacked and the three squares up to the rook
   * are empty.
   */
  function CastleMoves(g: Generator, canCastle: bv8 -> bool): (moves: seq<Move>)
    ensures |moves| <= 2
  {
    if g.side == WHITE then
      CastleOption(g, canCastle(CASTLE_WHITE_KING), 0x60, 0x60, NewMove(4, 6, KING_SIDE_CASTLE_FLAG)) +
      CastleOption(g, canCastle(CASTLE_WHITE_QUEEN), 0xC, 0xE, NewMove(4, 2, QUEEN_SIDE_CASTLE_FLAG))
    else
      CastleOption(g, canCastle(CASTLE_BLACK_KING), 0x6000000000000000, 0x6000000000000000, NewMove(60, 62, KING_SIDE_CASTLE_FLAG)) +
      CastleOption(g, canCastle(CASTLE_BLACK_QUEEN), 0xC00000000000000, 0xE00000000000000, NewMove(60, 58, QUEEN_SIDE_CASTLE_FLAG))
  }

  /*
   * Each castling mask, stated through its squares. The squares' bits are
   * written out first so that the solver works on constants.
   */

  lemma WhiteKingSideMask(b: Bitboard)
    ensures 0x60 & b == EMPTY <==> F1 !in SquareSet(b) && G1 !in SquareSet(b)
  {
    assert FromSquare(F1) == 0x20 && FromSquare(G1) == 0x40;
    SquaresMember(b, F1);
    SquaresMember(b, G1);
  }

  lemma WhiteQueenSideMasks(b: Bitboard)
    ensures 0xC & b == EMPTY <==> C1 !in SquareSet(b) && D1 !in SquareSet(b)
    ensures 0xE & b == EMPTY <==> B1 !in SquareSet(b) && C1 !in SquareSet(b) && D1 !in SquareSet(b)
  {
    assert FromSquare(B1) == 0x2 && FromSquare(C1) == 0x4 && FromSquare(D1) == 0x8;
    SquaresMember(b, B1);
    SquaresMember(b, C1);
    SquaresMember(b, D1);
  }

  lemma BlackKingSideMask(b: Bitboard)
    ensures 0x6000000000000000 & b == EMPTY <==> F8 !in SquareSet(b) && G8 !in SquareSet(b)
  {
    assert FromSquare(F8) == 0x2000000000000000 && FromSquare(G8) == 0x4000000000000000;
    SquaresMember(b, F8);
    SquaresMember(b, G8);
  }

  lemma BlackQueenSideMasks(b: Bitboard)
    ensures 0xC00000000000000 & b == EMPTY <==> C8 !in SquareSet(b) && D8 !in SquareSet(b)
    ensures 0xE00000000000000 & b == EMPTY <==> B8 !in SquareSet(b) && C8 !in SquareSet(b) && D8 !in SquareSet(b)
  {
    assert FromSquare(B8) == 0x200000000000000 && FromSquare(C8) == 0x400000000000000 &&
           FromSquare(D8) == 0x800000000000000;
    SquaresMember(b, B8);
    SquaresMember(b, C8);
    SquaresMember(b, D8);
  }

  /**
   * Each of the four castling moves is emitted exactly when the side to
   * move is its colour, the right is held, the squares the king crosses and
   * lands on are not attacked and the squares between king and rook are
   * empty; no other move is emitted.
   */
  lemma CastleMovesMeaning(g: Generator, canCastle: bv8 -> bool)
    ensures NewMove(E1, G1, KING_SIDE_CASTLE_FLAG) in CastleMoves(g, canCastle) <==>
      g.side == WHITE && canCastle(CASTLE_WHITE_KING) &&
      F1 !in SquareSet(g.attackMap) && G1 !in SquareSet(g.attackMap) &&
      F1 !in SquareSet(AllOccupancy(g.board)) && G1 !in SquareSet(AllOccupancy(g.board))
    ensures NewMove(E1, C1, QUEEN_SIDE_CASTLE_FLAG) in CastleMoves(g, canCastle) <==>
      g.side == WHITE && canCastle(CASTLE_WHITE_QUEEN) &&
      C1 !in SquareSet(g.attackMap) && D1 !in SquareSet(g.attackMap) &&
      B1 !in SquareSet(AllOccupancy(g.board)) && C1 !in SquareSet(AllOccupancy(g.board)) &&
      D1 !in SquareSet(AllOccupancy(g.board))
    ensures NewMove(E8, G8, KING_SIDE_CASTLE_FLAG) in CastleMoves(g, canCastle) <==>
      g.side == BLACK && canCastle(CASTLE_BLACK_KING) &&
      F8 !in SquareSet(g.attackMap) && G8 !in SquareSet(g.attackMap) &&
      F8 !in SquareSet(AllOccupancy(g.board)) && G8 !in SquareSet(AllOccupancy(g.board))
    ensures NewMove(E8, C8, QUEEN_SIDE_CASTLE_FLAG) in CastleMoves(g, canCastle) <==>
      g.side == BLACK && canCastle(CASTLE_BLACK_QUEEN) &&
      C8 !in SquareSet(g.attackMap) && D8 !in SquareSet(g.attackMap) &&
      B8 !in SquareSet(AllOccupancy(g.board)) && C8 !in SquareSet(AllOccupancy(g.board)) &&
      D8 !in SquareSet(AllOccupancy(g.board))
    ensures forall m :: m in CastleMoves(g, canCastle) ==>
      if g.side == WHITE then m in {NewMove(E1, G1, KING_SIDE_CASTLE_FLAG), NewMove(E1, C1, QUEEN_SIDE_CASTLE_FLAG)}
      else m in {NewMove(E8, G8, KING_SIDE_CASTLE_FLAG), NewMove(E8, C8, QUEEN_SIDE_CASTLE_FLAG)}
  {
    CastleMoveWords();
    WhiteCastlePaths(g.attackMap, AllOccupancy(g.board));
    BlackCastlePaths(g.attackMap, AllOccupancy(g.board));
  }

  /** The four castling moves as 16-bit words, hence pairwise distinct. */
  lemma CastleMoveWords()
    ensures NewMove(E1, G1, KING_SIDE_CASTLE_FLAG) == 0x1884 && NewMove(E1, C1, QUEEN_SIDE_CASTLE_FLAG) == 0x8C4
    ensures NewMove(E8, G8, KING_SIDE_CASTLE_FLAG) == 0xF8BC && NewMove(E8, C8, QUEEN_SIDE_CASTLE_FLAG) == 0xE8FC
  {
  }

  /** White's two castling paths, square by square. */
  lemma WhiteCastlePaths(attackMap: Bitboard, occupancy: Bitboard)
    ensures PathClear(0x60, 0x60, attackMap, occupancy) <==>
      F1 !in SquareSet(attackMap) && G1 !in SquareSet(attackMap) &&
      F1 !in SquareSet(occupancy) && G1 !in SquareSet(occupancy)
    ensures PathClear(0xC, 0xE, attackMap, occupancy) <==>
      C1 !in SquareSet(attackMap) && D1 !in SquareSet(attackMap) &&
      B1 !in SquareSet(occupancy) && C1 !in SquareSet(occupancy) && D1 !in SquareSet(occupancy)
  {
    WhiteKingSideMask(attackMap);
    WhiteKingSideMask(occupancy);
    WhiteQueenSideMasks(attackMap);
    WhiteQueenSideMasks(occupancy);
  }

  /** Black's two castling paths, square by square. */
  lemma BlackCastlePaths(attackMap: Bitboard, occupancy: Bitboard)
    ensures PathClear(0x6000000000000000, 0x6000000000000000, attackMap, occupancy) <==>
      F8 !in SquareSet(attackMap) && G8 !in SquareSet(attackMap) &&
      F8 !in SquareSet(occupancy) && G8 !in SquareSet(occupancy)
    ensures PathClear(0xC00000000000000, 0xE00000000000000, attackMap, occupancy) <==>
      C8 !in SquareSet(attackMap) && D8 !in SquareSet(attackMap) &&
      B8 !in SquareSet(occupancy) && C8 !in SquareSet(occupancy) && D8 !in SquareSet(occupancy)
  {
    BlackKingSideMask(attackMap);
    BlackKingSideMask(occupancy);
    BlackQueenSideMasks(attackMap);
    BlackQueenSideMasks(occupancy);
  }

  /*
   * The dispatch of `GenerateMoves_Internal`.
   */

  /**
   * The emitters, each giving the moves it writes: `GetQuietKingMoves`,
   * `GetNoisyKingMoves`, `GetQuietPawnMoves`, `GetNoisyPawnMoves` and
   * `GetPieceMoves`.
   */
  datatype Emitters = Emitters(
    quietKing: Bitboard -> seq<Move>,
    noisyKing: Bitboard -> seq<Move>,
    quietPawns: (Bitboard, Bitboard, Bitboard) -> seq<Move>,
    noisyPawns: (Bitboard, Bitboard, Bitboard, Bitboard) -> seq<Move>,
    pieces: (PieceType, Bitboard, Bitboard, Bitboard, MoveFlag) -> seq<Move>)

  /** One emitter call with its arguments. */
  datatype Call =
    | QuietKing(moveMap: Bitboard)
    | NoisyKing(moveMap: Bitboard)
    | Castling
    | QuietPawns(pushMap: Bitboard, diagPins: Bitboard, orthoPins: Bitboard)
    | NoisyPawns(pushMap: Bitboard, captureMap: Bitboard, diagPins: Bitboard, orthoPins: Bitboard)
    | Pieces(piece: PieceType, moveMap: Bitboard, diagPins: Bitboard, orthoPins: Bitboard, flag: MoveFlag)

  /** The calls made under the QUIET bit. */
  predicate IsQuiet(c: Call) {
    c.QuietKing? || c.Castling? || c.QuietPawns? || (c.Pieces? && c.flag == QUIET_MOVE_FLAG)
  }

  predicate IsKingCall(c: Call) {
    c.QuietKing? || c.NoisyKing?
  }

  /** The moves one call writes, `castles` being those `GetCastleMoves` writes. */
  function Output(c: Call, castles: seq<Move>, e: Emitters): seq<Move> {
    match c
    case QuietKing(moveMap) => e.quietKing(moveMap)
    case NoisyKing(moveMap) => e.noisyKing(moveMap)
    case Castling => castles
    case QuietPawns(pushMap, diagPins, orthoPins) => e.quietPawns(pushMap, diagPins, orthoPins)
    case NoisyPawns(pushMap, captureMap, diagPins, orthoPins) => e.noisyPawns(pushMap, captureMap, diagPins, orthoPins)
    case Pieces(piece, moveMap, diagPins, orthoPins, flag) => e.pieces(piece, moveMap, diagPins, orthoPins, flag)
  }

  /** The moves a sequence of calls writes, one call's moves after the other's. */
  function Written(calls: seq<Call>, castles: seq<Move>, e: Emitters): seq<Move> {
    if calls == [] then [] else Output(calls[0], castles, e) + Written(calls[1..], castles, e)
  }

  /** The empty squares the king may step to. */
  function QuietKingMap(g: Generator): Bitboard {
    g.kingMoveMap & !AllOccupancy(g.board)
  }

  /** The enemy pieces the king may capture. */
  function NoisyKingMap(g: Generator): Bitboard {
    g.kingMoveMap & g.board.occupancy[g.oppositeSide]
  }

  /**
   * The squares the other pieces may move to without capturing: every empty
   * square when not in check, the squares between king and checker otherwise.
   */
  function PushMap(g: Generator): Bitboard {
    if g.checkers == EMPTY then !AllOccupancy(g.board)
    else GetRayExcludeDestination(g.kingSquare, Ls1bSquare(g.checkers))
  }

  /** The squares the other pieces may capture on: every enemy piece when not in check, the checkers otherwise. */
  function CaptureMap(g: Generator): Bitboard {
    if g.checkers == EMPTY then g.board.occupancy[g.oppositeSide] else g.checkers
  }

  /** At least two checkers: `m_Checkers` is neither empty nor a single bit. */
  predicate DoubleCheck(checkers: Bitboard) {
    checkers != EMPTY && checkers & (checkers - 1) != EMPTY
  }

  /** The king calls, made whatever the number of checkers. */
  function KingCalls(mode: MoveGenMode, quietMap: Bitboard, noisyMap: Bitboard): seq<Call> {
    (if mode.quiet then [QuietKing(quietMap)] else []) + (if mode.noisy then [NoisyKing(noisyMap)] else [])
  }

  /** The quiet pawn, knight, bishop and rook calls for one push map. */
  function QuietTargetCalls(pushMap: Bitboard, diagPins: Bitboard, orthoPins: Bitboard): seq<Call> {
    [QuietPawns(pushMap, diagPins, orthoPins),
     Pieces(KNIGHT, pushMap, diagPins, orthoPins, QUIET_MOVE_FLAG),
     Pieces(BISHOP, pushMap, diagPins, orthoPins, QUIET_MOVE_FLAG),
     Pieces(ROOK, pushMap, diagPins, orthoPins, QUIET_MOVE_FLAG)]
  }

  /** The capturing pawn, knight, bishop and rook calls for one capture map. */
  function NoisyTargetCalls(pushMap: Bitboard, captureMap: Bitboard, diagPins: Bitboard, orthoPins: Bitboard): seq<Call> {
    [NoisyPawns(pushMap, captureMap, diagPins, orthoPins),
     Pieces(KNIGHT, captureMap, diagPins, orthoPins, CAPTURE_FLAG),
     Pieces(BISHOP, captureMap, diagPins, orthoPins, CAPTURE_FLAG),
     Pieces(ROOK, captureMap, diagPins, orthoPins, CAPTURE_FLAG)]
  }

  /** The pawn, knight, bishop and rook calls of one branch. */
  function TargetCalls(mode: MoveGenMode, pushMap: Bitboard, captureMap: Bitboard, diagPins: Bitboard, orthoPins: Bitboard): seq<Call> {
    (if mode.quiet then QuietTargetCalls(pushMap, diagPins, orthoPins) else []) +
    (if mode.noisy then NoisyTargetCalls(pushMap, captureMap, diagPins, orthoPins) else [])
  }

  /** The calls of the branch the checkers select, after the king calls. */
  function BranchCalls(mode: MoveGenMode, checkers: Bitboard, pushMap: Bitboard, captureMap: Bitboard,
                       diagPins: Bitboard, orthoPins: Bitboard): seq<Call> {
    if DoubleCheck(checkers) then []
    else
      (if checkers == EMPTY && mode.quiet then [Castling] else []) +
      TargetCalls(mode, pushMap, captureMap, diagPins, orthoPins)
  }

  /** The calls `GenerateMoves_Internal<mode>` makes, in order. */
  function Plan(g: Generator, mode: MoveGenMode): seq<Call> {
    KingCalls(mode, QuietKingMap(g), NoisyKingMap(g)) +
    BranchCalls(mode, g.checkers, PushMap(g), CaptureMap(g), g.diagonalPins, g.orthogonalPins)
  }

  /** The moves `GenerateMoves_Internal<mode>` writes. */
  function Generated(g: Generator, mode: MoveGenMode, e: Emitters, canCastle: bv8 -> bool): seq<Move> {
    Written(Plan(g, mode), CastleMoves(g, canCastle), e)
  }

  /** The king calls: the quiet one exactly in QUIET mode, the capturing one exactly in NOISY mode. */
  lemma KingCallsMembers(mode: MoveGenMode, quietMap: Bitboard, noisyMap: Bitboard, c: Call)
    ensures c in KingCalls(mode, quietMap, noisyMap) <==>
      (mode.quiet && c == QuietKing(quietMap)) || (mode.noisy && c == NoisyKing(noisyMap))
  {
    if mode.quiet && mode.noisy {
      assert KingCalls(mode, quietMap, noisyMap) == [QuietKing(quietMap), NoisyKing(noisyMap)];
    }
  }

  /** A quiet pawn, knight, bishop or rook call aimed at `pushMap`. */
  predicate QuietTarget(c: Call, pushMap: Bitboard, diagPins: Bitboard, orthoPins: Bitboard) {
    c == QuietPawns(pushMap, diagPins, orthoPins) ||
    (c.Pieces? && c.piece in {KNIGHT, BISHOP, ROOK} && c == Pieces(c.piece, pushMap, diagPins, orthoPins, QUIET_MOVE_FLAG))
  }

  /** A capturing pawn, knight, bishop or rook call aimed at `captureMap`. */
  predicate NoisyTarget(c: Call, pushMap: Bitboard, captureMap: Bitboard, diagPins: Bitboard, orthoPins: Bitboard) {
    c == NoisyPawns(pushMap, captureMap, diagPins, orthoPins) ||
    (c.Pieces? && c.piece in {KNIGHT, BISHOP, ROOK} && c == Pieces(c.piece, captureMap, diagPins, orthoPins, CAPTURE_FLAG))
  }

  /** The target calls: the quiet ones exactly in QUIET mode, the capturing ones exactly in NOISY mode. */
  lemma TargetCallsMembers(mode: MoveGenMode, pushMap: Bitboard, captureMap: Bitboard, diagPins: Bitboard, orthoPins: Bitboard, c: Call)
    ensures c in TargetCalls(mode, pushMap, captureMap, diagPins, orthoPins) <==>
      (mode.quiet && QuietTarget(c, pushMap, diagPins, orthoPins)) ||
      (mode.noisy && NoisyTarget(c, pushMap, captureMap, diagPins, orthoPins))
  {
    assert c in QuietTargetCalls(pushMap, diagPins, orthoPins) <==> QuietTarget(c, pushMap, diagPins, orthoPins);
    assert c in NoisyTargetCalls(pushMap, captureMap, diagPins, orthoPins) <==> NoisyTarget(c, pushMap, captureMap, diagPins, orthoPins);
  }

  /** Every call of a plan, by kind. */
  lemma PlanMembers(g: Generator, mode: MoveGenMode, c: Call)
    ensures c in Plan(g, mode) <==>
      (mode.quiet && c == QuietKing(QuietKingMap(g))) || (mode.noisy && c == NoisyKing(NoisyKingMap(g))) ||
      (g.checkers == EMPTY && mode.quiet && c == Castling) ||
      (!DoubleCheck(g.checkers) && mode.quiet && QuietTarget(c, PushMap(g), g.diagonalPins, g.orthogonalPins)) ||
      (!DoubleCheck(g.checkers) && mode.noisy && NoisyTarget(c, PushMap(g), CaptureMap(g), g.diagonalPins, g.orthogonalPins))
  {
    KingCallsMembers(mode, QuietKingMap(g), NoisyKingMap(g), c);
    TargetCallsMembers(mode, PushMap(g), CaptureMap(g), g.diagonalPins, g.orthogonalPins, c);
  }

  /**
   * Quiet calls are made only under the QUIET bit and every other call only
   * under the NOISY bit.
   */
  lemma ModeSelects(g: Generator, mode: MoveGenMode)
    ensures forall c :: c in Plan(g, mode) ==> if IsQuiet(c) then mode.quiet else mode.noisy
  {
    forall c | c in Plan(g, mode)
      ensures if IsQuiet(c) then mode.quiet else mode.noisy
    {
      CallSelected(g, mode, c);
    }
  }

  /** One call of a plan is made under its own mode bit. */
  lemma CallSelected(g: Generator, mode: MoveGenMode, c: Call)
    requires c in Plan(g, mode)
    ensures if IsQuiet(c) then mode.quiet else mode.noisy
  {
    KingCallsMembers(mode, QuietKingMap(g), NoisyKingMap(g), c);
    TargetCallsMembers(mode, PushMap(g), CaptureMap(g), g.diagonalPins, g.orthogonalPins, c);
  }

  /**
   * Both king calls are made whatever the number of checkers, each exactly
   * under its mode bit, and they are the only king calls.
   */
  lemma KingCallsAlways(g: Generator, mode: MoveGenMode)
    ensures QuietKing(QuietKingMap(g)) in Plan(g, mode) <==> mode.quiet
    ensures NoisyKing(NoisyKingMap(g)) in Plan(g, mode) <==> mode.noisy
    ensures forall c :: c in Plan(g, mode) && IsKingCall(c) ==>
      c == QuietKing(QuietKingMap(g)) || c == NoisyKing(NoisyKingMap(g))
  {
    PlanMembers(g, mode, QuietKing(QuietKingMap(g)));
    PlanMembers(g, mode, NoisyKing(NoisyKingMap(g)));
    forall c | c in Plan(g, mode) && IsKingCall(c)
      ensures c == QuietKing(QuietKingMap(g)) || c == NoisyKing(NoisyKingMap(g))
    {
      PlanMembers(g, mode, c);
    }
  }

  /** The king's quiet moves go to the empty squares of the king move map. */
  lemma QuietKingMapMeaning(g: Generator, s: BoardSquare)
    ensures s in SquareSet(QuietKingMap(g)) <==> s in SquareSet(g.kingMoveMap) && s !in SquareSet(AllOccupancy(g.board))
  {
    var occupancy := AllOccupancy(g.board);
    AndOf(QuietKingMap(g), g.kingMoveMap, !occupancy, s);
    NotMember(occupancy, s);
  }

  /** The king's captures go to the enemy pieces on the king move map. */
  lemma NoisyKingMapMeaning(g: Generator, s: BoardSquare)
    ensures s in SquareSet(NoisyKingMap(g)) <==> s in SquareSet(g.kingMoveMap) && s in SquareSet(g.board.occupancy[g.oppositeSide])
  {
    AndOf(NoisyKingMap(g), g.kingMoveMap, g.board.occupancy[g.oppositeSide], s);
  }

  /**
   * Outside double check, the calls other than the king calls and castling
   * are exactly the target calls the mode allows, aimed at the branch's push
   * and capture maps.
   */
  lemma TargetsOfPlan(g: Generator, mode: MoveGenMode)
    requires !DoubleCheck(g.checkers)
    ensures forall c :: !IsKingCall(c) && !c.Castling? ==>
      (c in Plan(g, mode) <==>
         (mode.quiet && QuietTarget(c, PushMap(g), g.diagonalPins, g.orthogonalPins)) ||
         (mode.noisy && NoisyTarget(c, PushMap(g), CaptureMap(g), g.diagonalPins, g.orthogonalPins)))
  {
    forall c | !IsKingCall(c) && !c.Castling?
      ensures c in Plan(g, mode) <==>
        (mode.quiet && QuietTarget(c, PushMap(g), g.diagonalPins, g.orthogonalPins)) ||
        (mode.noisy && NoisyTarget(c, PushMap(g), CaptureMap(g), g.diagonalPins, g.orthogonalPins))
    {
      PlanMembers(g, mode, c);
    }
  }

  /** Castling is tried exactly when there is no checker, in quiet mode. */
  lemma CastlingInPlan(g: Generator, mode: MoveGenMode)
    ensures Castling in Plan(g, mode) <==> g.checkers == EMPTY && mode.quiet
  {
    var branch := BranchCalls(mode, g.checkers, PushMap(g), CaptureMap(g), g.diagonalPins, g.orthogonalPins);
    KingCallsMembers(mode, QuietKingMap(g), NoisyKingMap(g), Castling);
    TargetCallsMembers(mode, PushMap(g), CaptureMap(g), g.diagonalPins, g.orthogonalPins, Castling);
    assert Castling in Plan(g, mode) <==> Castling in branch;
  }

  /**
   * With no checker, castling is tried exactly in quiet mode, pieces move to
   * any empty square and capture any enemy piece.
   */
  lemma NoCheckDispatch(g: Generator, mode: MoveGenMode)
    requires g.checkers == EMPTY
    ensures !DoubleCheck(g.checkers)
    ensures Castling in Plan(g, mode) <==> mode.quiet
    ensures forall s: BoardSquare :: s in SquareSet(PushMap(g)) <==> s !in SquareSet(AllOccupancy(g.board))
    ensures CaptureMap(g) == g.board.occupancy[g.oppositeSide]
  {
    CastlingInPlan(g, mode);
    forall s: BoardSquare
      ensures s in SquareSet(PushMap(g)) <==> s !in SquareSet(AllOccupancy(g.board))
    {
      NoCheckPushSquare(g, s);
    }
  }

  /** With no checker a piece may move to a square exactly when it is empty. */
  lemma NoCheckPushSquare(g: Generator, s: BoardSquare)
    requires g.checkers == EMPTY
    ensures s in SquareSet(PushMap(g)) <==> s !in SquareSet(AllOccupancy(g.board))
  {
    var occupancy := AllOccupancy(g.board);
    assert PushMap(g) == !occupancy;
    NotMember(occupancy, s);
  }

  /**
   * With exactly one checker there is no castling; pieces move only to the
   * squares strictly between the king and the checker, and capture only the
   * checker.
   */
  lemma SingleCheckDispatch(g: Generator, mode: MoveGenMode, checker: BoardSquare)
    requires SquareSet(g.checkers) == {checker}
    ensures !DoubleCheck(g.checkers)
    ensures Castling !in Plan(g, mode)
    ensures forall s: BoardSquare :: s in SquareSet(PushMap(g)) <==> Aligned(g.kingSquare, checker) && Between(g.kingSquare, checker, s)
    ensures SquareSet(CaptureMap(g)) == {checker}
  {
    OneSquare(g.checkers, checker);
    CastlingInPlan(g, mode);
    forall s: BoardSquare
      ensures s in SquareSet(PushMap(g)) <==> Aligned(g.kingSquare, checker) && Between(g.kingSquare, checker, s)
    {
      SingleCheckPushSquare(g, checker, s);
    }
  }

  /** With one checker a piece may move to a square exactly when it lies between the king and the checker. */
  lemma SingleCheckPushSquare(g: Generator, checker: BoardSquare, s: BoardSquare)
    requires g.checkers != EMPTY && Ls1bSquare(g.checkers) == checker
    ensures s in SquareSet(PushMap(g)) <==> Aligned(g.kingSquare, checker) && Between(g.kingSquare, checker, s)
  {
    assert PushMap(g) == GetRayExcludeDestination(g.kingSquare, checker);
    ExcludeDestinationIsBetween(g.kingSquare, checker, s);
  }

  /** With two or more checkers only the king calls are made. */
  lemma DoubleCheckDispatch(g: Generator, mode: MoveGenMode, first: BoardSquare, second: BoardSquare)
    requires first != second && first in SquareSet(g.checkers) && second in SquareSet(g.checkers)
    ensures forall c :: c in Plan(g, mode) ==> IsKingCall(c)
  {
    TwoSquares(g.checkers, first, second);
    forall c | c in Plan(g, mode)
      ensures IsKingCall(c)
    {
      PlanMembers(g, mode, c);
    }
  }

  /** The calls of a sequence that are quiet (`quiet`) or not (`!quiet`), in order. */
  function Select(calls: seq<Call>, quiet: bool): seq<Call> {
    if calls == [] then []
    else (if IsQuiet(calls[0]) == quiet then [calls[0]] else []) + Select(calls[1..], quiet)
  }

  lemma {:induction false} SelectAppend(a: seq<Call>, b: seq<Call>, quiet: bool)
    ensures Select(a + b, quiet) == Select(a, quiet) + Select(b, quiet)
  {
    if a == [] {
      assert a + b == b;
    } else {
      assert (a + b)[0] == a[0] && (a + b)[1..] == a[1..] + b;
      SelectAppend(a[1..], b, quiet);
    }
  }

  /** Every call of `calls` is quiet. */
  predicate AllQuiet(calls: seq<Call>) {
    forall c :: c in calls ==> IsQuiet(c)
  }

  /** No call of `calls` is quiet. */
  predicate NoneQuiet(calls: seq<Call>) {
    forall c :: c in calls ==> !IsQuiet(c)
  }

  lemma {:induction false} SelectAllQuiet(calls: seq<Call>)
    requires AllQuiet(calls)
    ensures Select(calls, true) == calls && Select(calls, false) == []
  {
    if calls != [] {
      assert AllQuiet(calls[1..]) by { assert forall c :: c in calls[1..] ==> c in calls; }
      SelectAllQuiet(calls[1..]);
      assert calls == [calls[0]] + calls[1..];
    }
  }

  lemma {:induction false} SelectNoneQuiet(calls: seq<Call>)
    requires NoneQuiet(calls)
    ensures Select(calls, true) == [] && Select(calls, false) == calls
  {
    if calls != [] {
      assert NoneQuiet(calls[1..]) by { assert forall c :: c in calls[1..] ==> c in calls; }
      SelectNoneQuiet(calls[1..]);
      assert calls == [calls[0]] + calls[1..];
    }
  }

  /** Quiet calls ahead of others join the quiet selection and leave the other unchanged. */
  lemma SelectQuietPrefix(a: seq<Call>, b: seq<Call>)
    requires AllQuiet(a)
    ensures Select(a + b, true) == a + Select(b, true) && Select(a + b, false) == Select(b, false)
  {
    SelectAppend(a, b, true);
    SelectAppend(a, b, false);
    SelectAllQuiet(a);
    assert [] + Select(b, false) == Select(b, false);
  }

  /** Non-quiet calls ahead of others join the other selection and leave the quiet one unchanged. */
  lemma SelectNoisyPrefix(a: seq<Call>, b: seq<Call>)
    requires NoneQuiet(a)
    ensures Select(a + b, true) == Select(b, true) && Select(a + b, false) == a + Select(b, false)
  {
    SelectAppend(a, b, true);
    SelectAppend(a, b, false);
    SelectNoneQuiet(a);
    assert [] + Select(b, true) == Select(b, true);
  }

  /**
   * Selecting from the five parts of an ALL plan: the king's quiet call,
   * its capture, castling, the quiet and the capturing target calls.
   */
  lemma PartitionSteps(quietKing: seq<Call>, noisyKing: seq<Call>, castles: seq<Call>, quiets: seq<Call>, noisies: seq<Call>)
    requires AllQuiet(quietKing) && AllQuiet(castles) && AllQuiet(quiets)
    requires NoneQuiet(noisyKing) && NoneQuiet(noisies)
    ensures Select((quietKing + noisyKing) + (castles + (quiets + noisies)), true) == quietKing + (castles + quiets)
    ensures Select((quietKing + noisyKing) + (castles + (quiets + noisies)), false) == noisyKing + noisies
  {
    SelectNoneQuiet(noisies);
    SelectQuietPrefix(quiets, noisies);
    assert quiets + [] == quiets;
    SelectQuietPrefix(castles, quiets + noisies);
    SelectNoneQuiet(noisyKing);
    SelectQuietPrefix(quietKing, noisyKing);
    assert quietKing + [] == quietKing;
    SelectAppend(quietKing + noisyKing, castles + (quiets + noisies), true);
    SelectAppend(quietKing + noisyKing, castles + (quiets + noisies), false);
  }

  /** The partition of an ALL plan, for any king maps, checkers, push and capture maps and pins. */
  lemma PlanPartition(quietMap: Bitboard, noisyMap: Bitboard, checkers: Bitboard, pushMap: Bitboard, captureMap: Bitboard,
                      diagPins: Bitboard, orthoPins: Bitboard)
    ensures Select(KingCalls(ALL, quietMap, noisyMap) + BranchCalls(ALL, checkers, pushMap, captureMap, diagPins, orthoPins), true) ==
      KingCalls(QUIET, quietMap, noisyMap) + BranchCalls(QUIET, checkers, pushMap, captureMap, diagPins, orthoPins)
    ensures Select(KingCalls(ALL, quietMap, noisyMap) + BranchCalls(ALL, checkers, pushMap, captureMap, diagPins, orthoPins), false) ==
      KingCalls(NOISY, quietMap, noisyMap) + BranchCalls(NOISY, checkers, pushMap, captureMap, diagPins, orthoPins)
  {
    var quietKing := [QuietKing(quietMap)];
    var noisyKing := [NoisyKing(noisyMap)];
    assert KingCalls(ALL, quietMap, noisyMap) == quietKing + noisyKing;
    assert KingCalls(QUIET, quietMap, noisyMap) == quietKing;
    assert KingCalls(NOISY, quietMap, noisyMap) == noisyKing;
    var castles: seq<Call>, quiets: seq<Call>, noisies: seq<Call> := [], [], [];
    if !DoubleCheck(checkers) {
      castles := if checkers == EMPTY then [Castling] else [];
      quiets := QuietTargetCalls(pushMap, diagPins, orthoPins);
      noisies := NoisyTargetCalls(pushMap, captureMap, diagPins, orthoPins);
      assert TargetCalls(NOISY, pushMap, captureMap, diagPins, orthoPins) == noisies;
      assert TargetCalls(QUIET, pushMap, captureMap, diagPins, orthoPins) == quiets;
    }
    assert BranchCalls(ALL, checkers, pushMap, captureMap, diagPins, orthoPins) == castles + (quiets + noisies);
    assert BranchCalls(QUIET, checkers, pushMap, captureMap, diagPins, orthoPins) == castles + quiets;
    assert BranchCalls(NOISY, checkers, pushMap, captureMap, diagPins, orthoPins) == noisies;
    PartitionSteps(quietKing, noisyKing, castles, quiets, noisies);
  }

  /**
   * The ALL mode makes the QUIET mode's calls and the NOISY mode's calls,
   * each in its own order: selecting the quiet calls of `Plan(g, ALL)`
   * gives `Plan(g, QUIET)` and the rest gives `Plan(g, NOISY)`.
   */
  lemma ModesPartition(g: Generator)
    ensures Select(Plan(g, ALL), true) == Plan(g, QUIET)
    ensures Select(Plan(g, ALL), false) == Plan(g, NOISY)
  {
    PlanPartition(QuietKingMap(g), NoisyKingMap(g), g.checkers, PushMap(g), CaptureMap(g), g.diagonalPins, g.orthogonalPins);
  }

  /** The moves of a call followed by more calls. */
  lemma WrittenCons(c: Call, calls: seq<Call>, castles: seq<Move>, e: Emitters)
    ensures Written([c] + calls, castles, e) == Output(c, castles, e) + Written(calls, castles, e)
  {
    assert ([c] + calls)[0] == c && ([c] + calls)[1..] == calls;
  }

  /** The moves of a sequence of calls split into those of its quiet and its other calls. */
  predicate SplitsBySelect(calls: seq<Call>, castles: seq<Move>, e: Emitters) {
    multiset(Written(calls, castles, e)) ==
      multiset(Written(Select(calls, true), castles, e)) + multiset(Written(Select(calls, false), castles, e))
  }

  /** The calls selected from a sequence headed by `c`: `c` when it is of the kind selected, then those of the tail. */
  lemma SelectCons(c: Call, tail: seq<Call>, quiet: bool)
    ensures Select([c] + tail, quiet) == (if IsQuiet(c) == quiet then [c] else []) + Select(tail, quiet)
  {
    assert ([c] + tail)[0] == c && ([c] + tail)[1..] == tail;
  }

  /** The moves of the selected calls of a sequence headed by a call of the kind selected. */
  lemma WrittenSelectHead(c: Call, tail: seq<Call>, castles: seq<Move>, e: Emitters, quiet: bool)
    requires IsQuiet(c) == quiet
    ensures multiset(Written(Select([c] + tail, quiet), castles, e)) ==
      multiset(Output(c, castles, e)) + multiset(Written(Select(tail, quiet), castles, e))
  {
    SelectCons(c, tail, quiet);
    WrittenCons(c, Select(tail, quiet), castles, e);
  }

  /** The calls selected from a sequence headed by a call of the other kind. */
  lemma SelectSkip(c: Call, tail: seq<Call>, quiet: bool)
    requires IsQuiet(c) != quiet
    ensures Select([c] + tail, quiet) == Select(tail, quiet)
  {
    SelectCons(c, tail, quiet);
    assert [] + Select(tail, quiet) == Select(tail, quiet);
  }

  /** A call put ahead of a sequence that splits keeps it splitting. */
  lemma WrittenSelectStep(c: Call, tail: seq<Call>, castles: seq<Move>, e: Emitters)
    requires SplitsBySelect(tail, castles, e)
    ensures SplitsBySelect([c] + tail, castles, e)
  {
    WrittenCons(c, tail, castles, e);
    WrittenSelectHead(c, tail, castles, e, IsQuiet(c));
    SelectSkip(c, tail, !IsQuiet(c));
  }

  /** The moves of a sequence of calls are those of its quiet calls and those of its other calls. */
  lemma {:induction false} WrittenSelect(calls: seq<Call>, castles: seq<Move>, e: Emitters)
    ensures multiset(Written(calls, castles, e)) ==
      multiset(Written(Select(calls, true), castles, e)) + multiset(Written(Select(calls, false), castles, e))
  {
    if calls != [] {
      WrittenSelect(calls[1..], castles, e);
      WrittenSelectStep(calls[0], calls[1..], castles, e);
      assert [calls[0]] + calls[1..] == calls;
    }
  }

  /** The moves of two sequences of calls, one after the other. */
  lemma {:induction false} WrittenAppend(a: seq<Call>, b: seq<Call>, castles: seq<Move>, e: Emitters)
    ensures Written(a + b, castles, e) == Written(a, castles, e) + Written(b, castles, e)
  {
    if a == [] {
      assert a + b == b;
    } else {
      assert (a + b)[0] == a[0] && (a + b)[1..] == a[1..] + b;
      WrittenAppend(a[1..], b, castles, e);
    }
  }

  /**
   * `GenerateMoves<ALL>` writes the moves of `GenerateMoves<QUIET>` and those
   * of `GenerateMoves<NOISY>`, each exactly as often.
   */
  lemma AllIsQuietAndNoisy(g: Generator, e: Emitters, canCastle: bv8 -> bool)
    ensures multiset(Generated(g, ALL, e, canCastle)) ==
      multiset(Generated(g, QUIET, e, canCastle)) + multiset(Generated(g, NOISY, e, canCastle))
  {
    ModesPartition(g);
    WrittenSelect(Plan(g, ALL), CastleMoves(g, canCastle), e);
  }

  /** The `*(moves++) = move` writes of an emitter: `moves` land in the buffer from `at` on. */
  method Emit(buffer: array<Move>, at: nat, moves: seq<Move>) returns (next: nat)
    requires at + |moves| <= buffer.Length
    modifies buffer
    ensures next == at + |moves|
    ensures buffer[..next] == old(buffer[..at]) + moves
    ensures buffer[next..] == old(buffer[next..])
  {
    next := at;
    for k := 0 to |moves|
      invariant next == at + k
      invariant buffer[..next] == old(buffer[..at]) + moves[..k]
      invariant buffer[next..] == old(buffer[next..])
    {
      buffer[next] := moves[k];
      next := next + 1;
    }
  }

  /**
   * One call of the plan, the first of the calls `rest` still to make: its
   * moves follow those already written, and what is written then followed
   * by the moves of the remaining calls is still `target`. Castling is
   * made by the generator itself (`MoveGenerator.CastleStep`).
   */
  method Perform(buffer: array<Move>, at: nat, c: Call, e: Emitters,
                 ghost castles: seq<Move>, ghost rest: seq<Call>, ghost target: seq<Move>, ghost original: seq<Move>)
    returns (next: nat)
    requires !c.Castling? && rest != [] && rest[0] == c
    requires at <= buffer.Length && |target| <= buffer.Length
    requires buffer[..at] + Written(rest, castles, e) == target
    requires |original| == buffer.Length && buffer[at..] == original[at..]
    modifies buffer
    ensures at <= next <= buffer.Length
    ensures buffer[..next] + Written(rest[1..], castles, e) == target
    ensures buffer[next..] == original[next..]
  {
    ghost var moves := Output(c, castles, e);
    assert buffer[..at] + moves + Written(rest[1..], castles, e) == target;
    match c
    case QuietKing(moveMap) =>
      next := Emit(buffer, at, e.quietKing(moveMap));
    case NoisyKing(moveMap) =>
      next := Emit(buffer, at, e.noisyKing(moveMap));
    case QuietPawns(pushMap, diagPins, orthoPins) =>
      next := Emit(buffer, at, e.quietPawns(pushMap, diagPins, orthoPins));
    case NoisyPawns(pushMap, captureMap, diagPins, orthoPins) =>
      next := Emit(buffer, at, e.noisyPawns(pushMap, captureMap, diagPins, orthoPins));
    case Pieces(piece, moveMap, diagPins, orthoPins, flag) =>
      next := Emit(buffer, at, e.pieces(piece, moveMap, diagPins, orthoPins, flag));
    assert original[next..] == original[at..][next - at..];
  }

  /**
   * One castling check of `GetCastleMoves`, against the generator's attack
   * map and occupancy: `m` is written when `CastleOption` holds it.
   */
  method CastleIf(buffer: array<Move>, at: nat, allowed: bool, crossed: Bitboard, between: Bitboard, m: Move,
                  attackMap: Bitboard, occupancy: Bitboard, ghost g: Generator)
    returns (next: nat)
    requires g.attackMap == attackMap && AllOccupancy(g.board) == occupancy
    requires at + |CastleOption(g, allowed, crossed, between, m)| <= buffer.Length
    modifies buffer
    ensures next == at + |CastleOption(g, allowed, crossed, between, m)|
    ensures buffer[..next] == old(buffer[..at]) + CastleOption(g, allowed, crossed, between, m)
    ensures buffer[next..] == old(buffer[next..])
  {
    next := at;
    if allowed && PathClear(crossed, between, attackMap, occupancy) {
      next := Emit(buffer, next, [m]);
    }
  }

  /** Both castling options of one side, king side first, as `GetCastleMoves` writes them. */
  method CastlePair(buffer: array<Move>, at: nat,
                    kingAllowed: bool, kingCrossed: Bitboard, kingBetween: Bitboard, kingMove: Move,
                    queenAllowed: bool, queenCrossed: Bitboard, queenBetween: Bitboard, queenMove: Move,
                    attackMap: Bitboard, occupancy: Bitboard, ghost g: Generator)
    returns (next: nat)
    requires g.attackMap == attackMap && AllOccupancy(g.board) == occupancy
    requires at + |CastleOption(g, kingAllowed, kingCrossed, kingBetween, kingMove)|
      + |CastleOption(g, queenAllowed, queenCrossed, queenBetween, queenMove)| <= buffer.Length
    modifies buffer
    ensures next == at + |CastleOption(g, kingAllowed, kingCrossed, kingBetween, kingMove)|
      + |CastleOption(g, queenAllowed, queenCrossed, queenBetween, queenMove)|
    ensures buffer[..next] == old(buffer[..at]) + CastleOption(g, kingAllowed, kingCrossed, kingBetween, kingMove)
      + CastleOption(g, queenAllowed, queenCrossed, queenBetween, queenMove)
    ensures buffer[next..] == old(buffer[next..])
  {
    ghost var before := buffer[..];
    var middle := CastleIf(buffer, at, kingAllowed, kingCrossed, kingBetween, kingMove, attackMap, occupancy, g);
    ghost var between := buffer[..];
    next := CastleIf(buffer, middle, queenAllowed, queenCrossed, queenBetween, queenMove, attackMap, occupancy, g);
    assert between[middle..] == before[middle..];
    SuffixesAgree(between, before, middle, next);
  }

  /** Two buffers that agree from `i` on agree from any later `j` on. */
  lemma SuffixesAgree(a: seq<Move>, b: seq<Move>, i: nat, j: nat)
    requires i <= j <= |a| && |a| == |b| && a[i..] == b[i..]
    ensures a[j..] == b[j..]
  {
    assert a[j..] == a[i..][j - i..];
    assert b[j..] == b[i..][j - i..];
  }

  /** The four quiet calls of a branch, followed by the calls `more`. */
  method QuietTargets(buffer: array<Move>, at: nat, pushMap: Bitboard, diagPins: Bitboard, orthoPins: Bitboard, e: Emitters,
                      ghost castles: seq<Move>, ghost more: seq<Call>, ghost target: seq<Move>, ghost original: seq<Move>)
    returns (next: nat)
    requires at <= buffer.Length && |target| <= buffer.Length
    requires buffer[..at] + Written(QuietTargetCalls(pushMap, diagPins, orthoPins) + more, castles, e) == target
    requires |original| == buffer.Length && buffer[at..] == original[at..]
    modifies buffer
    ensures at <= next <= buffer.Length
    ensures buffer[..next] + Written(more, castles, e) == target
    ensures buffer[next..] == original[next..]
  {
    ghost var left := QuietTargetCalls(pushMap, diagPins, orthoPins) + more;
    next := Perform(buffer, at, QuietPawns(pushMap, diagPins, orthoPins), e, castles, left, target, original);
    left := left[1..];
    next := Perform(buffer, next, Pieces(KNIGHT, pushMap, diagPins, orthoPins, QUIET_MOVE_FLAG), e, castles, left, target, original);
    left := left[1..];
    next := Perform(buffer, next, Pieces(BISHOP, pushMap, diagPins, orthoPins, QUIET_MOVE_FLAG), e, castles, left, target, original);
    left := left[1..];
    next := Perform(buffer, next, Pieces(ROOK, pushMap, diagPins, orthoPins, QUIET_MOVE_FLAG), e, castles, left, target, original);
    left := left[1..];
    assert left == more;
  }

  /** The four capturing calls of a branch, followed by the calls `more`. */
  method NoisyTargets(buffer: array<Move>, at: nat, pushMap: Bitboard, captureMap: Bitboard, diagPins: Bitboard, orthoPins: Bitboard,
                      e: Emitters, ghost castles: seq<Move>, ghost more: seq<Call>, ghost target: seq<Move>, ghost original: seq<Move>)
    returns (next: nat)
    requires at <= buffer.Length && |target| <= buffer.Length
    requires buffer[..at] + Written(NoisyTargetCalls(pushMap, captureMap, diagPins, orthoPins) + more, castles, e) == target
    requires |original| == buffer.Length && buffer[at..] == original[at..]
    modifies buffer
    ensures at <= next <= buffer.Length
    ensures buffer[..next] + Written(more, castles, e) == target
    ensures buffer[next..] == original[next..]
  {
    ghost var left := NoisyTargetCalls(pushMap, captureMap, diagPins, orthoPins) + more;
    next := Perform(buffer, at, NoisyPawns(pushMap, captureMap, diagPins, orthoPins), e, castles, left, target, original);
    left := left[1..];
    next := Perform(buffer, next, Pieces(KNIGHT, captureMap, diagPins, orthoPins, CAPTURE_FLAG), e, castles, left, target, original);
    left := left[1..];
    next := Perform(buffer, next, Pieces(BISHOP, captureMap, diagPins, orthoPins, CAPTURE_FLAG), e, castles, left, target, original);
    left := left[1..];
    next := Perform(buffer, next, Pieces(ROOK, captureMap, diagPins, orthoPins, CAPTURE_FLAG), e, castles, left, target, original);
    left := left[1..];
    assert left == more;
  }

  /** The pawn, knight, bishop and rook calls of one branch, the last calls of the plan. */
  method Targets(mode: MoveGenMode, buffer: array<Move>, at: nat, pushMap: Bitboard, captureMap: Bitboard,
                 diagPins: Bitboard, orthoPins: Bitboard, e: Emitters,
                 ghost castles: seq<Move>, ghost rest: seq<Call>, ghost target: seq<Move>, ghost original: seq<Move>)
    returns (next: nat)
    requires rest == TargetCalls(mode, pushMap, captureMap, diagPins, orthoPins)
    requires at <= buffer.Length && |target| <= buffer.Length
    requires buffer[..at] + Written(rest, castles, e) == target
    requires |original| == buffer.Length && buffer[at..] == original[at..]
    modifies buffer
    ensures next == |target|
    ensures buffer[..next] == target
    ensures buffer[next..] == original[next..]
  {
    next := at;
    ghost var noisies := if mode.noisy then NoisyTargetCalls(pushMap, captureMap, diagPins, orthoPins) else [];
    if mode.quiet {
      next := QuietTargets(buffer, next, pushMap, diagPins, orthoPins, e, castles, noisies, target, original);
    } else {
      assert rest == noisies;
    }
    if mode.noisy {
      assert noisies == NoisyTargetCalls(pushMap, captureMap, diagPins, orthoPins) + [];
      next := NoisyTargets(buffer, next, pushMap, captureMap, diagPins, orthoPins, e, castles, [], target, original);
    }
  }

  class MoveGenerator {
    const board: Position
    const side: Side
    const oppositeSide: Side
    const kingSquare: BoardSquare
    const diagonalPins: Bitboard
    const orthogonalPins: Bitboard
    const attackMap: Bitboard
    const checkers: Bitboard
    const kingMoveMap: Bitboard

    function State(): Generator {
      Generator(board, side, oppositeSide, kingSquare, diagonalPins, orthogonalPins, attackMap, checkers, kingMoveMap)
    }

    /** `MoveGenerator(board)`, given the square `GetKingSquare(m_Side)` returns. */
    constructor (p: Position, kingSquare: BoardSquare)
      ensures State() == NewGenerator(p, kingSquare)
    {
      ghost var g := NewGenerator(p, kingSquare);
      var pinMask := new PinMask(p, p.side, kingSquare);
      var diagPins := pinMask.GetDiagonalMask();
      var orthoPins := pinMask.GetOrthographicMask();
      var attacks := GenerateAttackMap(p, p.side, kingSquare);
      var checking := if GetBit(attacks, kingSquare) then GenerateCheckersMask(p, kingSquare) else EMPTY;
      var kingMoves := KingMoveMap(kingSquare, attacks);
      assert diagPins == g.diagonalPins && orthoPins == g.orthogonalPins;
      assert attacks == g.attackMap;
      assert checking == g.checkers;
      assert kingMoves == g.kingMoveMap;
      board := p;
      side := p.side;
      oppositeSide := Opposite(p.side);
      this.kingSquare := kingSquare;
      diagonalPins := diagPins;
      orthogonalPins := orthoPins;
      attackMap := attacks;
      checkers := checking;
      kingMoveMap := kingMoves;
    }

    /** `GetCastleMoves`: writes the castling moves from `at` on and returns the advanced position. */
    method GetCastleMoves(buffer: array<Move>, at: nat, canCastle: bv8 -> bool) returns (next: nat)
      requires at + |CastleMoves(State(), canCastle)| <= buffer.Length
      modifies buffer
      ensures next == at + |CastleMoves(State(), canCastle)|
      ensures buffer[..next] == old(buffer[..at]) + CastleMoves(State(), canCastle)
      ensures buffer[next..] == old(buffer[next..])
    {
      ghost var g := State();
      var occupancy := AllOccupancy(board);
      next := at;
      if side == WHITE {
        ghost var kingSide := CastleOption(g, canCastle(CASTLE_WHITE_KING), 0x60, 0x60, NewMove(4, 6, KING_SIDE_CASTLE_FLAG));
        ghost var queenSide := CastleOption(g, canCastle(CASTLE_WHITE_QUEEN), 0xC, 0xE, NewMove(4, 2, QUEEN_SIDE_CASTLE_FLAG));
        assert CastleMoves(g, canCastle) == kingSide + queenSide;
        next := CastlePair(buffer, next, canCastle(CASTLE_WHITE_KING), 0x60, 0x60, NewMove(4, 6, KING_SIDE_CASTLE_FLAG),
                           canCastle(CASTLE_WHITE_QUEEN), 0xC, 0xE, NewMove(4, 2, QUEEN_SIDE_CASTLE_FLAG),
                           attackMap, occupancy, g);
      } else {
        ghost var kingSide := CastleOption(g, canCastle(CASTLE_BLACK_KING), 0x6000000000000000, 0x6000000000000000,
                                           NewMove(60, 62, KING_SIDE_CASTLE_FLAG));
        ghost var queenSide := CastleOption(g, canCastle(CASTLE_BLACK_QUEEN), 0xC00000000000000, 0xE00000000000000,
                                            NewMove(60, 58, QUEEN_SIDE_CASTLE_FLAG));
        assert CastleMoves(g, canCastle) == kingSide + queenSide;
        next := CastlePair(buffer, next, canCastle(CASTLE_BLACK_KING), 0x6000000000000000, 0x6000000000000000,
                           NewMove(60, 62, KING_SIDE_CASTLE_FLAG),
                           canCastle(CASTLE_BLACK_QUEEN), 0xC00000000000000, 0xE00000000000000,
                           NewMove(60, 58, QUEEN_SIDE_CASTLE_FLAG), attackMap, occupancy, g);
      }
    }

    /** The castling call of the plan, in the manner of `Perform`. */
    method CastleStep(buffer: array<Move>, at: nat, canCastle: bv8 -> bool, e: Emitters,
                      ghost castles: seq<Move>, ghost rest: seq<Call>, ghost target: seq<Move>, ghost original: seq<Move>)
      returns (next: nat)
      requires castles == CastleMoves(State(), canCastle)
      requires rest != [] && rest[0] == Castling
      requires at <= buffer.Length && |target| <= buffer.Length
      requires buffer[..at] + Written(rest, castles, e) == target
      requires |original| == buffer.Length && buffer[at..] == original[at..]
      modifies buffer
      ensures at <= next <= buffer.Length
      ensures buffer[..next] + Written(rest[1..], castles, e) == target
      ensures buffer[next..] == original[next..]
    {
      assert buffer[..at] + castles + Written(rest[1..], castles, e) == target;
      next := GetCastleMoves(buffer, at, canCastle);
      assert original[next..] == original[at..][next - at..];
    }

    /** The branch with no checker: castling in QUIET mode, then the pieces' moves to empty squares and enemy pieces. */
    method Unchecked(mode: MoveGenMode, buffer: array<Move>, at: nat, e: Emitters, canCastle: bv8 -> bool,
                     ghost castles: seq<Move>, ghost rest: seq<Call>, ghost target: seq<Move>, ghost original: seq<Move>)
      returns (next: nat)
      requires castles == CastleMoves(State(), canCastle)
      requires rest == (if mode.quiet then [Castling] else []) +
        TargetCalls(mode, !AllOccupancy(board), board.occupancy[oppositeSide], diagonalPins, orthogonalPins)
      requires at <= buffer.Length && |target| <= buffer.Length
      requires buffer[..at] + Written(rest, castles, e) == target
      requires |original| == buffer.Length && buffer[at..] == original[at..]
      modifies buffer
      ensures next == |target|
      ensures buffer[..next] == target
      ensures buffer[next..] == original[next..]
    {
      next := at;
      ghost var left := rest;
      if mode.quiet {
        next := CastleStep(buffer, next, canCastle, e, castles, left, target, original);
        left := left[1..];
      }
      var pushMap := !AllOccupancy(board);
      next := Targets(mode, buffer, next, pushMap, board.occupancy[oppositeSide], diagonalPins, orthogonalPins,
                      e, castles, left, target, original);
    }

    /**
     * The calls `GenerateMoves_Internal` makes after the king's: with no
     * checker castling and the pieces' moves to empty squares and enemy
     * pieces, with one checker the pieces' moves that block or capture it,
     * with more checkers nothing.
     */
    method Branches(mode: MoveGenMode, buffer: array<Move>, at: nat, e: Emitters, canCastle: bv8 -> bool,
                    ghost castles: seq<Move>, ghost branch: seq<Call>, ghost target: seq<Move>, ghost original: seq<Move>)
      returns (next: nat)
      requires castles == CastleMoves(State(), canCastle)
      requires branch == BranchCalls(mode, checkers, PushMap(State()), CaptureMap(State()), diagonalPins, orthogonalPins)
      requires at <= buffer.Length && |target| <= buffer.Length
      requires buffer[..at] + Written(branch, castles, e) == target
      requires |original| == buffer.Length && buffer[at..] == original[at..]
      modifies buffer
      ensures next == |target|
      ensures buffer[..next] == target
      ensures buffer[next..] == original[next..]
    {
      var diagPins := diagonalPins;
      var orthoPins := orthogonalPins;
      next := at;
      ghost var rest := branch;
      if checkers == EMPTY {
        assert PushMap(State()) == !AllOccupancy(board) && CaptureMap(State()) == board.occupancy[oppositeSide];
        next := Unchecked(mode, buffer, next, e, canCastle, castles, rest, target, original);
      } else if checkers & (checkers - 1) == EMPTY {
        var checker := Ls1bSquare(checkers);
        var pushMap := GetRayExcludeDestination(kingSquare, checker);
        next := Targets(mode, buffer, next, pushMap, checkers, diagPins, orthoPins, e, castles, rest, target, original);
      } else {
        assert buffer[..next] == target;
      }
    }

    /**
     * `GenerateMoves<mode>` / `GenerateMoves_Internal<mode>`: the planned
     * calls' moves fill the start of the buffer, the rest is untouched, and
     * the count is the number written, cast to `uint8_t`.
     */
    method GenerateMoves(mode: MoveGenMode, buffer: array<Move>, e: Emitters, canCastle: bv8 -> bool) returns (count: Byte)
      requires |Generated(State(), mode, e, canCastle)| <= buffer.Length
      modifies buffer
      ensures count == |Generated(State(), mode, e, canCastle)| % 256
      ensures buffer[..|Generated(State(), mode, e, canCastle)|] == Generated(State(), mode, e, canCastle)
      ensures buffer[|Generated(State(), mode, e, canCastle)|..] == old(buffer[|Generated(State(), mode, e, canCastle)|..])
    {
      ghost var castles := CastleMoves(State(), canCastle);
      ghost var target := Generated(State(), mode, e, canCastle);
      ghost var original := buffer[..];
      ghost var branch := BranchCalls(mode, checkers, PushMap(State()), CaptureMap(State()), diagonalPins, orthogonalPins);
      var at := KingMoves(mode, buffer, QuietKingMap(State()), NoisyKingMap(State()), e,
                          castles, Plan(State(), mode), branch, target, original);
      at := Branches(mode, buffer, at, e, canCastle, castles, branch, target, original);
      count := at % 256;
    }
  }

  /**
   * The two king calls at the head of `GenerateMoves_Internal`, each under
   * its mode bit, with the king move map cut to the empty squares and to
   * the enemy pieces; the calls left to make are `branch`.
   */
  method KingMoves(mode: MoveGenMode, buffer: array<Move>, quietMap: Bitboard, noisyMap: Bitboard, e: Emitters,
                   ghost castles: seq<Move>, ghost plan: seq<Call>, ghost branch: seq<Call>,
                   ghost target: seq<Move>, ghost original: seq<Move>)
    returns (at: nat)
    requires plan == KingCalls(mode, quietMap, noisyMap) + branch
    requires target == Written(plan, castles, e) && |target| <= buffer.Length
    requires original == buffer[..]
    modifies buffer
    ensures at <= buffer.Length
    ensures buffer[..at] + Written(branch, castles, e) == target
    ensures buffer[at..] == original[at..]
  {
    ghost var rest := plan;
    ghost var noisyKing := if mode.noisy then [NoisyKing(noisyMap)] else [];
    at := 0;
    assert rest == (if mode.quiet then [QuietKing(quietMap)] else []) + (noisyKing + branch);
    if mode.quiet {
      at := Perform(buffer, at, QuietKing(quietMap), e, castles, rest, target, original);
      rest := rest[1..];
    }
    assert rest == noisyKing + branch;
    if mode.noisy {
      at := Perform(buffer, at, NoisyKing(noisyMap), e, castles, rest, target, original);
      rest := rest[1..];
    }
    assert rest == branch;
  }
}
