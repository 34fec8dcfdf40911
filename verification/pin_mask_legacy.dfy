/**
 * The older `PinMask(board)` snapshot: for the side to move, the candidate
 * pinners are the opposing sliders the king would see if the mover's own
 * pieces were transparent, and a candidate's ray counts only when exactly
 * one of the mover's pieces stands on it.
 *
 * `Bitboard::OnlyOneBit` is not part of this model; it is a parameter, and
 * the lemmas that need its meaning assume it holds of the bitboards with
 * exactly one square. `Rays::GetRay` reads the static table of generated
 * rays, so it is `RayMask` here.
 */
module LegacyPinMasks {
  import opened Types
  import opened Squares
  import opened Bitboards
  import opened Positions
  import opened Rays
  import opened AttackSets
  import opened Attacks

  /** `OnlyOneBit` holds of exactly the bitboards with one square. */
  ghost predicate MeansOneSquare(onlyOneBit: Bitboard -> bool) {
    forall b: Bitboard :: onlyOneBit(b) <==> |SquareSet(b)| == 1
  }

  /** The `Map` callback: the ray to a candidate, or nothing when `OnlyOneBit` fails on its defenders. */
  function GuardedRays(king: BoardSquare, defenders: Bitboard, onlyOneBit: Bitboard -> bool): BoardSquare -> Bitboard {
    (s: BoardSquare) => if onlyOneBit(RayMask(king, s) & defenders) then RayMask(king, s) else EMPTY
  }

  /** `attacks & (pieces | queens)`. */
  function Candidates(attacks: Bitboard, pieces: Bitboard, queens: Bitboard): Bitboard {
    attacks & (pieces | queens)
  }

  /** The opposing bishops and queens a bishop on the king square reaches through the mover's pieces. */
  function DiagonalCandidates(p: Position, king: BoardSquare): Bitboard {
    var nstm := Opposite(p.side);
    Candidates(BishopAttacks(king, p.occupancy[nstm]), PieceMask(p, BISHOP, nstm), PieceMask(p, QUEEN, nstm))
  }

  /** The opposing rooks and queens, likewise. */
  function OrthogonalCandidates(p: Position, king: BoardSquare): Bitboard {
    var nstm := Opposite(p.side);
    Candidates(RookAttacks(king, p.occupancy[nstm]), PieceMask(p, ROOK, nstm), PieceMask(p, QUEEN, nstm))
  }

  /** The first `result` the constructor computes: the diagonal pins. */
  function DiagonalResult(p: Position, onlyOneBit: Bitboard -> bool): Bitboard
    requires StmKingSquare(p) < 64
  {
    var king := StmKingSquare(p);
    Accumulate(EMPTY, DiagonalCandidates(p, king), GuardedRays(king, p.occupancy[p.side], onlyOneBit))
  }

  /** The second `result`: the orthogonal pins. */
  function OrthogonalResult(p: Position, onlyOneBit: Bitboard -> bool): Bitboard
    requires StmKingSquare(p) < 64
  {
    var king := StmKingSquare(p);
    Accumulate(EMPTY, OrthogonalCandidates(p, king), GuardedRays(king, p.occupancy[p.side], onlyOneBit))
  }

  /** The callback applied to one square. */
  lemma GuardedAt(king: BoardSquare, defenders: Bitboard, onlyOneBit: Bitboard -> bool, s: BoardSquare, ray: Bitboard, taken: bool)
    requires ray == RayMask(king, s) && taken == onlyOneBit(ray & defenders)
    ensures GuardedRays(king, defenders, onlyOneBit)(s) == if taken then ray else EMPTY
  {
  }

  lemma OrEmpty(x: Bitboard)
    ensures x | EMPTY == x
  {
  }

  /** The `Map` callback on one square: OR its ray into the accumulator when `OnlyOneBit` holds of the ray's defenders. */
  method AddPinRay(result: Bitboard, king: BoardSquare, square: BoardSquare, defenders: Bitboard, onlyOneBit: Bitboard -> bool)
    returns (next: Bitboard)
    ensures next == result | GuardedRays(king, defenders, onlyOneBit)(square)
  {
    var ray := RayMask(king, square);
    GuardedAt(king, defenders, onlyOneBit, square, ray, onlyOneBit(ray & defenders));
    next := result;
    if onlyOneBit(ray & defenders) {
      next := next | ray;
    } else {
      OrEmpty(result);
    }
  }

  /** One `Map` over the candidates with the callback `AddPinRay`. */
  method AccumulatePinRays(start: Bitboard, candidates: Bitboard, king: BoardSquare, defenders: Bitboard,
    onlyOneBit: Bitboard -> bool) returns (result: Bitboard)
    ensures result == Accumulate(start, candidates, GuardedRays(king, defenders, onlyOneBit))
  {
    var guarded := GuardedRays(king, defenders, onlyOneBit);
    var visited := Map(candidates);
    result := start;
    for i := 0 to |visited|
      invariant result == start | UnionOf(visited[..i], guarded)
    {
      UnionOfStep(visited, i, guarded);
      OrStep(start, UnionOf(visited[..i], guarded), guarded(visited[i]));
      result := AddPinRay(result, king, visited[i], defenders, onlyOneBit);
    }
    assert visited[..|visited|] == visited;
  }

  class PinMask {
    var orthographicMask: Bitboard
    var diagonalMask: Bitboard

    /**
     * `PinMask(board)` as written: the orthogonal result is stored in
     * `m_DiagonalMask` over the diagonal one, and `m_OrthographicMask` keeps
     * its zero initialiser.
     */
    constructor AsWritten(p: Position, onlyOneBit: Bitboard -> bool)
      requires StmKingSquare(p) < 64
      ensures diagonalMask == OrthogonalResult(p, onlyOneBit)
      ensures orthographicMask == EMPTY
    {
      orthographicMask := EMPTY;
      var kingSquare := StmKingSquare(p);
      var stm := p.side;
      var nstm := Opposite(stm);
      var defenderOccupancy := p.occupancy[stm];
      var attackerOccupancy := p.occupancy[nstm];
      var queens := PieceMask(p, QUEEN, nstm);

      var potentialPinners := Candidates(BishopAttacks(kingSquare, attackerOccupancy), PieceMask(p, BISHOP, nstm), queens);
      var result := AccumulatePinRays(EMPTY, potentialPinners, kingSquare, defenderOccupancy, onlyOneBit);
      diagonalMask := result;

      potentialPinners := Candidates(RookAttacks(kingSquare, attackerOccupancy), PieceMask(p, ROOK, nstm), queens);
      result := AccumulatePinRays(EMPTY, potentialPinners, kingSquare, defenderOccupancy, onlyOneBit);
      diagonalMask := result;
    }

    /** The constructor with the second store going to `m_OrthographicMask`. */
    constructor (p: Position, onlyOneBit: Bitboard -> bool)
      requires StmKingSquare(p) < 64
      ensures diagonalMask == DiagonalResult(p, onlyOneBit)
      ensures orthographicMask == OrthogonalResult(p, onlyOneBit)
    {
      var kingSquare := StmKingSquare(p);
      var stm := p.side;
      var nstm := Opposite(stm);
      var defenderOccupancy := p.occupancy[stm];
      var attackerOccupancy := p.occupancy[nstm];
      var queens := PieceMask(p, QUEEN, nstm);

      var potentialPinners := Candidates(BishopAttacks(kingSquare, attackerOccupancy), PieceMask(p, BISHOP, nstm), queens);
      var result := AccumulatePinRays(EMPTY, potentialPinners, kingSquare, defenderOccupancy, onlyOneBit);
      diagonalMask := result;

      potentialPinners := Candidates(RookAttacks(kingSquare, attackerOccupancy), PieceMask(p, ROOK, nstm), queens);
      result := AccumulatePinRays(EMPTY, potentialPinners, kingSquare, defenderOccupancy, onlyOneBit);
      orthographicMask := result;
    }
  }

  /*
   * What the two results hold.
   */

  lemma CandidatesMember(attacks: Bitboard, pieces: Bitboard, queens: Bitboard, c: BoardSquare)
    ensures c in SquareSet(Candidates(attacks, pieces, queens)) <==>
      c in SquareSet(attacks) && (c in SquareSet(pieces) || c in SquareSet(queens))
  {
    SquaresOr(pieces, queens);
    SquaresAnd(attacks, pieces | queens);
  }

  /**
   * A diagonal candidate is an opposing bishop or queen that a bishop on the
   * king square reaches when only the opposing pieces block.
   */
  lemma DiagonalCandidateMember(p: Position, king: BoardSquare, c: BoardSquare)
    ensures c in SquareSet(DiagonalCandidates(p, king)) <==>
      c in SquareSet(p.occupancy[Opposite(p.side)]) &&
      (c in SquareSet(p.pieces[BISHOP]) || c in SquareSet(p.pieces[QUEEN])) &&
      BishopStep(king, c, p.occupancy[Opposite(p.side)])
  {
    var nstm := Opposite(p.side);
    CandidatesMember(BishopAttacks(king, p.occupancy[nstm]), PieceMask(p, BISHOP, nstm), PieceMask(p, QUEEN, nstm), c);
    BishopMember(king, p.occupancy[nstm], c);
  }

  /** An orthogonal candidate is an opposing rook or queen seen the same way. */
  lemma OrthogonalCandidateMember(p: Position, king: BoardSquare, c: BoardSquare)
    ensures c in SquareSet(OrthogonalCandidates(p, king)) <==>
      c in SquareSet(p.occupancy[Opposite(p.side)]) &&
      (c in SquareSet(p.pieces[ROOK]) || c in SquareSet(p.pieces[QUEEN])) &&
      RookStep(king, c, p.occupancy[Opposite(p.side)])
  {
    var nstm := Opposite(p.side);
    CandidatesMember(RookAttacks(king, p.occupancy[nstm]), PieceMask(p, ROOK, nstm), PieceMask(p, QUEEN, nstm), c);
    RookMember(king, p.occupancy[nstm], c);
  }

  lemma GuardedCovers(candidates: Bitboard, king: BoardSquare, defenders: Bitboard, onlyOneBit: Bitboard -> bool,
    c: BoardSquare, s: BoardSquare)
    ensures Covers(candidates, GuardedRays(king, defenders, onlyOneBit), c, s) <==>
      c in SquareSet(candidates) && onlyOneBit(RayMask(king, c) & defenders) && s in SquareSet(RayMask(king, c))
  {
    var ray := RayMask(king, c);
    var taken := onlyOneBit(ray & defenders);
    GuardedAt(king, defenders, onlyOneBit, c, ray, taken);
    if !taken {
      SquaresConstants(s);
    }
  }

  /** The ray from the king to candidate `c` passes `s`, and `OnlyOneBit` holds of its defenders. */
  ghost predicate KeptRay(candidates: Bitboard, king: BoardSquare, defenders: Bitboard, onlyOneBit: Bitboard -> bool,
    c: BoardSquare, s: BoardSquare)
  {
    c in SquareSet(candidates) && onlyOneBit(RayMask(king, c) & defenders) && s in SquareSet(RayMask(king, c))
  }

  /** The result holds exactly the rays to the candidates on which `OnlyOneBit` holds of the defenders. */
  lemma PinRaysMember(candidates: Bitboard, king: BoardSquare, defenders: Bitboard, onlyOneBit: Bitboard -> bool, s: BoardSquare)
    ensures s in SquareSet(Accumulate(EMPTY, candidates, GuardedRays(king, defenders, onlyOneBit))) <==>
      exists c: BoardSquare :: KeptRay(candidates, king, defenders, onlyOneBit, c, s)
  {
    SquaresConstants(s);
    AccumulateMember(EMPTY, candidates, GuardedRays(king, defenders, onlyOneBit), s);
    forall c: BoardSquare
      ensures Covers(candidates, GuardedRays(king, defenders, onlyOneBit), c, s) <==> KeptRay(candidates, king, defenders, onlyOneBit, c, s)
    {
      GuardedCovers(candidates, king, defenders, onlyOneBit, c, s);
    }
  }

  /** The ray from the king to candidate `c` passes `s` and exactly one defender. */
  ghost predicate OneDefenderRay(candidates: Bitboard, king: BoardSquare, defenders: Bitboard, c: BoardSquare, s: BoardSquare) {
    c in SquareSet(candidates) && |SquareSet(RayMask(king, c)) * SquareSet(defenders)| == 1 && s in SquareSet(RayMask(king, c))
  }

  /** With `OnlyOneBit` read as "one square", a ray is kept exactly when one defender stands on it. */
  lemma OneDefenderPerRay(candidates: Bitboard, king: BoardSquare, defenders: Bitboard, onlyOneBit: Bitboard -> bool, s: BoardSquare)
    requires MeansOneSquare(onlyOneBit)
    ensures s in SquareSet(Accumulate(EMPTY, candidates, GuardedRays(king, defenders, onlyOneBit))) <==>
      exists c: BoardSquare :: OneDefenderRay(candidates, king, defenders, c, s)
  {
    PinRaysMember(candidates, king, defenders, onlyOneBit, s);
    forall c: BoardSquare
      ensures KeptRay(candidates, king, defenders, onlyOneBit, c, s) <==> OneDefenderRay(candidates, king, defenders, c, s)
    {
      OneSquareOnRay(king, c, defenders, onlyOneBit);
    }
  }

  lemma OneSquareOnRay(king: BoardSquare, c: BoardSquare, defenders: Bitboard, onlyOneBit: Bitboard -> bool)
    requires MeansOneSquare(onlyOneBit)
    ensures onlyOneBit(RayMask(king, c) & defenders) <==> |SquareSet(RayMask(king, c)) * SquareSet(defenders)| == 1
  {
    var both := RayMask(king, c) & defenders;
    assert onlyOneBit(both) <==> |SquareSet(both)| == 1;
    SquaresAnd(RayMask(king, c), defenders);
  }

  /** No candidates, no rays. */
  lemma NoCandidatesNoRays(candidates: Bitboard, king: BoardSquare, defenders: Bitboard, onlyOneBit: Bitboard -> bool)
    requires SquareSet(candidates) == {}
    ensures Accumulate(EMPTY, candidates, GuardedRays(king, defenders, onlyOneBit)) == EMPTY
  {
    var result := Accumulate(EMPTY, candidates, GuardedRays(king, defenders, onlyOneBit));
    forall s: BoardSquare
      ensures s !in SquareSet(result)
    {
      PinRaysMember(candidates, king, defenders, onlyOneBit, s);
    }
    EmptySquares(result);
  }

  /** `OnlyOneBit` as a population count of one. */
  function OnlyOneBit(b: Bitboard): bool {
    PopCount(b) == 1
  }

  lemma OnlyOneBitMeansOneSquare()
    ensures MeansOneSquare(OnlyOneBit)
  {
    forall b: Bitboard
      ensures OnlyOneBit(b) <==> |SquareSet(b)| == 1
    {
      PopCountIsCardinality(b);
    }
  }

  /** The king square is on no ray it starts. */
  lemma KingNotInPinRays(candidates: Bitboard, king: BoardSquare, defenders: Bitboard, onlyOneBit: Bitboard -> bool)
    ensures king !in SquareSet(Accumulate(EMPTY, candidates, GuardedRays(king, defenders, onlyOneBit)))
  {
    PinRaysMember(candidates, king, defenders, onlyOneBit, king);
    forall c: BoardSquare
      ensures !KeptRay(candidates, king, defenders, onlyOneBit, c, king)
    {
      RayExcludesOrigin(king, c);
    }
  }

  /**
   * When the ray to a candidate passes exactly one defender, the result
   * holds that defender and the candidate itself.
   */
  lemma PinnedDefenderInMask(candidates: Bitboard, king: BoardSquare, defenders: Bitboard, onlyOneBit: Bitboard -> bool,
    c: BoardSquare, pinned: BoardSquare)
    requires MeansOneSquare(onlyOneBit)
    requires c in SquareSet(candidates)
    requires SquareSet(RayMask(king, c)) * SquareSet(defenders) == {pinned}
    ensures pinned in SquareSet(Accumulate(EMPTY, candidates, GuardedRays(king, defenders, onlyOneBit)))
    ensures c in SquareSet(Accumulate(EMPTY, candidates, GuardedRays(king, defenders, onlyOneBit)))
  {
    assert pinned in SquareSet(RayMask(king, c));
    RayMember(king, c, pinned);
    RayMember(king, c, c);
    assert OneDefenderRay(candidates, king, defenders, c, pinned);
    assert OneDefenderRay(candidates, king, defenders, c, c);
    OneDefenderPerRay(candidates, king, defenders, onlyOneBit, pinned);
    OneDefenderPerRay(candidates, king, defenders, onlyOneBit, c);
  }

  /*
   * The lost diagonal pin: the white king on e1, a white pawn on d2 and a
   * black bishop on c3 (black king on h8).
   */

  const D2: BoardSquare := 11
  const C3: BoardSquare := 18

  const LOST_PIN: Position := BoardState(
    [FromSquare(E1) | FromSquare(D2), FromSquare(C3) | FromSquare(H8)],
    [FromSquare(D2), EMPTY, FromSquare(C3), EMPTY, EMPTY, FromSquare(E1) | FromSquare(H8)],
    0, WHITE, 0, NULL_SQUARE, 0, 0, false, STANDARD_ROOKS)

  lemma LostPinSquares()
    ensures SquareSet(LOST_PIN.occupancy[WHITE]) == {E1, D2}
    ensures SquareSet(LOST_PIN.occupancy[BLACK]) == {C3, H8}
    ensures StmKingSquare(LOST_PIN) == E1
  {
    var p := LOST_PIN;
    SquaresConstants(E1);
    SquaresConstants(D2);
    SquaresConstants(C3);
    SquaresConstants(H8);
    SquaresOr(FromSquare(E1), FromSquare(D2));
    SquaresOr(FromSquare(C3), FromSquare(H8));
    SquaresOr(FromSquare(E1), FromSquare(H8));
    assert SquareSet(p.occupancy[p.side]) * SquareSet(p.pieces[KING]) == {E1};
  }

  /** A bishop on e1 reaches c3 when only c3 and h8 are occupied. */
  lemma LostPinBishopStep()
    ensures BishopStep(E1, C3, FromSquare(C3) | FromSquare(H8))
  {
    var occupancy := FromSquare(C3) | FromSquare(H8);
    SquaresConstants(C3);
    SquaresConstants(H8);
    SquaresOr(FromSquare(C3), FromSquare(H8));
    assert RankDelta(E1, C3) == 2 && FileDelta(E1, C3) == -2;
    assert !Aligned(E1, H8) && !Aligned(C3, C3);
    forall t: BoardSquare | Between(E1, C3, t)
      ensures !GetBit(occupancy, t)
    {
      assert t !in SquareSet(occupancy);
    }
  }

  /** The bishop on c3 is a diagonal candidate. */
  lemma LostPinCandidate()
    ensures C3 in SquareSet(DiagonalCandidates(LOST_PIN, E1))
  {
    LostPinSquares();
    LostPinBishopStep();
    SquaresConstants(C3);
    DiagonalCandidateMember(LOST_PIN, E1, C3);
  }

  /** The ray from e1 to c3 passes d2 and not e1. */
  lemma LostPinRay()
    ensures SquareSet(RayMask(E1, C3)) * {E1, D2} == {D2}
  {
    assert GetRank(E1) == 0 && GetFile(E1) == 4;
    assert GetRank(D2) == 1 && GetFile(D2) == 3;
    assert GetRank(C3) == 2 && GetFile(C3) == 2;
    assert Between(E1, C3, D2);
    RayMember(E1, C3, D2);
    RayExcludesOrigin(E1, C3);
    assert D2 in SquareSet(RayMask(E1, C3));
  }

  /** The bishop's ray passes the one defender d2, which the diagonal result therefore holds. */
  lemma LostPinDiagonal()
    ensures D2 in SquareSet(DiagonalResult(LOST_PIN, OnlyOneBit))
  {
    LostPinSquares();
    LostPinCandidate();
    LostPinRay();
    OnlyOneBitMeansOneSquare();
    PinnedDefenderInMask(DiagonalCandidates(LOST_PIN, E1), E1, LOST_PIN.occupancy[WHITE], OnlyOneBit, C3, D2);
  }

  /** No rook or queen: no orthogonal candidates, so no orthogonal rays. */
  lemma LostPinOrthogonal()
    ensures OrthogonalResult(LOST_PIN, OnlyOneBit) == EMPTY
  {
    var p := LOST_PIN;
    LostPinSquares();
    SquaresConstants(E1);
    forall c: BoardSquare
      ensures c !in SquareSet(OrthogonalCandidates(p, E1))
    {
      OrthogonalCandidateMember(p, E1, c);
    }
    NoCandidatesNoRays(OrthogonalCandidates(p, E1), E1, p.occupancy[WHITE], OnlyOneBit);
  }

  /**
   * The pawn on d2 is pinned along the diagonal, so the diagonal result holds
   * it; the orthogonal result is empty. The as-written constructor stores that
   * empty orthogonal result in `diagonalMask` and leaves `orthographicMask`
   * empty, so neither mask records the pin.
   */
  lemma DiagonalPinLost()
    ensures StmKingSquare(LOST_PIN) == E1
    ensures D2 in SquareSet(DiagonalResult(LOST_PIN, OnlyOneBit))
    ensures OrthogonalResult(LOST_PIN, OnlyOneBit) == EMPTY
  {
    LostPinSquares();
    LostPinDiagonal();
    LostPinOrthogonal();
  }
}
