/**
 * `PinMask` of the current engine: for the defending king, the union of the
 * rays to every attacking slider that would attack the king if the
 * defender's pieces first hit from the king were lifted (an x-ray through
 * one defender). Diagonal and orthogonal pins are kept apart.
 *
 * `Board::GetKingSquare(side)` is defined nowhere, so the king square is a
 * parameter.
 */
module PinMasks {
  import opened Types
  import opened Squares
  import opened Bitboards
  import opened Positions
  import opened Rays
  import opened RayTable
  import opened AttackSets
  import opened Attacks

  /** The ray from `king` to each square, as the `Map` callback ORs it in. */
  function RaysFrom(king: BoardSquare): BoardSquare -> Bitboard {
    (s: BoardSquare) => RayTable.GetRay(king, s)
  }

  /**
   * `generalOccupancy ^ potentialPinners & defenderOccupancy`: `&` binds
   * first, so the defender pieces the first lookup hits are toggled in the
   * occupancy.
   */
  function XRayOccupancy(general: Bitboard, first: Bitboard, defenders: Bitboard): (occupancy: Bitboard)
    ensures SquareSet(occupancy) ==
      (SquareSet(general) - SquareSet(first) * SquareSet(defenders)) + (SquareSet(first) * SquareSet(defenders) - SquareSet(general))
  {
    SquaresAnd(first, defenders);
    SquaresXor(general, first & defenders);
    general ^ (first & defenders)
  }

  /** When the defenders are all on the board, the x-ray occupancy lifts exactly the defenders first hit. */
  lemma XRayLifts(general: Bitboard, first: Bitboard, defenders: Bitboard)
    requires SquareSet(defenders) <= SquareSet(general)
    ensures SquareSet(XRayOccupancy(general, first, defenders)) == SquareSet(general) - SquareSet(first) * SquareSet(defenders)
    ensures SquareSet(XRayOccupancy(general, first, defenders)) <= SquareSet(general)
  {
  }

  /** `(first ^ second) & sliders`: the sliders in exactly one of the two attack sets. */
  function Pinners(first: Bitboard, second: Bitboard, sliders: Bitboard): (pinners: Bitboard)
    ensures SquareSet(pinners) ==
      ((SquareSet(first) - SquareSet(second)) + (SquareSet(second) - SquareSet(first))) * SquareSet(sliders)
  {
    SquaresXor(first, second);
    SquaresAnd(first ^ second, sliders);
    (first ^ second) & sliders
  }

  /** The diagonal pinners: bishop attacks from the king, before and after lifting the first-hit defenders. */
  function DiagonalPinners(p: Position, defenderSide: Side, king: BoardSquare): Bitboard {
    var general := AllOccupancy(p);
    var first := BishopAttacks(king, general);
    Pinners(first, BishopAttacks(king, XRayOccupancy(general, first, p.occupancy[defenderSide])), Sliders(p, Opposite(defenderSide), BISHOP))
  }

  /** The orthogonal pinners, with rook attacks. */
  function OrthogonalPinners(p: Position, defenderSide: Side, king: BoardSquare): Bitboard {
    var general := AllOccupancy(p);
    var first := RookAttacks(king, general);
    Pinners(first, RookAttacks(king, XRayOccupancy(general, first, p.occupancy[defenderSide])), Sliders(p, Opposite(defenderSide), ROOK))
  }

  /** `m_DiagonalMask` as a value. */
  function DiagonalMask(p: Position, defenderSide: Side, king: BoardSquare): Bitboard {
    Accumulate(EMPTY, DiagonalPinners(p, defenderSide, king), RaysFrom(king))
  }

  /** `m_OrthographicMask` as a value. */
  function OrthogonalMask(p: Position, defenderSide: Side, king: BoardSquare): Bitboard {
    Accumulate(EMPTY, OrthogonalPinners(p, defenderSide, king), RaysFrom(king))
  }

  /** Lifting pieces off the board never blocks a line that was open. */
  lemma UnblockedMonotone(from: BoardSquare, to: BoardSquare, occupancy: Bitboard, fewer: Bitboard)
    requires SquareSet(fewer) <= SquareSet(occupancy)
    ensures Unblocked(from, to, occupancy) ==> Unblocked(from, to, fewer)
  {
    if Unblocked(from, to, occupancy) {
      forall t: BoardSquare | Between(from, to, t)
        ensures !GetBit(fewer, t)
      {
        assert t !in SquareSet(occupancy);
      }
    }
  }

  /**
   * A diagonal pinner is an attacking bishop or queen on a king diagonal
   * that the full occupancy blocks but the occupancy without the first-hit
   * defenders does not.
   */
  lemma DiagonalPinnerMember(p: Position, defenderSide: Side, king: BoardSquare, s: BoardSquare)
    ensures s in SquareSet(DiagonalPinners(p, defenderSide, king)) <==>
      s in SquareSet(Sliders(p, Opposite(defenderSide), BISHOP)) && !BishopStep(king, s, AllOccupancy(p)) &&
      BishopStep(king, s, XRayOccupancy(AllOccupancy(p), BishopAttacks(king, AllOccupancy(p)), p.occupancy[defenderSide]))
  {
    var general := AllOccupancy(p);
    var first := BishopAttacks(king, general);
    var lifted := XRayOccupancy(general, first, p.occupancy[defenderSide]);
    SideWithinOccupancy(p, defenderSide);
    XRayLifts(general, first, p.occupancy[defenderSide]);
    BishopMember(king, general, s);
    BishopMember(king, lifted, s);
    UnblockedMonotone(king, s, general, lifted);
  }

  /** The same with rooks and queens on king ranks and files. */
  lemma OrthogonalPinnerMember(p: Position, defenderSide: Side, king: BoardSquare, s: BoardSquare)
    ensures s in SquareSet(OrthogonalPinners(p, defenderSide, king)) <==>
      s in SquareSet(Sliders(p, Opposite(defenderSide), ROOK)) && !RookStep(king, s, AllOccupancy(p)) &&
      RookStep(king, s, XRayOccupancy(AllOccupancy(p), RookAttacks(king, AllOccupancy(p)), p.occupancy[defenderSide]))
  {
    var general := AllOccupancy(p);
    var first := RookAttacks(king, general);
    var lifted := XRayOccupancy(general, first, p.occupancy[defenderSide]);
    SideWithinOccupancy(p, defenderSide);
    XRayLifts(general, first, p.occupancy[defenderSide]);
    RookMember(king, general, s);
    RookMember(king, lifted, s);
    UnblockedMonotone(king, s, general, lifted);
  }

  /**
   * A line that is blocked, but open once the first-hit defenders are
   * lifted, is blocked only by defender pieces the first lookup reached.
   */
  lemma BlockedByDefenders(general: Bitboard, first: Bitboard, defenders: Bitboard, king: BoardSquare, s: BoardSquare)
    requires SquareSet(defenders) <= SquareSet(general)
    requires Unblocked(king, s, XRayOccupancy(general, first, defenders)) && !Unblocked(king, s, general)
    ensures exists t: BoardSquare :: Between(king, s, t) && t in SquareSet(general)
    ensures forall t: BoardSquare :: Between(king, s, t) && t in SquareSet(general) ==> t in SquareSet(defenders) && t in SquareSet(first)
  {
    XRayLifts(general, first, defenders);
    var lifted := XRayOccupancy(general, first, defenders);
    forall t: BoardSquare | Between(king, s, t) && t in SquareSet(general)
      ensures t in SquareSet(defenders) && t in SquareSet(first)
    {
      assert !GetBit(lifted, t);
      assert t !in SquareSet(lifted);
    }
  }

  /** A mask holds exactly the squares of the rays from the king to its pinners. */
  lemma PinMaskMember(pinners: Bitboard, king: BoardSquare, s: BoardSquare)
    ensures s in SquareSet(Accumulate(EMPTY, pinners, RaysFrom(king))) <==>
      exists pinner: BoardSquare :: pinner in SquareSet(pinners) && s in SquareSet(RayMask(king, pinner))
  {
    SquaresConstants(s);
    AccumulateMember(EMPTY, pinners, RaysFrom(king), s);
    forall pinner: BoardSquare
      ensures Covers(pinners, RaysFrom(king), pinner, s) <==> pinner in SquareSet(pinners) && s in SquareSet(RayMask(king, pinner))
    {
      CoversRay(pinners, king, pinner, s);
    }
  }

  lemma CoversRay(pinners: Bitboard, king: BoardSquare, pinner: BoardSquare, s: BoardSquare)
    ensures Covers(pinners, RaysFrom(king), pinner, s) <==> pinner in SquareSet(pinners) && s in SquareSet(RayMask(king, pinner))
  {
    assert RaysFrom(king)(pinner) == RayMask(king, pinner);
  }

  /** Every pinner aligned with the king is in its mask, and the king square never is. */
  lemma PinMaskBounds(pinners: Bitboard, king: BoardSquare, pinner: BoardSquare)
    requires pinner in SquareSet(pinners) && Aligned(king, pinner)
    ensures pinner in SquareSet(Accumulate(EMPTY, pinners, RaysFrom(king)))
    ensures king !in SquareSet(Accumulate(EMPTY, pinners, RaysFrom(king)))
  {
    RayMember(king, pinner, pinner);
    PinMaskMember(pinners, king, pinner);
    PinMaskMember(pinners, king, king);
    forall other: BoardSquare
      ensures king !in SquareSet(RayMask(king, other))
    {
      RayExcludesOrigin(king, other);
    }
  }

  /** Without pinners a mask is empty. */
  lemma NoPinnersNoMask(pinners: Bitboard, king: BoardSquare)
    requires SquareSet(pinners) == {}
    ensures Accumulate(EMPTY, pinners, RaysFrom(king)) == EMPTY
  {
    var mask := Accumulate(EMPTY, pinners, RaysFrom(king));
    forall s: BoardSquare
      ensures s !in SquareSet(mask)
    {
      PinMaskMember(pinners, king, s);
    }
    EmptySquares(mask);
  }

  /**
   * The diagonal mask holds every diagonal pinner and never the king; with
   * no attacking bishop or queen it is empty.
   */
  lemma DiagonalMaskMeaning(p: Position, defenderSide: Side, king: BoardSquare, pinner: BoardSquare)
    ensures pinner in SquareSet(DiagonalPinners(p, defenderSide, king)) ==> pinner in SquareSet(DiagonalMask(p, defenderSide, king))
    ensures king !in SquareSet(DiagonalMask(p, defenderSide, king))
    ensures SquareSet(p.occupancy[Opposite(defenderSide)]) * (SquareSet(p.pieces[BISHOP]) + SquareSet(p.pieces[QUEEN])) == {} ==>
      DiagonalMask(p, defenderSide, king) == EMPTY
  {
    var pinners := DiagonalPinners(p, defenderSide, king);
    DiagonalPinnerMember(p, defenderSide, king, pinner);
    if pinner in SquareSet(pinners) {
      PinMaskBounds(pinners, king, pinner);
    }
    PinMaskMember(pinners, king, king);
    RayExcludesAll(king);
    if SquareSet(p.occupancy[Opposite(defenderSide)]) * (SquareSet(p.pieces[BISHOP]) + SquareSet(p.pieces[QUEEN])) == {} {
      NoPinnersNoMask(pinners, king);
    }
  }

  /** The same for the orthogonal mask and rooks. */
  lemma OrthogonalMaskMeaning(p: Position, defenderSide: Side, king: BoardSquare, pinner: BoardSquare)
    ensures pinner in SquareSet(OrthogonalPinners(p, defenderSide, king)) ==> pinner in SquareSet(OrthogonalMask(p, defenderSide, king))
    ensures king !in SquareSet(OrthogonalMask(p, defenderSide, king))
    ensures SquareSet(p.occupancy[Opposite(defenderSide)]) * (SquareSet(p.pieces[ROOK]) + SquareSet(p.pieces[QUEEN])) == {} ==>
      OrthogonalMask(p, defenderSide, king) == EMPTY
  {
    var pinners := OrthogonalPinners(p, defenderSide, king);
    OrthogonalPinnerMember(p, defenderSide, king, pinner);
    if pinner in SquareSet(pinners) {
      PinMaskBounds(pinners, king, pinner);
    }
    PinMaskMember(pinners, king, king);
    RayExcludesAll(king);
    if SquareSet(p.occupancy[Opposite(defenderSide)]) * (SquareSet(p.pieces[ROOK]) + SquareSet(p.pieces[QUEEN])) == {} {
      NoPinnersNoMask(pinners, king);
    }
  }

  lemma RayExcludesAll(king: BoardSquare)
    ensures forall other: BoardSquare :: king !in SquareSet(RayMask(king, other))
  {
    forall other: BoardSquare
      ensures king !in SquareSet(RayMask(king, other))
    {
      RayExcludesOrigin(king, other);
    }
  }

  class PinMask {
    var orthographicMask: Bitboard
    var diagonalMask: Bitboard

    /** `PinMask(board, defenderSide)`: reads the board and assigns each mask once. */
    constructor (p: Position, defenderSide: Side, kingSquare: BoardSquare)
      ensures diagonalMask == DiagonalMask(p, defenderSide, kingSquare)
      ensures orthographicMask == OrthogonalMask(p, defenderSide, kingSquare)
    {
      var attackerSide := Opposite(defenderSide);
      var generalOccupancy := AllOccupancy(p);
      var defenderOccupancy := p.occupancy[defenderSide];
      var diags := Sliders(p, attackerSide, BISHOP);
      var orthos := Sliders(p, attackerSide, ROOK);

      var potentialPinners := BishopAttacks(kingSquare, generalOccupancy);
      potentialPinners := Pinners(potentialPinners,
        BishopAttacks(kingSquare, XRayOccupancy(generalOccupancy, potentialPinners, defenderOccupancy)), diags);
      var result := AccumulateAttacks(EMPTY, potentialPinners, RaysFrom(kingSquare));
      diagonalMask := result;

      potentialPinners := RookAttacks(kingSquare, generalOccupancy);
      potentialPinners := Pinners(potentialPinners,
        RookAttacks(kingSquare, XRayOccupancy(generalOccupancy, potentialPinners, defenderOccupancy)), orthos);
      result := AccumulateAttacks(EMPTY, potentialPinners, RaysFrom(kingSquare));
      orthographicMask := result;
    }

    function GetDiagonalMask(): Bitboard
      reads this
    {
      diagonalMask
    }

    function GetOrthographicMask(): Bitboard
      reads this
    {
      orthographicMask
    }
  }
}
