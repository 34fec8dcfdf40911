/**
 * `Attacks` over a position: the attackers of a square, the square-attacked
 * and in-check tests, the checkers mask and the attack map.
 *
 * `Board::GetKingSquare(side)` is called here but defined nowhere, so the
 * king square is a parameter of the members that use it.
 */
module Attacks {
  import opened Types
  import opened Squares
  import opened Bitboards
  import opened Positions
  import opened AttackSets

  /**
   * The piece on `from` belongs to the attacker (the side that is not
   * `defenderSide`) and, by its type, attacks `square`; sliders see through
   * nothing in `occupancy` except the first blocker. A queen counts as both
   * a rook and a bishop.
   */
  ghost predicate AttacksFrom(p: Position, from: BoardSquare, square: BoardSquare, defenderSide: Side, occupancy: Bitboard) {
    from in SquareSet(p.occupancy[Opposite(defenderSide)]) &&
    ((from in SquareSet(p.pieces[KNIGHT]) && KnightStep(from, square)) ||
     (from in SquareSet(p.pieces[KING]) && KingStep(from, square)) ||
     (from in SquareSet(p.pieces[PAWN]) && PawnStep(from, square, Opposite(defenderSide))) ||
     ((from in SquareSet(p.pieces[ROOK]) || from in SquareSet(p.pieces[QUEEN])) && RookStep(from, square, occupancy)) ||
     ((from in SquareSet(p.pieces[BISHOP]) || from in SquareSet(p.pieces[QUEEN])) && BishopStep(from, square, occupancy)))
  }

  lemma KnightTerm(term: Bitboard, attacks: Bitboard, knights: Bitboard, square: BoardSquare, from: BoardSquare)
    requires attacks == KnightAttacks(square) && term == attacks & knights
    ensures from in SquareSet(term) <==> from in SquareSet(knights) && KnightStep(from, square)
  {
    AndOf(term, attacks, knights, from);
    KnightMember(square, from);
    DeltasNegate(square, from);
  }

  lemma KingTerm(term: Bitboard, attacks: Bitboard, kings: Bitboard, square: BoardSquare, from: BoardSquare)
    requires attacks == KingAttacks(square) && term == attacks & kings
    ensures from in SquareSet(term) <==> from in SquareSet(kings) && KingStep(from, square)
  {
    AndOf(term, attacks, kings, from);
    KingMember(square, from);
    DeltasNegate(square, from);
  }

  lemma PawnTerm(term: Bitboard, attacks: Bitboard, pawns: Bitboard, square: BoardSquare, defenderSide: Side, from: BoardSquare)
    requires attacks == PawnAttacks(square, defenderSide) && term == attacks & pawns
    ensures from in SquareSet(term) <==> from in SquareSet(pawns) && PawnStep(from, square, Opposite(defenderSide))
  {
    AndOf(term, attacks, pawns, from);
    PawnMember(square, defenderSide, from);
    DeltasNegate(square, from);
  }

  lemma RookTerm(term: Bitboard, attacks: Bitboard, rooks: Bitboard, queens: Bitboard, square: BoardSquare, occupancy: Bitboard, from: BoardSquare)
    requires attacks == RookAttacks(square, occupancy) && term == attacks & (rooks | queens)
    ensures from in SquareSet(term) <==>
      (from in SquareSet(rooks) || from in SquareSet(queens)) && RookStep(from, square, occupancy)
  {
    var sliders := rooks | queens;
    AndOf(term, attacks, sliders, from);
    OrOf(sliders, rooks, queens, from);
    RookMember(square, occupancy, from);
    AlignedSymmetric(square, from);
    UnblockedSymmetric(square, from, occupancy);
  }

  lemma BishopTerm(term: Bitboard, attacks: Bitboard, bishops: Bitboard, queens: Bitboard, square: BoardSquare, occupancy: Bitboard, from: BoardSquare)
    requires attacks == BishopAttacks(square, occupancy) && term == attacks & (bishops | queens)
    ensures from in SquareSet(term) <==>
      (from in SquareSet(bishops) || from in SquareSet(queens)) && BishopStep(from, square, occupancy)
  {
    var sliders := bishops | queens;
    AndOf(term, attacks, sliders, from);
    OrOf(sliders, bishops, queens, from);
    BishopMember(square, occupancy, from);
    AlignedSymmetric(square, from);
    UnblockedSymmetric(square, from, occupancy);
  }

  /** Membership in `(t1 | t2 | t3 | t4 | t5) & mask`. */
  lemma FiveTerms(result: Bitboard, t1: Bitboard, t2: Bitboard, t3: Bitboard, t4: Bitboard, t5: Bitboard, mask: Bitboard, s: BoardSquare)
    requires result == (t1 | t2 | t3 | t4 | t5) & mask
    ensures s in SquareSet(result) <==>
      (s in SquareSet(t1) || s in SquareSet(t2) || s in SquareSet(t3) || s in SquareSet(t4) || s in SquareSet(t5)) && s in SquareSet(mask)
  {
    var v1 := t1 | t2;
    var v2 := v1 | t3;
    var v3 := v2 | t4;
    var v4 := v3 | t5;
    OrOf(v1, t1, t2, s);
    OrOf(v2, v1, t3, s);
    OrOf(v3, v2, t4, s);
    OrOf(v4, v3, t5, s);
    AndOf(result, v4, mask, s);
  }

  /** Each of the five literals of `AttacksFrom`, as a lemma over plain booleans. */
  lemma Combine(a: bool, t1: bool, t2: bool, t3: bool, t4: bool, t5: bool, m: bool,
    n: bool, ks: bool, k: bool, kis: bool, pw: bool, ps: bool, r: bool, q: bool, rs: bool, b: bool, bs: bool)
    requires a == ((t1 || t2 || t3 || t4 || t5) && m)
    requires t1 == (n && ks) && t2 == (k && kis) && t3 == (pw && ps) && t4 == ((r || q) && rs) && t5 == ((b || q) && bs)
    ensures a == (m && ((n && ks) || (k && kis) || (pw && ps) || ((r || q) && rs) || ((b || q) && bs)))
  {
  }

  /** The attackers mask at one square, in terms of the five per-piece literals. */
  lemma MaskLiterals(attackers: Bitboard, t1: Bitboard, t2: Bitboard, t3: Bitboard, t4: Bitboard, t5: Bitboard, mask: Bitboard,
    knights: Bitboard, kings: Bitboard, pawns: Bitboard, rooks: Bitboard, queens: Bitboard, bishops: Bitboard, from: BoardSquare,
    ks: bool, kis: bool, ps: bool, rs: bool, bs: bool)
    requires attackers == (t1 | t2 | t3 | t4 | t5) & mask
    requires (from in SquareSet(t1)) == (from in SquareSet(knights) && ks)
    requires (from in SquareSet(t2)) == (from in SquareSet(kings) && kis)
    requires (from in SquareSet(t3)) == (from in SquareSet(pawns) && ps)
    requires (from in SquareSet(t4)) == ((from in SquareSet(rooks) || from in SquareSet(queens)) && rs)
    requires (from in SquareSet(t5)) == ((from in SquareSet(bishops) || from in SquareSet(queens)) && bs)
    ensures (from in SquareSet(attackers)) == (from in SquareSet(mask) &&
      ((from in SquareSet(knights) && ks) || (from in SquareSet(kings) && kis) || (from in SquareSet(pawns) && ps) ||
       ((from in SquareSet(rooks) || from in SquareSet(queens)) && rs) ||
       ((from in SquareSet(bishops) || from in SquareSet(queens)) && bs)))
  {
    FiveTerms(attackers, t1, t2, t3, t4, t5, mask, from);
    Combine(from in SquareSet(attackers), from in SquareSet(t1), from in SquareSet(t2), from in SquareSet(t3),
      from in SquareSet(t4), from in SquareSet(t5), from in SquareSet(mask),
      from in SquareSet(knights), ks, from in SquareSet(kings), kis, from in SquareSet(pawns), ps,
      from in SquareSet(rooks), from in SquareSet(queens), rs, from in SquareSet(bishops), bs);
  }

  /** One square of the attackers mask, with every intermediate bitboard named: the literals of `AttacksFrom`. */
  lemma AttackerBits(square: BoardSquare, defenderSide: Side, occupancy: Bitboard,
    knights: Bitboard, kings: Bitboard, pawns: Bitboard, rooks: Bitboard, queens: Bitboard, bishops: Bitboard,
    knightAttacks: Bitboard, kingAttacks: Bitboard, pawnAttacks: Bitboard, rookAttacks: Bitboard, bishopAttacks: Bitboard,
    t1: Bitboard, t2: Bitboard, t3: Bitboard, t4: Bitboard, t5: Bitboard, mask: Bitboard, attackers: Bitboard, from: BoardSquare)
    requires knightAttacks == KnightAttacks(square) && kingAttacks == KingAttacks(square)
    requires pawnAttacks == PawnAttacks(square, defenderSide)
    requires rookAttacks == RookAttacks(square, occupancy) && bishopAttacks == BishopAttacks(square, occupancy)
    requires t1 == knightAttacks & knights && t2 == kingAttacks & kings && t3 == pawnAttacks & pawns
    requires t4 == rookAttacks & (rooks | queens) && t5 == bishopAttacks & (bishops | queens)
    requires attackers == (t1 | t2 | t3 | t4 | t5) & mask
    ensures (from in SquareSet(attackers)) == (from in SquareSet(mask) &&
      ((from in SquareSet(knights) && KnightStep(from, square)) ||
       (from in SquareSet(kings) && KingStep(from, square)) ||
       (from in SquareSet(pawns) && PawnStep(from, square, Opposite(defenderSide))) ||
       ((from in SquareSet(rooks) || from in SquareSet(queens)) && RookStep(from, square, occupancy)) ||
       ((from in SquareSet(bishops) || from in SquareSet(queens)) && BishopStep(from, square, occupancy))))
  {
    KnightTerm(t1, knightAttacks, knights, square, from);
    KingTerm(t2, kingAttacks, kings, square, from);
    PawnTerm(t3, pawnAttacks, pawns, square, defenderSide, from);
    RookTerm(t4, rookAttacks, rooks, queens, square, occupancy, from);
    BishopTerm(t5, bishopAttacks, bishops, queens, square, occupancy, from);
    MaskLiterals(attackers, t1, t2, t3, t4, t5, mask, knights, kings, pawns, rooks, queens, bishops, from,
      KnightStep(from, square), KingStep(from, square), PawnStep(from, square, Opposite(defenderSide)),
      RookStep(from, square, occupancy), BishopStep(from, square, occupancy));
  }

  /**
   * `AllAttackersToSquare`: the reverse lookups from `square` (a pawn of the
   * defender's colour on `square` captures exactly where an attacking pawn
   * stands), filtered by piece type and then by the attacker's occupancy. A
   * square is in the result exactly when the piece on it attacks `square`.
   */
  function AllAttackersToSquare(p: Position, square: BoardSquare, defenderSide: Side, occupancy: Bitboard): (attackers: Bitboard)
    ensures forall from: BoardSquare :: from in SquareSet(attackers) <==> AttacksFrom(p, from, square, defenderSide, occupancy)
  {
    var knights, kings, pawns := p.pieces[KNIGHT], p.pieces[KING], p.pieces[PAWN];
    var rooks, queens, bishops := p.pieces[ROOK], p.pieces[QUEEN], p.pieces[BISHOP];
    var knightAttacks, kingAttacks := KnightAttacks(square), KingAttacks(square);
    var pawnAttacks := PawnAttacks(square, defenderSide);
    var rookAttacks, bishopAttacks := RookAttacks(square, occupancy), BishopAttacks(square, occupancy);
    var t1, t2, t3 := knightAttacks & knights, kingAttacks & kings, pawnAttacks & pawns;
    var t4, t5 := rookAttacks & (rooks | queens), bishopAttacks & (bishops | queens);
    var mask := p.occupancy[Opposite(defenderSide)];
    var attackers := (t1 | t2 | t3 | t4 | t5) & mask;
    assert forall from: BoardSquare :: from in SquareSet(attackers) <==> AttacksFrom(p, from, square, defenderSide, occupancy) by {
      forall from: BoardSquare
        ensures from in SquareSet(attackers) <==> AttacksFrom(p, from, square, defenderSide, occupancy)
      {
        AttackerBits(square, defenderSide, occupancy, knights, kings, pawns, rooks, queens, bishops,
          knightAttacks, kingAttacks, pawnAttacks, rookAttacks, bishopAttacks, t1, t2, t3, t4, t5, mask, attackers, from);
      }
    }
    attackers
  }

  /** Attackers only ever belong to the side that is not defending. */
  lemma AttackersAreOpponents(p: Position, square: BoardSquare, defenderSide: Side, occupancy: Bitboard)
    ensures SquareSet(AllAttackersToSquare(p, square, defenderSide, occupancy)) <= SquareSet(p.occupancy[Opposite(defenderSide)])
  {
  }

  /** A bitboard is non-empty exactly when some square is in it. */
  lemma NonEmptyHasSquare(b: Bitboard)
    ensures b != EMPTY <==> exists s: BoardSquare :: s in SquareSet(b)
  {
    EmptySquares(b);
  }

  /** Some piece attacks `square` under `occupancy`. */
  ghost predicate Attacked(p: Position, square: BoardSquare, defenderSide: Side, occupancy: Bitboard) {
    exists from: BoardSquare :: AttacksFrom(p, from, square, defenderSide, occupancy)
  }

  /** The attackers mask is non-empty exactly when the square is attacked. */
  lemma AttackersNonEmpty(p: Position, square: BoardSquare, defenderSide: Side, occupancy: Bitboard)
    ensures AllAttackersToSquare(p, square, defenderSide, occupancy) != EMPTY <==> Attacked(p, square, defenderSide, occupancy)
  {
    var attackers := AllAttackersToSquare(p, square, defenderSide, occupancy);
    NonEmptyHasSquare(attackers);
  }

  /** `IsSquareAttackedWithOccupancy`: the attackers mask converted to `bool`. */
  function IsSquareAttackedWithOccupancy(p: Position, square: BoardSquare, defenderSide: Side, occupancy: Bitboard): bool {
    AllAttackersToSquare(p, square, defenderSide, occupancy) != EMPTY
  }

  /** `IsSquareAttacked`: attacked under the occupancy of both sides. */
  function IsSquareAttacked(p: Position, square: BoardSquare, defenderSide: Side): bool {
    IsSquareAttackedWithOccupancy(p, square, defenderSide, AllOccupancy(p))
  }

  lemma SquareAttackedMeaning(p: Position, square: BoardSquare, defenderSide: Side)
    ensures IsSquareAttacked(p, square, defenderSide) <==> Attacked(p, square, defenderSide, AllOccupancy(p))
  {
    AttackersNonEmpty(p, square, defenderSide, AllOccupancy(p));
  }

  /** `IsInCheck`, given the square `GetKingSquare(GetSideToMove())` names. */
  function IsInCheck(p: Position, kingSquare: BoardSquare): bool {
    IsSquareAttacked(p, kingSquare, p.side)
  }

  /** `GenerateCheckersMask`, given the same king square. */
  function GenerateCheckersMask(p: Position, kingSquare: BoardSquare): Bitboard {
    AllAttackersToSquare(p, kingSquare, p.side, AllOccupancy(p))
  }

  /**
   * The checkers are exactly the opposing pieces that attack the mover's
   * king square, and the mover is in check exactly when there is one.
   */
  lemma CheckersMeaning(p: Position, kingSquare: BoardSquare, from: BoardSquare)
    ensures from in SquareSet(GenerateCheckersMask(p, kingSquare)) <==> AttacksFrom(p, from, kingSquare, p.side, AllOccupancy(p))
    ensures IsInCheck(p, kingSquare) <==> GenerateCheckersMask(p, kingSquare) != EMPTY
    ensures IsInCheck(p, kingSquare) <==> Attacked(p, kingSquare, p.side, AllOccupancy(p))
  {
    SquareAttackedMeaning(p, kingSquare, p.side);
  }

  /*
   * The attack map.
   */

  /** The union of `attacks(s)` over `squares`, accumulated left to right. */
  function UnionOf(squares: seq<BoardSquare>, attacks: BoardSquare -> Bitboard): Bitboard {
    if squares == [] then EMPTY
    else UnionOf(squares[..|squares| - 1], attacks) | attacks(squares[|squares| - 1])
  }

  lemma {:induction false} UnionOfMember(squares: seq<BoardSquare>, attacks: BoardSquare -> Bitboard, s: BoardSquare)
    ensures s in SquareSet(UnionOf(squares, attacks)) <==> exists from :: from in squares && s in SquareSet(attacks(from))
  {
    if squares == [] {
      SquaresConstants(s);
    } else {
      var front, last := squares[..|squares| - 1], squares[|squares| - 1];
      UnionOfMember(front, attacks, s);
      OrOf(UnionOf(squares, attacks), UnionOf(front, attacks), attacks(last), s);
      assert squares == front + [last];
      if s in SquareSet(attacks(last)) {
        assert last in squares;
      }
    }
  }

  /** One more square extends the union by that square's attacks. */
  lemma UnionOfStep(squares: seq<BoardSquare>, i: nat, attacks: BoardSquare -> Bitboard)
    requires i < |squares|
    ensures UnionOf(squares[..i + 1], attacks) == UnionOf(squares[..i], attacks) | attacks(squares[i])
  {
    assert squares[..i + 1][..i] == squares[..i];
  }

  /** `(start | u) | a == start | (u | a)`, the step of one `result |= ...` call. */
  lemma OrStep(start: Bitboard, union: Bitboard, next: Bitboard)
    ensures (start | union) | next == start | (union | next)
  {
  }

  /**
   * One `Map` over `pieces` whose callback ORs `attacks(square)` into the
   * accumulator.
   */
  method AccumulateAttacks(start: Bitboard, pieces: Bitboard, attacks: BoardSquare -> Bitboard) returns (result: Bitboard)
    ensures result == Accumulate(start, pieces, attacks)
  {
    var visited := Map(pieces);
    result := start;
    for i := 0 to |visited|
      invariant result == start | UnionOf(visited[..i], attacks)
    {
      UnionOfStep(visited, i, attacks);
      OrStep(start, UnionOf(visited[..i], attacks), attacks(visited[i]));
      result := result | attacks(visited[i]);
    }
    assert visited[..|visited|] == visited;
  }

  /** The occupancy the attack map's sliders see: both sides with the defending king toggled off. */
  function AttackMapOccupancy(p: Position, kingSquare: BoardSquare): Bitboard {
    AllOccupancy(p) ^ FromSquare(kingSquare)
  }

  /** The attack set of a rook on each square, under one occupancy. */
  function RookSet(occupancy: Bitboard): BoardSquare -> Bitboard {
    (s: BoardSquare) => RookAttacks(s, occupancy)
  }

  function BishopSet(occupancy: Bitboard): BoardSquare -> Bitboard {
    (s: BoardSquare) => BishopAttacks(s, occupancy)
  }

  function PawnSet(side: Side): BoardSquare -> Bitboard {
    (s: BoardSquare) => PawnAttacks(s, side)
  }

  /** The pieces of `side` of one type. */
  function Movers(p: Position, side: Side, piece: Piece): (movers: Bitboard)
    ensures SquareSet(movers) == SquareSet(p.occupancy[side]) * SquareSet(p.pieces[piece])
  {
    SquaresAnd(p.occupancy[side], p.pieces[piece]);
    p.occupancy[side] & p.pieces[piece]
  }

  /** The rooks or bishops of `side` together with its queens. */
  function Sliders(p: Position, side: Side, piece: Piece): (sliders: Bitboard)
    ensures SquareSet(sliders) == SquareSet(p.occupancy[side]) * (SquareSet(p.pieces[piece]) + SquareSet(p.pieces[QUEEN]))
  {
    SquaresAndOr(p.occupancy[side], p.pieces[piece], p.pieces[QUEEN]);
    p.occupancy[side] & (p.pieces[piece] | p.pieces[QUEEN])
  }

  /** `start` with the attacks of every square of `pieces` OR-ed in. */
  function Accumulate(start: Bitboard, pieces: Bitboard, attacks: BoardSquare -> Bitboard): Bitboard {
    start | UnionOf(SquareList(pieces), attacks)
  }

  /** The attack map as a value: the five accumulations in the order `GenerateAttackMap` makes them. */
  function AttackMap(p: Position, defenderSide: Side, kingSquare: BoardSquare): Bitboard {
    var occupancy := AttackMapOccupancy(p, kingSquare);
    var attackerSide := Opposite(defenderSide);
    var r1 := Accumulate(EMPTY, Sliders(p, attackerSide, ROOK), RookSet(occupancy));
    var r2 := Accumulate(r1, Sliders(p, attackerSide, BISHOP), BishopSet(occupancy));
    var r3 := Accumulate(r2, Movers(p, attackerSide, KING), KingAttacks);
    var r4 := Accumulate(r3, Movers(p, attackerSide, KNIGHT), KnightAttacks);
    Accumulate(r4, Movers(p, attackerSide, PAWN), PawnSet(attackerSide))
  }

  /** `GenerateAttackMap`: five `Map` loops OR-ing each attacking piece's attack set into `result`. */
  method GenerateAttackMap(p: Position, defenderSide: Side, kingSquare: BoardSquare) returns (result: Bitboard)
    ensures result == AttackMap(p, defenderSide, kingSquare)
  {
    result := EMPTY;
    var occupancy := AttackMapOccupancy(p, kingSquare);
    var attackerSide := Opposite(defenderSide);
    result := AccumulateAttacks(result, Sliders(p, attackerSide, ROOK), RookSet(occupancy));
    result := AccumulateAttacks(result, Sliders(p, attackerSide, BISHOP), BishopSet(occupancy));
    result := AccumulateAttacks(result, Movers(p, attackerSide, KING), KingAttacks);
    result := AccumulateAttacks(result, Movers(p, attackerSide, KNIGHT), KnightAttacks);
    result := AccumulateAttacks(result, Movers(p, attackerSide, PAWN), PawnSet(attackerSide));
  }

  /** `from` is one of `pieces` and attacks `s`. */
  ghost predicate Covers(pieces: Bitboard, attacks: BoardSquare -> Bitboard, from: BoardSquare, s: BoardSquare) {
    from in SquareSet(pieces) && s in SquareSet(attacks(from))
  }

  /** A square is covered by one union exactly when a piece of the mask attacks it. */
  lemma UnionOverPieces(pieces: Bitboard, attacks: BoardSquare -> Bitboard, s: BoardSquare)
    ensures s in SquareSet(UnionOf(SquareList(pieces), attacks)) <==> exists from: BoardSquare :: Covers(pieces, attacks, from, s)
  {
    UnionOfMember(SquareList(pieces), attacks, s);
    if s in SquareSet(UnionOf(SquareList(pieces), attacks)) {
      var from :| from in SquareList(pieces) && s in SquareSet(attacks(from));
      SquaresMember(pieces, from);
      assert Covers(pieces, attacks, from, s);
    }
    if exists from: BoardSquare :: Covers(pieces, attacks, from, s) {
      var from: BoardSquare :| Covers(pieces, attacks, from, s);
      SquaresMember(pieces, from);
      assert from in SquareList(pieces);
    }
  }

  /** A square is in an accumulation when it was in `start` or a piece of the mask attacks it. */
  lemma AccumulateMember(start: Bitboard, pieces: Bitboard, attacks: BoardSquare -> Bitboard, s: BoardSquare)
    ensures s in SquareSet(Accumulate(start, pieces, attacks)) <==>
      s in SquareSet(start) || exists from: BoardSquare :: Covers(pieces, attacks, from, s)
  {
    var union := UnionOf(SquareList(pieces), attacks);
    OrOf(start | union, start, union, s);
    UnionOverPieces(pieces, attacks, s);
  }

  /** A rook or queen covers `s` from `from` exactly when it stands there and its line reaches `s`. */
  lemma RookCovers(movers: Bitboard, attackers: Bitboard, rooks: Bitboard, queens: Bitboard, occupancy: Bitboard,
    from: BoardSquare, s: BoardSquare)
    requires SquareSet(movers) == SquareSet(attackers) * (SquareSet(rooks) + SquareSet(queens))
    ensures Covers(movers, RookSet(occupancy), from, s) <==>
      from in SquareSet(attackers) && (from in SquareSet(rooks) || from in SquareSet(queens)) && RookStep(from, s, occupancy)
  {
    RookMember(from, occupancy, s);
  }

  lemma BishopCovers(movers: Bitboard, attackers: Bitboard, bishops: Bitboard, queens: Bitboard, occupancy: Bitboard,
    from: BoardSquare, s: BoardSquare)
    requires SquareSet(movers) == SquareSet(attackers) * (SquareSet(bishops) + SquareSet(queens))
    ensures Covers(movers, BishopSet(occupancy), from, s) <==>
      from in SquareSet(attackers) && (from in SquareSet(bishops) || from in SquareSet(queens)) && BishopStep(from, s, occupancy)
  {
    BishopMember(from, occupancy, s);
  }

  lemma KingCovers(movers: Bitboard, attackers: Bitboard, kings: Bitboard, from: BoardSquare, s: BoardSquare)
    requires SquareSet(movers) == SquareSet(attackers) * SquareSet(kings)
    ensures Covers(movers, KingAttacks, from, s) <==> from in SquareSet(attackers) && from in SquareSet(kings) && KingStep(from, s)
  {
    KingMember(from, s);
  }

  lemma KnightCovers(movers: Bitboard, attackers: Bitboard, knights: Bitboard, from: BoardSquare, s: BoardSquare)
    requires SquareSet(movers) == SquareSet(attackers) * SquareSet(knights)
    ensures Covers(movers, KnightAttacks, from, s) <==> from in SquareSet(attackers) && from in SquareSet(knights) && KnightStep(from, s)
  {
    KnightMember(from, s);
  }

  lemma PawnCovers(movers: Bitboard, attackers: Bitboard, pawns: Bitboard, side: Side, from: BoardSquare, s: BoardSquare)
    requires SquareSet(movers) == SquareSet(attackers) * SquareSet(pawns)
    ensures Covers(movers, PawnSet(side), from, s) <==> from in SquareSet(attackers) && from in SquareSet(pawns) && PawnStep(from, s, side)
  {
    PawnMember(from, side, s);
  }

  /** The five covers, as literals, say the same as `AttacksFrom`. */
  lemma CoverLiterals(c1: bool, c2: bool, c3: bool, c4: bool, c5: bool,
    a: bool, r: bool, b: bool, q: bool, k: bool, n: bool, pw: bool,
    rs: bool, bs: bool, ks: bool, ns: bool, ps: bool)
    requires c1 == (a && (r || q) && rs) && c2 == (a && (b || q) && bs)
    requires c3 == (a && k && ks) && c4 == (a && n && ns) && c5 == (a && pw && ps)
    ensures (c1 || c2 || c3 || c4 || c5) == (a && ((n && ns) || (k && ks) || (pw && ps) || ((r || q) && rs) || ((b || q) && bs)))
  {
  }

  /** The five covers over named masks, as the literals of `AttacksFrom`. */
  lemma MaskCovers(m1: Bitboard, m2: Bitboard, m3: Bitboard, m4: Bitboard, m5: Bitboard,
    attackers: Bitboard, rooks: Bitboard, bishops: Bitboard, queens: Bitboard, kings: Bitboard, knights: Bitboard, pawns: Bitboard,
    occupancy: Bitboard, side: Side, from: BoardSquare, s: BoardSquare)
    requires SquareSet(m1) == SquareSet(attackers) * (SquareSet(rooks) + SquareSet(queens))
    requires SquareSet(m2) == SquareSet(attackers) * (SquareSet(bishops) + SquareSet(queens))
    requires SquareSet(m3) == SquareSet(attackers) * SquareSet(kings)
    requires SquareSet(m4) == SquareSet(attackers) * SquareSet(knights)
    requires SquareSet(m5) == SquareSet(attackers) * SquareSet(pawns)
    ensures (Covers(m1, RookSet(occupancy), from, s) || Covers(m2, BishopSet(occupancy), from, s) ||
             Covers(m3, KingAttacks, from, s) || Covers(m4, KnightAttacks, from, s) || Covers(m5, PawnSet(side), from, s)) ==
      (from in SquareSet(attackers) &&
       ((from in SquareSet(knights) && KnightStep(from, s)) ||
        (from in SquareSet(kings) && KingStep(from, s)) ||
        (from in SquareSet(pawns) && PawnStep(from, s, side)) ||
        ((from in SquareSet(rooks) || from in SquareSet(queens)) && RookStep(from, s, occupancy)) ||
        ((from in SquareSet(bishops) || from in SquareSet(queens)) && BishopStep(from, s, occupancy))))
  {
    RookCovers(m1, attackers, rooks, queens, occupancy, from, s);
    BishopCovers(m2, attackers, bishops, queens, occupancy, from, s);
    KingCovers(m3, attackers, kings, from, s);
    KnightCovers(m4, attackers, knights, from, s);
    PawnCovers(m5, attackers, pawns, side, from, s);
    CoverLiterals(
      Covers(m1, RookSet(occupancy), from, s), Covers(m2, BishopSet(occupancy), from, s),
      Covers(m3, KingAttacks, from, s), Covers(m4, KnightAttacks, from, s), Covers(m5, PawnSet(side), from, s),
      from in SquareSet(attackers), from in SquareSet(rooks), from in SquareSet(bishops), from in SquareSet(queens),
      from in SquareSet(kings), from in SquareSet(knights), from in SquareSet(pawns),
      RookStep(from, s, occupancy), BishopStep(from, s, occupancy), KingStep(from, s), KnightStep(from, s),
      PawnStep(from, s, side));
  }

  /** `from` attacks `s` exactly when one of the five accumulations covers `s` from `from`. */
  lemma CoversFrom(p: Position, defenderSide: Side, occupancy: Bitboard, from: BoardSquare, s: BoardSquare)
    ensures AttacksFrom(p, from, s, defenderSide, occupancy) <==>
      Covers(Sliders(p, Opposite(defenderSide), ROOK), RookSet(occupancy), from, s) ||
      Covers(Sliders(p, Opposite(defenderSide), BISHOP), BishopSet(occupancy), from, s) ||
      Covers(Movers(p, Opposite(defenderSide), KING), KingAttacks, from, s) ||
      Covers(Movers(p, Opposite(defenderSide), KNIGHT), KnightAttacks, from, s) ||
      Covers(Movers(p, Opposite(defenderSide), PAWN), PawnSet(Opposite(defenderSide)), from, s)
  {
    var side := Opposite(defenderSide);
    MaskCovers(Sliders(p, side, ROOK), Sliders(p, side, BISHOP), Movers(p, side, KING), Movers(p, side, KNIGHT),
      Movers(p, side, PAWN), p.occupancy[side], p.pieces[ROOK], p.pieces[BISHOP], p.pieces[QUEEN], p.pieces[KING],
      p.pieces[KNIGHT], p.pieces[PAWN], occupancy, side, from, s);
  }

  /**
   * The attack map holds exactly the squares some attacker piece attacks,
   * with sliders seeing the occupancy without the defending king (so the
   * squares behind the king along a checking line are covered), pawns
   * capturing towards the defender, and own pieces not filtered out.
   */
  lemma AttackMapMeaning(p: Position, defenderSide: Side, kingSquare: BoardSquare, s: BoardSquare)
    ensures s in SquareSet(AttackMap(p, defenderSide, kingSquare)) <==>
      Attacked(p, s, defenderSide, AttackMapOccupancy(p, kingSquare))
  {
    var occupancy := AttackMapOccupancy(p, kingSquare);
    var side := Opposite(defenderSide);
    var m1, m2, m3 := Sliders(p, side, ROOK), Sliders(p, side, BISHOP), Movers(p, side, KING);
    var m4, m5 := Movers(p, side, KNIGHT), Movers(p, side, PAWN);
    var f1, f2, f5 := RookSet(occupancy), BishopSet(occupancy), PawnSet(side);
    var r1 := Accumulate(EMPTY, m1, f1);
    var r2 := Accumulate(r1, m2, f2);
    var r3 := Accumulate(r2, m3, KingAttacks);
    var r4 := Accumulate(r3, m4, KnightAttacks);
    SquaresConstants(s);
    AccumulateMember(EMPTY, m1, f1, s);
    AccumulateMember(r1, m2, f2, s);
    AccumulateMember(r2, m3, KingAttacks, s);
    AccumulateMember(r3, m4, KnightAttacks, s);
    AccumulateMember(r4, m5, f5, s);
    forall from: BoardSquare
      ensures AttacksFrom(p, from, s, defenderSide, occupancy) <==>
        Covers(m1, f1, from, s) || Covers(m2, f2, from, s) || Covers(m3, KingAttacks, from, s) ||
        Covers(m4, KnightAttacks, from, s) || Covers(m5, f5, from, s)
    {
      CoversFrom(p, defenderSide, occupancy, from, s);
    }
  }

  /**
   * The attack map covers a square exactly when the square's attackers mask,
   * under the map's occupancy, is non-empty: the map and
   * `AllAttackersToSquare` agree square by square.
   */
  lemma AttackMapAgreesWithAttackers(p: Position, defenderSide: Side, kingSquare: BoardSquare, s: BoardSquare)
    ensures s in SquareSet(AttackMap(p, defenderSide, kingSquare)) <==>
      AllAttackersToSquare(p, s, defenderSide, AttackMapOccupancy(p, kingSquare)) != EMPTY
  {
    AttackMapMeaning(p, defenderSide, kingSquare, s);
    AttackersNonEmpty(p, s, defenderSide, AttackMapOccupancy(p, kingSquare));
  }

  /** When the king square is occupied, the map's occupancy is the full occupancy without it. */
  lemma KingRemovedFromOccupancy(p: Position, kingSquare: BoardSquare)
    requires kingSquare in SquareSet(AllOccupancy(p))
    ensures SquareSet(AttackMapOccupancy(p, kingSquare)) == SquareSet(AllOccupancy(p)) - {kingSquare}
  {
    var all, king := AllOccupancy(p), FromSquare(kingSquare);
    SquaresConstants(kingSquare);
    forall s: BoardSquare
      ensures s in SquareSet(all ^ king) <==> s in SquareSet(all) - {kingSquare}
    {
      XorOf(all ^ king, all, king, s);
    }
    SameSquares(SquareSet(all ^ king), SquareSet(all) - {kingSquare});
  }
}
