/**
 * The leaper and slider attack sets. The engine reads them from precomputed
 * tables (the slider ones through magic or PEXT indexing); the tables'
 * contents are not part of this model, so each set is defined here by the
 * geometry it encodes: knight and king offsets, the two diagonal pawn
 * captures, and rook and bishop lines that stop at the first occupied square
 * (which is itself attacked).
 */
module AttackSets {
  import opened Types
  import opened Squares
  import opened Bitboards
  import opened Rays

  function RankDelta(from: BoardSquare, to: BoardSquare): int {
    GetRank(to) - GetRank(from)
  }

  function FileDelta(from: BoardSquare, to: BoardSquare): int {
    GetFile(to) - GetFile(from)
  }

  predicate KnightStep(from: BoardSquare, to: BoardSquare) {
    (Abs(RankDelta(from, to)) == 1 && Abs(FileDelta(from, to)) == 2) ||
    (Abs(RankDelta(from, to)) == 2 && Abs(FileDelta(from, to)) == 1)
  }

  predicate KingStep(from: BoardSquare, to: BoardSquare) {
    from != to && Abs(RankDelta(from, to)) <= 1 && Abs(FileDelta(from, to)) <= 1
  }

  /** A pawn of `side` on `from` captures on `to`: one rank forward, one file aside. */
  predicate PawnStep(from: BoardSquare, to: BoardSquare, side: Side) {
    RankDelta(from, to) == (if side == WHITE then 1 else -1) && Abs(FileDelta(from, to)) == 1
  }

  predicate Orthogonal(from: BoardSquare, to: BoardSquare) {
    Aligned(from, to) && (RankDelta(from, to) == 0 || FileDelta(from, to) == 0)
  }

  predicate Diagonal(from: BoardSquare, to: BoardSquare) {
    Aligned(from, to) && Abs(RankDelta(from, to)) == Abs(FileDelta(from, to))
  }

  /** No occupied square lies strictly between the two squares. */
  predicate Unblocked(from: BoardSquare, to: BoardSquare, occupancy: Bitboard) {
    forall t: BoardSquare :: Between(from, to, t) ==> !GetBit(occupancy, t)
  }

  predicate RookStep(from: BoardSquare, to: BoardSquare, occupancy: Bitboard) {
    Orthogonal(from, to) && Unblocked(from, to, occupancy)
  }

  predicate BishopStep(from: BoardSquare, to: BoardSquare, occupancy: Bitboard) {
    Diagonal(from, to) && Unblocked(from, to, occupancy)
  }

  /** The squares below `n` that satisfy `rel`. */
  function Collect(rel: BoardSquare -> bool, n: nat): Bitboard
    requires n <= 64
  {
    if n == 0 then EMPTY
    else if rel(n - 1) then WithBit(Collect(rel, n - 1), n - 1)
    else Collect(rel, n - 1)
  }

  ghost function Satisfying(rel: BoardSquare -> bool, n: nat): set<BoardSquare> {
    set s: BoardSquare | s < n && rel(s)
  }

  lemma SatisfyingStep(rel: BoardSquare -> bool, n: nat, last: BoardSquare)
    requires 0 < n <= 64 && last == n - 1
    ensures Satisfying(rel, n) == Satisfying(rel, last) + (if rel(last) then {last} else {})
  {
  }

  lemma {:induction false} CollectIsSatisfying(rel: BoardSquare -> bool, n: nat)
    requires n <= 64
    ensures SquareSet(Collect(rel, n)) == Satisfying(rel, n)
  {
    if n == 0 {
      SquaresConstants(0);
    } else {
      var last: BoardSquare := n - 1;
      CollectIsSatisfying(rel, last);
      SatisfyingStep(rel, n, last);
      if rel(last) {
        assert Collect(rel, n) == WithBit(Collect(rel, last), last);
      } else {
        assert Collect(rel, n) == Collect(rel, last);
      }
    }
  }

  lemma CollectMember(rel: BoardSquare -> bool, n: nat, s: BoardSquare)
    requires n <= 64
    ensures s in SquareSet(Collect(rel, n)) <==> s < n && rel(s)
  {
    CollectIsSatisfying(rel, n);
  }

  /** `GetKnightAttacks` (the KNIGHT_MOVES table). */
  function KnightAttacks(square: BoardSquare): Bitboard {
    Collect((s: BoardSquare) => KnightStep(square, s), 64)
  }

  /** `GetKingAttacks` (the KING_MOVES table). */
  function KingAttacks(square: BoardSquare): Bitboard {
    Collect((s: BoardSquare) => KingStep(square, s), 64)
  }

  /** `GetPawnAttacks` (the PAWN_MOVES table at `side * 64 + square`). */
  function PawnAttacks(square: BoardSquare, side: Side): Bitboard {
    Collect((s: BoardSquare) => PawnStep(square, s, side), 64)
  }

  /** `GetRookAttacks`: along ranks and files up to and including the first occupied square. */
  function RookAttacks(square: BoardSquare, occupancy: Bitboard): Bitboard {
    Collect((s: BoardSquare) => RookStep(square, s, occupancy), 64)
  }

  /** `GetBishopAttacks`: along diagonals up to and including the first occupied square. */
  function BishopAttacks(square: BoardSquare, occupancy: Bitboard): Bitboard {
    Collect((s: BoardSquare) => BishopStep(square, s, occupancy), 64)
  }

  lemma KnightMember(square: BoardSquare, s: BoardSquare)
    ensures s in SquareSet(KnightAttacks(square)) <==> KnightStep(square, s)
  {
    CollectMember((s: BoardSquare) => KnightStep(square, s), 64, s);
  }

  lemma KingMember(square: BoardSquare, s: BoardSquare)
    ensures s in SquareSet(KingAttacks(square)) <==> KingStep(square, s)
  {
    CollectMember((s: BoardSquare) => KingStep(square, s), 64, s);
  }

  lemma PawnMember(square: BoardSquare, side: Side, s: BoardSquare)
    ensures s in SquareSet(PawnAttacks(square, side)) <==> PawnStep(square, s, side)
  {
    CollectMember((s: BoardSquare) => PawnStep(square, s, side), 64, s);
  }

  lemma RookMember(square: BoardSquare, occupancy: Bitboard, s: BoardSquare)
    ensures s in SquareSet(RookAttacks(square, occupancy)) <==> RookStep(square, s, occupancy)
  {
    CollectMember((s: BoardSquare) => RookStep(square, s, occupancy), 64, s);
  }

  lemma BishopMember(square: BoardSquare, occupancy: Bitboard, s: BoardSquare)
    ensures s in SquareSet(BishopAttacks(square, occupancy)) <==> BishopStep(square, s, occupancy)
  {
    CollectMember((s: BoardSquare) => BishopStep(square, s, occupancy), 64, s);
  }

  /*
   * Symmetry: `a` attacks `b` exactly when a piece of the same kind on `b`
   * would attack `a` (for pawns, a pawn of the other colour). This is what
   * lets `AllAttackersToSquare` look up attackers from the target square.
   */

  /** Swapping the squares negates both deltas. */
  lemma DeltasNegate(a: BoardSquare, b: BoardSquare)
    ensures RankDelta(b, a) == -RankDelta(a, b) && FileDelta(b, a) == -FileDelta(a, b)
    ensures Abs(RankDelta(b, a)) == Abs(RankDelta(a, b)) && Abs(FileDelta(b, a)) == Abs(FileDelta(a, b))
  {
  }

  lemma AlignedSymmetric(a: BoardSquare, b: BoardSquare)
    ensures Aligned(a, b) <==> Aligned(b, a)
    ensures Orthogonal(a, b) <==> Orthogonal(b, a)
    ensures Diagonal(a, b) <==> Diagonal(b, a)
  {
    DeltasNegate(a, b);
  }

  lemma BetweenSymmetric(a: BoardSquare, b: BoardSquare, t: BoardSquare)
    ensures Between(a, b, t) <==> Between(b, a, t)
  {
    AlignedSymmetric(a, t);
    AlignedSymmetric(t, b);
  }

  lemma UnblockedSymmetric(a: BoardSquare, b: BoardSquare, occupancy: Bitboard)
    ensures Unblocked(a, b, occupancy) <==> Unblocked(b, a, occupancy)
  {
    forall t: BoardSquare
      ensures Between(a, b, t) <==> Between(b, a, t)
    {
      BetweenSymmetric(a, b, t);
    }
  }

  lemma KnightSymmetric(a: BoardSquare, b: BoardSquare)
    ensures a in SquareSet(KnightAttacks(b)) <==> b in SquareSet(KnightAttacks(a))
  {
    KnightMember(b, a);
    KnightMember(a, b);
    DeltasNegate(a, b);
  }

  lemma KingSymmetric(a: BoardSquare, b: BoardSquare)
    ensures a in SquareSet(KingAttacks(b)) <==> b in SquareSet(KingAttacks(a))
  {
    KingMember(b, a);
    KingMember(a, b);
    DeltasNegate(a, b);
  }

  lemma PawnSymmetric(a: BoardSquare, b: BoardSquare, side: Side)
    ensures a in SquareSet(PawnAttacks(b, side)) <==> b in SquareSet(PawnAttacks(a, Opposite(side)))
  {
    PawnMember(b, side, a);
    PawnMember(a, Opposite(side), b);
    DeltasNegate(a, b);
  }

  lemma RookSymmetric(a: BoardSquare, b: BoardSquare, occupancy: Bitboard)
    ensures a in SquareSet(RookAttacks(b, occupancy)) <==> b in SquareSet(RookAttacks(a, occupancy))
  {
    RookMember(b, occupancy, a);
    RookMember(a, occupancy, b);
    AlignedSymmetric(a, b);
    UnblockedSymmetric(a, b, occupancy);
  }

  lemma BishopSymmetric(a: BoardSquare, b: BoardSquare, occupancy: Bitboard)
    ensures a in SquareSet(BishopAttacks(b, occupancy)) <==> b in SquareSet(BishopAttacks(a, occupancy))
  {
    BishopMember(b, occupancy, a);
    BishopMember(a, occupancy, b);
    AlignedSymmetric(a, b);
    UnblockedSymmetric(a, b, occupancy);
  }

  /** No piece attacks its own square. */
  lemma NoSelfAttack(square: BoardSquare, side: Side, occupancy: Bitboard)
    ensures square !in SquareSet(KnightAttacks(square)) && square !in SquareSet(KingAttacks(square))
    ensures square !in SquareSet(PawnAttacks(square, side))
    ensures square !in SquareSet(RookAttacks(square, occupancy)) && square !in SquareSet(BishopAttacks(square, occupancy))
  {
    KnightMember(square, square);
    KingMember(square, square);
    PawnMember(square, side, square);
    RookMember(square, occupancy, square);
    BishopMember(square, occupancy, square);
  }
}
