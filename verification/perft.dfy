/**
 * `Perft`: the node count of the move tree to a given depth, the standard
 * check of a move generator. The tree is walked on board copies: each child
 * is the parent with one generated move applied, and the parent is never
 * changed.
 */
module Perfts {
  import opened Types
  import opened Squares
  import opened Positions
  import opened Moves
  import opened MoveGen

  /** `uint64_t`'s modulus: `result += split` wraps around it. */
  const WORD: nat := 0x1_0000_0000_0000_0000

  /**
   * What `Perft` reaches outside this model: the king square the generator
   * is built with, the piece emitters and the castling rights of a position,
   * and `Board::MakeMove`; `generated` names the moves the generator writes
   * for each position.
   */
  datatype Oracle = Oracle(
    kingSquare: Position -> BoardSquare,
    emitters: Position -> Emitters,
    canCastle: Position -> bv8 -> bool,
    makeMove: (Position, Move) -> Position,
    generated: Position -> seq<Move>)

  /** `generated` gives the moves `MoveGenerator(board).GenerateMoves<ALL>` writes. */
  ghost predicate Faithful(o: Oracle) {
    forall p {:trigger NewGenerator(p, o.kingSquare(p))} ::
      o.generated(p) == Generated(NewGenerator(p, o.kingSquare(p)), ALL, o.emitters(p), o.canCastle(p))
  }

  /** Every position's moves fit the `MAX_MOVES` buffer `Perft` hands the generator. */
  ghost predicate FitsBuffer(o: Oracle) {
    forall p :: |o.generated(p)| <= MAX_MOVES
  }

  /** The moves `Perft` explores from a position. */
  function GeneratedMoves(o: Oracle, p: Position): seq<Move> {
    o.generated(p)
  }

  /**
   * The count `Perft` computes, before the 64-bit wrap-around: one at depth
   * zero, the number of moves at depth one in bulk mode, and otherwise the
   * sum of the children's counts one level down.
   */
  function PerftCount(o: Oracle, p: Position, depth: nat, bulk: bool): nat
    decreases depth, 0
  {
    if depth == 0 then 1
    else if depth == 1 && bulk then |GeneratedMoves(o, p)|
    else ChildrenCount(o, p, GeneratedMoves(o, p), depth - 1, bulk)
  }

  /** The counts of the children reached by `moves`, summed in move order. */
  function ChildrenCount(o: Oracle, p: Position, moves: seq<Move>, depth: nat, bulk: bool): nat
    decreases depth, 1, |moves|
  {
    if moves == [] then 0
    else ChildrenCount(o, p, moves[..|moves| - 1], depth, bulk) + PerftCount(o, o.makeMove(p, moves[|moves| - 1]), depth, bulk)
  }

  /** Every child at depth zero counts one, so the children of a move list count its length. */
  lemma {:induction false} LeafChildren(o: Oracle, p: Position, moves: seq<Move>, bulk: bool)
    ensures ChildrenCount(o, p, moves, 0, bulk) == |moves|
  {
    if moves != [] {
      LeafChildren(o, p, moves[..|moves| - 1], bulk);
    }
  }

  /** One ply counts the generated moves, in both modes. */
  lemma OnePly(o: Oracle, p: Position, bulk: bool)
    ensures PerftCount(o, p, 1, bulk) == |GeneratedMoves(o, p)|
  {
    LeafChildren(o, p, GeneratedMoves(o, p), bulk);
  }

  /** The bulk shortcut at depth one gives the same count as visiting every leaf. */
  lemma {:induction false} BulkAgrees(o: Oracle, p: Position, depth: nat)
    ensures PerftCount(o, p, depth, true) == PerftCount(o, p, depth, false)
    decreases depth, 0
  {
    if depth == 1 {
      OnePly(o, p, true);
      OnePly(o, p, false);
    } else if depth > 1 {
      ChildrenAgree(o, p, GeneratedMoves(o, p), depth - 1);
    }
  }

  lemma {:induction false} ChildrenAgree(o: Oracle, p: Position, moves: seq<Move>, depth: nat)
    ensures ChildrenCount(o, p, moves, depth, true) == ChildrenCount(o, p, moves, depth, false)
    decreases depth, 1, |moves|
  {
    if moves != [] {
      ChildrenAgree(o, p, moves[..|moves| - 1], depth);
      BulkAgrees(o, o.makeMove(p, moves[|moves| - 1]), depth);
    }
  }

  /** The children reached by one more move add that child's count. */
  lemma ChildrenStep(o: Oracle, p: Position, moves: seq<Move>, i: nat, depth: nat, bulk: bool)
    requires i < |moves|
    ensures ChildrenCount(o, p, moves[..i + 1], depth, bulk) ==
      ChildrenCount(o, p, moves[..i], depth, bulk) + PerftCount(o, o.makeMove(p, moves[i]), depth, bulk)
  {
    assert moves[..i + 1][..i] == moves[..i];
  }

  /**
   * `Move moves[MAX_MOVES]` filled by `MoveGenerator(board).GenerateMoves<ALL>`:
   * the buffer starts with the generated moves and the count is theirs.
   */
  method GenerateAll(o: Oracle, p: Position) returns (moves: array<Move>, count: Byte)
    requires Faithful(o) && FitsBuffer(o)
    ensures fresh(moves) && moves.Length == MAX_MOVES
    ensures count == |GeneratedMoves(o, p)| && moves[..count] == GeneratedMoves(o, p)
  {
    moves := new Move[MAX_MOVES];
    var generator := new MoveGenerator(p, o.kingSquare(p));
    ghost var generated := Generated(generator.State(), ALL, o.emitters(p), o.canCastle(p));
    assert o.generated(p) == generated && |generated| <= MAX_MOVES;
    count := generator.GenerateMoves(ALL, moves, o.emitters(p), o.canCastle(p));
    CountFitsByte(|generated|);
  }

  /** Adding two counts wrapped to 64 bits and wrapping again wraps their sum. */
  lemma WrapAdd(sum: nat, wrappedSum: nat, count: nat, wrappedCount: nat)
    requires wrappedSum == sum % WORD && wrappedCount == count % WORD
    ensures (wrappedSum + wrappedCount) % WORD == (sum + count) % WORD
  {
  }

  /** Adding the wrapped count of child `i` to the wrapped sum of the children before it. */
  lemma SplitAdded(o: Oracle, p: Position, moves: seq<Move>, i: nat, depth: nat, bulk: bool, result: nat, split: nat)
    requires i < |moves|
    requires result == ChildrenCount(o, p, moves[..i], depth, bulk) % WORD
    requires split == PerftCount(o, o.makeMove(p, moves[i]), depth, bulk) % WORD
    ensures (result + split) % WORD == ChildrenCount(o, p, moves[..i + 1], depth, bulk) % WORD
  {
    ChildrenStep(o, p, moves, i, depth, bulk);
    WrapAdd(ChildrenCount(o, p, moves[..i], depth, bulk), result, PerftCount(o, o.makeMove(p, moves[i]), depth, bulk), split);
  }

  /** A count up to `MAX_MOVES` survives the cast to `uint8_t`. */
  lemma CountFitsByte(n: nat)
    requires n <= MAX_MOVES
    ensures n % 256 == n
  {
  }

  /**
   * `Perft(board, castleRules, depth, bulk, printSplit, isFirst)`: the count
   * wrapped to 64 bits; one at depth zero, nothing for a position without
   * moves. `printSplit` and `isFirst` only choose whether the root's split
   * counts are printed, so the count does not depend on them.
   */
  method Perft(o: Oracle, p: Position, depth: Byte, bulk: bool, printSplit: bool, isFirst: bool) returns (result: nat)
    requires Faithful(o) && FitsBuffer(o)
    ensures result == PerftCount(o, p, depth, bulk) % WORD
    ensures depth == 0 ==> result == 1
    ensures depth > 0 && GeneratedMoves(o, p) == [] ==> result == 0
    decreases depth
  {
    if depth == 0 {
      return 1;
    }
    ghost var generated := GeneratedMoves(o, p);
    var moves, count := GenerateAll(o, p);

    if depth == 1 && bulk {
      return count;
    }

    result := 0;
    for i := 0 to count
      invariant moves[..count] == generated
      invariant result == ChildrenCount(o, p, generated[..i], depth - 1, bulk) % WORD
    {
      assert moves[i] == generated[i];
      var child := o.makeMove(p, moves[i]);
      var split := Perft(o, child, depth - 1, bulk, printSplit, false);
      SplitAdded(o, p, generated, i, depth - 1, bulk, result, split);
      result := (result + split) % WORD;
    }
    assert generated[..count] == generated;
  }
}
