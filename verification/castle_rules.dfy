/**
 * `CastleRules`: the four castling rook squares (white queen side, white
 * king side, black queen side, black king side) found from the rook
 * bitboards, and the per-square castle mask built from them.
 */
module CastleRules {
  import opened Types
  import opened Squares
  import opened Bitboards
  import opened CastleMasks

  /**
   * The slot value after visiting `squares` in order, where each square on
   * the chosen side of the king (`below`: strictly below it; otherwise at or
   * above it) overwrites the slot, starting from `init`.
   */
  function LastOnSide(squares: seq<BoardSquare>, king: Square, below: bool, init: Square): Square {
    if squares == [] then init
    else
      var x := squares[|squares| - 1];
      if (x < king) == below then x else LastOnSide(squares[..|squares| - 1], king, below, init)
  }

  predicate OnSide(x: BoardSquare, king: Square, below: bool) {
    (x < king) == below
  }

  /**
   * Over an ascending list holding a square on the chosen side, the slot ends
   * holding the greatest such square.
   */
  lemma {:induction false} LastOnSideIsGreatest(squares: seq<BoardSquare>, king: Square, below: bool, init: Square)
    requires StrictlyIncreasing(squares)
    requires HasOnSide(squares, king, below)
    ensures LastOnSide(squares, king, below, init) in squares
    ensures OnSide(LastOnSide(squares, king, below, init), king, below)
    ensures forall y :: y in squares && OnSide(y, king, below) ==> y <= LastOnSide(squares, king, below, init)
    decreases |squares|
  {
    var n := |squares|;
    var x := squares[n - 1];
    var front := squares[..n - 1];
    assert squares == front + [x];
    forall y | y in front
      ensures y < x
    {
      var k :| 0 <= k < n - 1 && front[k] == y;
      assert squares[k] == y;
    }
    if !OnSide(x, king, below) {
      var w :| w in squares && OnSide(w, king, below);
      assert HasOnSide(front, king, below);
      assert StrictlyIncreasing(front);
      LastOnSideIsGreatest(front, king, below, init);
    }
  }

  /** A rook strictly below the king and one at or above it. */
  predicate RooksOnBothSides(rooks: Bitboard, king: BoardSquare) {
    HasOnSide(SquareList(rooks), king, true) && HasOnSide(SquareList(rooks), king, false)
  }

  predicate HasOnSide(squares: seq<BoardSquare>, king: Square, below: bool) {
    exists x :: x in squares && OnSide(x, king, below)
  }

  /** The four rook slots the constructor stores. */
  function RookSlots(whiteRooks: Bitboard, blackRooks: Bitboard, whiteKing: BoardSquare, blackKing: BoardSquare): seq<Square> {
    [LastOnSide(SquareList(whiteRooks), whiteKing, true, NULL_SQUARE),
     LastOnSide(SquareList(whiteRooks), whiteKing, false, NULL_SQUARE),
     LastOnSide(SquareList(blackRooks), blackKing, true, NULL_SQUARE),
     LastOnSide(SquareList(blackRooks), blackKing, false, NULL_SQUARE)]
  }

  /** `slot` is a square of the list on the chosen side of the king, and no such square is greater. */
  predicate GreatestOnSide(squares: seq<BoardSquare>, king: BoardSquare, below: bool, slot: Square) {
    slot in squares && OnSide(slot, king, below) &&
    forall y :: y in squares && OnSide(y, king, below) ==> y <= slot
  }

  /**
   * Slot 0 holds the greatest white rook below the white king and slot 1 the
   * greatest white rook at or above it; slots 2 and 3 do the same for black.
   */
  lemma RookSlotsChosen(whiteRooks: Bitboard, blackRooks: Bitboard, whiteKing: BoardSquare, blackKing: BoardSquare)
    requires RooksOnBothSides(whiteRooks, whiteKing) && RooksOnBothSides(blackRooks, blackKing)
    ensures GreatestOnSide(SquareList(whiteRooks), whiteKing, true, RookSlots(whiteRooks, blackRooks, whiteKing, blackKing)[0])
    ensures GreatestOnSide(SquareList(whiteRooks), whiteKing, false, RookSlots(whiteRooks, blackRooks, whiteKing, blackKing)[1])
    ensures GreatestOnSide(SquareList(blackRooks), blackKing, true, RookSlots(whiteRooks, blackRooks, whiteKing, blackKing)[2])
    ensures GreatestOnSide(SquareList(blackRooks), blackKing, false, RookSlots(whiteRooks, blackRooks, whiteKing, blackKing)[3])
  {
    var whites := SquareList(whiteRooks);
    var blacks := SquareList(blackRooks);
    SquareListIncreasing(whiteRooks);
    SquareListIncreasing(blackRooks);
    LastOnSideIsGreatest(whites, whiteKing, true, NULL_SQUARE);
    LastOnSideIsGreatest(whites, whiteKing, false, NULL_SQUARE);
    LastOnSideIsGreatest(blacks, blackKing, true, NULL_SQUARE);
    LastOnSideIsGreatest(blacks, blackKing, false, NULL_SQUARE);
  }

  /** With a rook on each side of each king, every slot is filled with a board square. */
  lemma SlotsOnBoard(whiteRooks: Bitboard, blackRooks: Bitboard, whiteKing: BoardSquare, blackKing: BoardSquare)
    requires RooksOnBothSides(whiteRooks, whiteKing) && RooksOnBothSides(blackRooks, blackKing)
    ensures forall i :: 0 <= i < 4 ==> RookSlots(whiteRooks, blackRooks, whiteKing, blackKing)[i] < 64
  {
    var slots := RookSlots(whiteRooks, blackRooks, whiteKing, blackKing);
    RookSlotsChosen(whiteRooks, blackRooks, whiteKing, blackKing);
    GreatestIsOnBoard(SquareList(whiteRooks), whiteKing, true, slots[0]);
    GreatestIsOnBoard(SquareList(whiteRooks), whiteKing, false, slots[1]);
    GreatestIsOnBoard(SquareList(blackRooks), blackKing, true, slots[2]);
    GreatestIsOnBoard(SquareList(blackRooks), blackKing, false, slots[3]);
    AllFourBelow(slots);
  }

  lemma AllFourBelow(slots: seq<Square>)
    requires |slots| == 4 && slots[0] < 64 && slots[1] < 64 && slots[2] < 64 && slots[3] < 64
    ensures forall i :: 0 <= i < 4 ==> slots[i] < 64
  {
  }

  lemma GreatestIsOnBoard(squares: seq<BoardSquare>, king: BoardSquare, below: bool, slot: Square)
    requires GreatestOnSide(squares, king, below, slot)
    ensures slot < 64
  {
  }

  class CastleRules {
    const rooks: array<Square>
    const mask: array<bv8>

    constructor (whiteRooks: Bitboard, blackRooks: Bitboard, whiteKingSquare: BoardSquare, blackKingSquare: BoardSquare)
      requires RooksOnBothSides(whiteRooks, whiteKingSquare) && RooksOnBothSides(blackRooks, blackKingSquare)
      ensures fresh(rooks) && fresh(mask) && rooks.Length == 4 && mask.Length == 64
      ensures rooks[..] == RookSlots(whiteRooks, blackRooks, whiteKingSquare, blackKingSquare)
      ensures forall i :: 0 <= i < 4 ==> rooks[i] < 64
      ensures mask[..] == Overwrite(ZEROS, MaskWrites(rooks[..], whiteKingSquare, blackKingSquare))
    {
      var r := FindRookSlots(whiteRooks, blackRooks, whiteKingSquare, blackKingSquare);
      SlotsOnBoard(whiteRooks, blackRooks, whiteKingSquare, blackKingSquare);
      var m := BuildMask(r[..], whiteKingSquare, blackKingSquare);
      rooks := r;
      mask := m;
    }

    /** The two `Map` loops, starting from four NULL_SQUARE slots. */
    static method FindRookSlots(whiteRooks: Bitboard, blackRooks: Bitboard, whiteKingSquare: BoardSquare, blackKingSquare: BoardSquare)
      returns (r: array<Square>)
      ensures fresh(r) && r.Length == 4
      ensures r[..] == RookSlots(whiteRooks, blackRooks, whiteKingSquare, blackKingSquare)
    {
      r := new Square[4](_ => NULL_SQUARE);
      var whites := Map(whiteRooks);
      AssignSlots(r, whites, whiteKingSquare, 0);
      var blacks := Map(blackRooks);
      AssignSlots(r, blacks, blackKingSquare, 2);
    }

    /** The six unconditional writes `m_Mask[...] = ...`, rook slots and kings interleaved. */
    static method BuildMask(slots: seq<Square>, whiteKingSquare: BoardSquare, blackKingSquare: BoardSquare)
      returns (m: array<bv8>)
      requires |slots| == 4 && forall i :: 0 <= i < 4 ==> slots[i] < 64
      ensures fresh(m) && m.Length == 64
      ensures m[..] == Overwrite(ZEROS, MaskWrites(slots, whiteKingSquare, blackKingSquare))
    {
      m := new bv8[64](_ => 0);
      assert m[..] == ZEROS;
      ghost var ws := CastleMask.WriteEntry(m, [], Write(slots[0], 0x8));
      ws := CastleMask.WriteEntry(m, ws, Write(whiteKingSquare, 0xC));
      ws := CastleMask.WriteEntry(m, ws, Write(slots[1], 0x4));
      ws := CastleMask.WriteEntry(m, ws, Write(slots[2], 0x2));
      ws := CastleMask.WriteEntry(m, ws, Write(blackKingSquare, 0x3));
      ws := CastleMask.WriteEntry(m, ws, Write(slots[3], 0x1));
      assert ws == MaskWrites(slots, whiteKingSquare, blackKingSquare);
    }

    /**
     * One `Map` over a side's rooks: each rook below the king is stored in
     * slot `base`, each other rook in slot `base + 1`.
     */
    static method AssignSlots(r: array<Square>, squares: seq<BoardSquare>, king: BoardSquare, base: nat)
      requires r.Length == 4 && base + 1 < 4
      modifies r
      ensures r[base] == LastOnSide(squares, king, true, old(r[base]))
      ensures r[base + 1] == LastOnSide(squares, king, false, old(r[base + 1]))
      ensures forall i :: 0 <= i < 4 && i != base && i != base + 1 ==> r[i] == old(r[i])
    {
      for k := 0 to |squares|
        invariant r[base] == LastOnSide(squares[..k], king, true, old(r[base]))
        invariant r[base + 1] == LastOnSide(squares[..k], king, false, old(r[base + 1]))
        invariant forall i :: 0 <= i < 4 && i != base && i != base + 1 ==> r[i] == old(r[i])
      {
        var rookSquare := squares[k];
        var index := if rookSquare < king then 0 else 1;
        assert squares[..k + 1][..k] == squares[..k];
        r[base + index] := rookSquare;
      }
      assert squares[..|squares|] == squares;
    }

    function GetMask(square: BoardSquare): (m: bv8)
      reads mask
      requires mask.Length == 64
      ensures m == mask[..][square]
    {
      mask[square]
    }

    function GetRookSquare(idx: nat): (s: Square)
      reads rooks
      requires idx < 4 == rooks.Length
      ensures s == rooks[..][idx]
    {
      rooks[idx]
    }
  }

  /**
   * With the kings off the rook squares and no square holding rooks of both
   * colours, the four slots and the two kings are six distinct squares, so
   * the mask gives each of them its own bits (`MaskValues`).
   */
  lemma RookSlotsDistinct(whiteRooks: Bitboard, blackRooks: Bitboard, whiteKing: BoardSquare, blackKing: BoardSquare)
    requires RooksOnBothSides(whiteRooks, whiteKing) && RooksOnBothSides(blackRooks, blackKing)
    requires whiteKing != blackKing
    requires whiteKing !in SquareList(whiteRooks) && whiteKing !in SquareList(blackRooks)
    requires blackKing !in SquareList(whiteRooks) && blackKing !in SquareList(blackRooks)
    requires forall x :: x in SquareList(whiteRooks) ==> x !in SquareList(blackRooks)
    ensures var slots := RookSlots(whiteRooks, blackRooks, whiteKing, blackKing);
            (forall i, j :: 0 <= i < j < 4 ==> slots[i] != slots[j]) &&
            whiteKing !in slots && blackKing !in slots
  {
    RookSlotsChosen(whiteRooks, blackRooks, whiteKing, blackKing);
    GreatestSlotsDistinct(SquareList(whiteRooks), SquareList(blackRooks), whiteKing, blackKing,
                          RookSlots(whiteRooks, blackRooks, whiteKing, blackKing));
  }

  lemma GreatestSlotsDistinct(whites: seq<BoardSquare>, blacks: seq<BoardSquare>, whiteKing: BoardSquare, blackKing: BoardSquare, slots: seq<Square>)
    requires |slots| == 4
    requires GreatestOnSide(whites, whiteKing, true, slots[0]) && GreatestOnSide(whites, whiteKing, false, slots[1])
    requires GreatestOnSide(blacks, blackKing, true, slots[2]) && GreatestOnSide(blacks, blackKing, false, slots[3])
    requires whiteKing != blackKing
    requires whiteKing !in whites && whiteKing !in blacks && blackKing !in whites && blackKing !in blacks
    requires forall x :: x in whites ==> x !in blacks
    ensures (forall i, j :: 0 <= i < j < 4 ==> slots[i] != slots[j]) && whiteKing !in slots && blackKing !in slots
  {
  }
}
