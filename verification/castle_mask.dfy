/**
 * `CastleMask`: a 64-entry table of castle-right bits, one per square,
 * telling which rights are lost when a piece moves from or to that square.
 * The constructor writes the rook and king entries in a fixed order, so a
 * later write to the same square replaces an earlier one.
 */
module CastleMasks {
  import opened Types
  import opened Squares

  /** A write of `value` into the entry of `square`. */
  datatype Write = Write(square: BoardSquare, value: bv8)

  /** The table after applying `writes` in order to `table`. */
  function Overwrite(table: seq<bv8>, writes: seq<Write>): (r: seq<bv8>)
    requires |table| == 64
    ensures |r| == 64
  {
    if writes == [] then table
    else
      var last := writes[|writes| - 1];
      Overwrite(table, writes[..|writes| - 1])[last.square := last.value]
  }

  /** An entry holds the value of the last write that names it. */
  lemma {:induction false} LastWriteWins(table: seq<bv8>, writes: seq<Write>, k: nat, s: BoardSquare)
    requires |table| == 64 && k < |writes| && writes[k].square == s
    requires forall j :: k < j < |writes| ==> writes[j].square != s
    ensures Overwrite(table, writes)[s] == writes[k].value
    decreases |writes|
  {
    if k < |writes| - 1 {
      LastWriteWins(table, writes[..|writes| - 1], k, s);
    }
  }

  /** An entry that no write names keeps its value. */
  lemma {:induction false} Unwritten(table: seq<bv8>, writes: seq<Write>, s: BoardSquare)
    requires |table| == 64
    requires forall j :: 0 <= j < |writes| ==> writes[j].square != s
    ensures Overwrite(table, writes)[s] == table[s]
    decreases |writes|
  {
    if writes != [] {
      Unwritten(table, writes[..|writes| - 1], s);
    }
  }

  lemma OverwriteSnoc(table: seq<bv8>, writes: seq<Write>, w: Write)
    requires |table| == 64
    ensures Overwrite(table, writes + [w]) == Overwrite(table, writes)[w.square := w.value]
  {
    assert (writes + [w])[..|writes|] == writes;
  }

  const ZEROS: seq<bv8> := seq(64, _ => 0)

  /** A rook slot that holds NULL_SQUARE is skipped; any other must be a board square. */
  predicate ValidRookSlot(s: Square) {
    s < 64 || s == NULL_SQUARE
  }

  function OptionalWrite(s: Square, value: bv8): seq<Write>
    requires ValidRookSlot(s)
  {
    if s == NULL_SQUARE then [] else [Write(s, value)]
  }

  /** The constructor's writes, in order: rook 0, white king, rook 1, rook 2, black king, rook 3. */
  function MaskWrites(rooks: seq<Square>, whiteKing: BoardSquare, blackKing: BoardSquare): seq<Write>
    requires |rooks| == 4 && forall i :: 0 <= i < 4 ==> ValidRookSlot(rooks[i])
  {
    OptionalWrite(rooks[0], 0x8) + [Write(whiteKing, 0xC)] + OptionalWrite(rooks[1], 0x4) +
    OptionalWrite(rooks[2], 0x2) + [Write(blackKing, 0x3)] + OptionalWrite(rooks[3], 0x1)
  }

  class CastleMask {
    const mask: array<bv8>

    constructor (rooks: seq<Square>, whiteKingSquare: BoardSquare, blackKingSquare: BoardSquare)
      requires |rooks| == 4 && forall i :: 0 <= i < 4 ==> ValidRookSlot(rooks[i])
      ensures fresh(mask) && mask.Length == 64
      ensures mask[..] == Overwrite(ZEROS, MaskWrites(rooks, whiteKingSquare, blackKingSquare))
    {
      var m := new bv8[64](_ => 0);
      assert m[..] == ZEROS;
      ghost var ws := WriteOptional(m, [], rooks[0], 0x8);
      ws := WriteEntry(m, ws, Write(whiteKingSquare, 0xC));
      ws := WriteOptional(m, ws, rooks[1], 0x4);
      ws := WriteOptional(m, ws, rooks[2], 0x2);
      ws := WriteEntry(m, ws, Write(blackKingSquare, 0x3));
      ws := WriteOptional(m, ws, rooks[3], 0x1);
      mask := m;
    }

    /** `m_Mask[square] = value`. */
    static method WriteEntry(m: array<bv8>, ghost ws: seq<Write>, w: Write) returns (ghost ws': seq<Write>)
      requires m.Length == 64 && m[..] == Overwrite(ZEROS, ws)
      modifies m
      ensures ws' == ws + [w] && m[..] == Overwrite(ZEROS, ws')
    {
      OverwriteSnoc(ZEROS, ws, w);
      m[w.square] := w.value;
      ws' := ws + [w];
    }

    /** `if (rook != NULL_SQUARE) m_Mask[rook] = value`. */
    static method WriteOptional(m: array<bv8>, ghost ws: seq<Write>, rook: Square, value: bv8) returns (ghost ws': seq<Write>)
      requires ValidRookSlot(rook)
      requires m.Length == 64 && m[..] == Overwrite(ZEROS, ws)
      modifies m
      ensures ws' == ws + OptionalWrite(rook, value) && m[..] == Overwrite(ZEROS, ws')
    {
      ws' := ws;
      if rook != NULL_SQUARE {
        ws' := WriteEntry(m, ws, Write(rook, value));
      } else {
        assert ws + OptionalWrite(rook, value) == ws;
      }
    }

    /** `GetMask`: reads the entry of `square`. */
    function GetMask(square: BoardSquare): (m: bv8)
      reads mask
      requires mask.Length == 64
      ensures m == mask[..][square]
    {
      mask[square]
    }
  }

  /** With the six squares distinct, each gets its own bits and every other square gets 0. */
  lemma MaskValues(rooks: seq<Square>, whiteKing: BoardSquare, blackKing: BoardSquare, s: BoardSquare)
    requires |rooks| == 4 && forall i :: 0 <= i < 4 ==> rooks[i] < 64
    requires forall i, j :: 0 <= i < j < 4 ==> rooks[i] != rooks[j]
    requires whiteKing != blackKing && whiteKing !in rooks && blackKing !in rooks
    ensures var table := Overwrite(ZEROS, MaskWrites(rooks, whiteKing, blackKing));
            table[whiteKing] == 0xC && table[blackKing] == 0x3 &&
            table[rooks[0]] == 0x8 && table[rooks[1]] == 0x4 && table[rooks[2]] == 0x2 && table[rooks[3]] == 0x1 &&
            (s != whiteKing && s != blackKing && s !in rooks ==> table[s] == 0)
  {
    var ws := MaskWrites(rooks, whiteKing, blackKing);
    assert ws == [Write(rooks[0], 0x8), Write(whiteKing, 0xC), Write(rooks[1], 0x4),
                  Write(rooks[2], 0x2), Write(blackKing, 0x3), Write(rooks[3], 0x1)];
    LastWriteWins(ZEROS, ws, 0, rooks[0]);
    LastWriteWins(ZEROS, ws, 1, whiteKing);
    LastWriteWins(ZEROS, ws, 2, rooks[1]);
    LastWriteWins(ZEROS, ws, 3, rooks[2]);
    LastWriteWins(ZEROS, ws, 4, blackKing);
    LastWriteWins(ZEROS, ws, 5, rooks[3]);
    if s != whiteKing && s != blackKing && s !in rooks {
      Unwritten(ZEROS, ws, s);
    }
  }

  /** With NULL_SQUARE in every rook slot only the two king entries are written. */
  lemma NoRooksOnlyKings(whiteKing: BoardSquare, blackKing: BoardSquare, s: BoardSquare)
    requires whiteKing != blackKing
    ensures var table := Overwrite(ZEROS, MaskWrites([NULL_SQUARE, NULL_SQUARE, NULL_SQUARE, NULL_SQUARE], whiteKing, blackKing));
            table[whiteKing] == 0xC && table[blackKing] == 0x3 &&
            (s != whiteKing && s != blackKing ==> table[s] == 0)
  {
    var ws := MaskWrites([NULL_SQUARE, NULL_SQUARE, NULL_SQUARE, NULL_SQUARE], whiteKing, blackKing);
    assert ws == [Write(whiteKing, 0xC), Write(blackKing, 0x3)];
    LastWriteWins(ZEROS, ws, 0, whiteKing);
    LastWriteWins(ZEROS, ws, 1, blackKing);
    if s != whiteKing && s != blackKing {
      Unwritten(ZEROS, ws, s);
    }
  }

  /** The standard rooks a1, h1, a8, h8 and kings e1, e8 give CASTLE_MASK. */
  lemma StandardSetupIsCastleMask()
    ensures Overwrite(ZEROS, MaskWrites([0, 7, 56, 63], 4, 60)) == CASTLE_MASK
  {
    var table := Overwrite(ZEROS, MaskWrites([0, 7, 56, 63], 4, 60));
    CastleMaskEntries();
    forall s: BoardSquare
      ensures table[s] == CASTLE_MASK[s]
    {
      MaskValues([0, 7, 56, 63], 4, 60, s);
    }
  }
}
