/**
 * `ZobristHash`: a 64-bit position key updated by XOR-ing in entries of the
 * 793-entry SEEDS table. The table's values are external data, so every
 * operation takes the table as a parameter.
 */
module Zobrist {
  import opened Types
  import opened Squares

  /** The SEEDS table: 768 piece entries, one side entry, 16 castle entries, 8 en-passant entries. */
  type Seeds = s: seq<bv64> | |s| == 793 witness seq(793, i => 0)

  const SIDE_SEED_INDEX: nat := 768
  const CASTLE_SEED_BASE: nat := 769
  const EN_PASSANT_SEED_BASE: nat := 785

  /** The piece entry `(pieceType + pieceColor * 6) * 64 + square`. */
  function PieceSeedIndex(piece: Piece, color: Side, square: BoardSquare): (i: nat)
    ensures i < SIDE_SEED_INDEX
  {
    (piece + color * 6) * 64 + square
  }

  /** Distinct (piece, colour, square) triples use distinct piece entries. */
  lemma PieceSeedIndexInjective(p1: Piece, c1: Side, s1: BoardSquare, p2: Piece, c2: Side, s2: BoardSquare)
    requires PieceSeedIndex(p1, c1, s1) == PieceSeedIndex(p2, c2, s2)
    ensures p1 == p2 && c1 == c2 && s1 == s2
  {
    var k1 := p1 + c1 * 6;
    var k2 := p2 + c2 * 6;
    assert k1 * 64 + s1 == k2 * 64 + s2;
    DigitsUnique(k1, s1, k2, s2);
  }

  lemma DigitsUnique(k1: nat, s1: nat, k2: nat, s2: nat)
    requires s1 < 64 && s2 < 64 && k1 * 64 + s1 == k2 * 64 + s2
    ensures k1 == k2 && s1 == s2
  {
    var n := k1 * 64 + s1;
    assert n / 64 == k1 && n % 64 == s1;
    assert n / 64 == k2 && n % 64 == s2;
  }

  /** The castle entry `769 + rightsMask`; the table has room for masks up to 23. */
  function CastleSeedIndex(rightsMask: bv8): (i: nat)
    requires rightsMask < 24
    ensures i < 793
  {
    CASTLE_SEED_BASE + rightsMask as int
  }

  /** The en-passant entry `785 + file`; every square, NULL_SQUARE included, has a file 0..7. */
  function EnPassantSeedIndex(square: Square): (i: nat)
    ensures EN_PASSANT_SEED_BASE <= i < 793
  {
    EN_PASSANT_SEED_BASE + GetFile(square)
  }

  /**
   * The four kinds of entry use disjoint parts of the table when the rights
   * mask holds only the four castle-right bits.
   */
  lemma SeedRegions(piece: Piece, color: Side, square: BoardSquare, rightsMask: bv8, epSquare: Square)
    requires rightsMask < 16
    ensures PieceSeedIndex(piece, color, square) < SIDE_SEED_INDEX < CastleSeedIndex(rightsMask)
    ensures CastleSeedIndex(rightsMask) < EnPassantSeedIndex(epSquare)
  {
  }

  /** The key XOR-ed by `UpdateSideToMoveHash`: `SEEDS[768] * sideToMove`. */
  function SideKey(seeds: Seeds, stm: Side): bv64 {
    if stm == BLACK then seeds[SIDE_SEED_INDEX] else 0
  }

  /** Toggling a key twice restores the hash. */
  lemma ToggleTwice(h: bv64, key: bv64)
    ensures (h ^ key) ^ key == h
  {
  }

  /** Two toggles commute. */
  lemma TogglesCommute(h: bv64, k1: bv64, k2: bv64)
    ensures (h ^ k1) ^ k2 == (h ^ k2) ^ k1
  {
  }

  /** White to move contributes nothing; black to move toggles SEEDS[768]. */
  lemma SideKeyValues(seeds: Seeds, h: bv64)
    ensures h ^ SideKey(seeds, WHITE) == h
    ensures h ^ SideKey(seeds, BLACK) == h ^ seeds[SIDE_SEED_INDEX]
  {
  }

  class ZobristHash {
    var value: bv64

    /** A fresh hash is 0. */
    constructor ()
      ensures value == 0
    {
      value := 0;
    }

    method UpdatePieceHash(seeds: Seeds, piece: Piece, color: Side, square: BoardSquare)
      modifies this
      ensures value == old(value) ^ seeds[PieceSeedIndex(piece, color, square)]
    {
      value := value ^ seeds[PieceSeedIndex(piece, color, square)];
    }

    method UpdateSideToMoveHash(seeds: Seeds, stm: Side)
      modifies this
      ensures value == old(value) ^ SideKey(seeds, stm)
    {
      value := value ^ SideKey(seeds, stm);
    }

    method UpdateCastleRightsHash(seeds: Seeds, rightsMask: bv8)
      requires rightsMask < 24
      modifies this
      ensures value == old(value) ^ seeds[CastleSeedIndex(rightsMask)]
    {
      value := value ^ seeds[CastleSeedIndex(rightsMask)];
    }

    method UpdateEnPassantHash(seeds: Seeds, square: Square)
      modifies this
      ensures value == old(value) ^ seeds[EnPassantSeedIndex(square)]
    {
      value := value ^ seeds[EnPassantSeedIndex(square)];
    }

    /** `operator=`. */
    method Assign(newValue: bv64)
      modifies this
      ensures value == newValue
    {
      value := newValue;
    }
  }

  /** Updating the same piece twice leaves the hash as it was. */
  method PieceUpdateTwice(hash: ZobristHash, seeds: Seeds, piece: Piece, color: Side, square: BoardSquare)
    modifies hash
    ensures hash.value == old(hash.value)
  {
    hash.UpdatePieceHash(seeds, piece, color, square);
    hash.UpdatePieceHash(seeds, piece, color, square);
    ToggleTwice(old(hash.value), seeds[PieceSeedIndex(piece, color, square)]);
  }
}
