/**
 * `Bitboard`: a 64-bit set of squares, bit i standing for square i.
 *
 * The value operations are functions on `bv64`; the members that update a
 * bitboard in place (`SetBit`, `PopBit`, `PopLs1bBit`, `SwapBytes`,
 * `operator=`) are methods of `BitboardCell`, a bitboard variable. `Map`
 * walks the set bits of a copy in ascending order.
 */
module Bitboards {
  import opened Squares
  import opened BitArithmetic

  type Bitboard = bv64

  const RANK_1: Bitboard := 0x00000000000000FF
  const RANK_2: Bitboard := 0x000000000000FF00
  const RANK_3: Bitboard := 0x0000000000FF0000
  const RANK_4: Bitboard := 0x00000000FF000000
  const RANK_5: Bitboard := 0x000000FF00000000
  const RANK_6: Bitboard := 0x0000FF0000000000
  const RANK_7: Bitboard := 0x00FF000000000000
  const RANK_8: Bitboard := 0xFF00000000000000

  const FILE_A: Bitboard := 0x0101010101010101
  const FILE_B: Bitboard := 0x0202020202020202
  const FILE_C: Bitboard := 0x0404040404040404
  const FILE_D: Bitboard := 0x0808080808080808
  const FILE_E: Bitboard := 0x1010101010101010
  const FILE_F: Bitboard := 0x2020202020202020
  const FILE_G: Bitboard := 0x4040404040404040
  const FILE_H: Bitboard := 0x8080808080808080

  const FILE_AB: Bitboard := FILE_A | FILE_B
  const FILE_GH: Bitboard := FILE_G | FILE_H

  const FULL: Bitboard := 0xFFFFFFFFFFFFFFFF
  const EMPTY: Bitboard := 0

  const RANKS: seq<Bitboard> := [RANK_1, RANK_2, RANK_3, RANK_4, RANK_5, RANK_6, RANK_7, RANK_8]
  const FILES: seq<Bitboard> := [FILE_A, FILE_B, FILE_C, FILE_D, FILE_E, FILE_F, FILE_G, FILE_H]

  /** The ranks partition the board, so do the files; FILE_AB and FILE_GH are unions of two files. */
  lemma RanksAndFilesPartition()
    ensures forall i, j :: 0 <= i < j < 8 ==> RANKS[i] & RANKS[j] == EMPTY && FILES[i] & FILES[j] == EMPTY
    ensures RANK_1 | RANK_2 | RANK_3 | RANK_4 | RANK_5 | RANK_6 | RANK_7 | RANK_8 == FULL
    ensures FILE_A | FILE_B | FILE_C | FILE_D | FILE_E | FILE_F | FILE_G | FILE_H == FULL
    ensures FILE_AB == 0x0303030303030303 && FILE_GH == 0xC0C0C0C0C0C0C0C0
  {
  }

  /** `Bitboard(square)`: the set holding just `square`, `1 << square`. */
  function FromSquare(square: BoardSquare): Bitboard {
    ShiftedOne(square as bv7)
  }

  /** `GetBit`: whether `square` is in the set. */
  predicate GetBit(b: Bitboard, square: BoardSquare) {
    b & FromSquare(square) != 0
  }

  lemma AmountOfSquare(s: BoardSquare)
    ensures (s as bv7) as int == s
  {
  }

  lemma AmountOfNext(s: BoardSquare)
    requires s < 63
    ensures (s + 1) as bv7 == (s as bv7) + 1
  {
    AmountOfSquare(s);
    AmountOfSquare(s + 1);
    assert ((s as bv7) + 1) as int == s + 1;
  }

  /** `Bitboard(square)` has exactly one bit set. */
  lemma PowerOfTwo(square: BoardSquare)
    ensures FromSquare(square) != 0
    ensures FromSquare(square) & (FromSquare(square) - 1) == 0
  {
    ShiftedOneFacts(square as bv7, square as bv7);
  }

  /** Distinct squares have disjoint bits. */
  lemma SingleBit(square: BoardSquare, s: BoardSquare)
    ensures GetBit(FromSquare(square), s) <==> s == square
  {
    AmountOfSquare(square);
    AmountOfSquare(s);
    ShiftedOneFacts(square as bv7, s as bv7);
  }

  /** The next square's bit is the bit one place up. */
  lemma ShiftNext(s: BoardSquare)
    requires s < 63
    ensures FromSquare(s + 1) == FromSquare(s) << 1
  {
    AmountOfNext(s);
    ShiftedOneFacts(s as bv7, s as bv7);
  }

  lemma TopSquare()
    ensures FromSquare(63) == 0x8000000000000000
  {
  }

  /*
   * Each bit lemma below proves one implication about one operator; the
   * two-way statements are assembled from them.
   */
  lemma OrBitUp(a: Bitboard, b: Bitboard, s: BoardSquare)
    ensures GetBit(a | b, s) ==> GetBit(a, s) || GetBit(b, s)
  {
    PowerOfTwo(s);
    MaskOr(a, b, FromSquare(s));
  }

  lemma OrBitDown(a: Bitboard, b: Bitboard, s: BoardSquare)
    ensures GetBit(a, s) || GetBit(b, s) ==> GetBit(a | b, s)
  {
    PowerOfTwo(s);
    MaskOr(a, b, FromSquare(s));
  }

  lemma OrBit(a: Bitboard, b: Bitboard, s: BoardSquare)
    ensures GetBit(a | b, s) <==> GetBit(a, s) || GetBit(b, s)
  {
    OrBitUp(a, b, s);
    OrBitDown(a, b, s);
  }

  lemma AndBitUp(a: Bitboard, b: Bitboard, s: BoardSquare)
    ensures GetBit(a & b, s) ==> GetBit(a, s) && GetBit(b, s)
  {
    PowerOfTwo(s);
    MaskAnd(a, b, FromSquare(s));
  }

  lemma AndBitDown(a: Bitboard, b: Bitboard, s: BoardSquare)
    ensures GetBit(a, s) && GetBit(b, s) ==> GetBit(a & b, s)
  {
    PowerOfTwo(s);
    MaskAnd(a, b, FromSquare(s));
  }

  lemma AndBit(a: Bitboard, b: Bitboard, s: BoardSquare)
    ensures GetBit(a & b, s) <==> GetBit(a, s) && GetBit(b, s)
  {
    AndBitUp(a, b, s);
    AndBitDown(a, b, s);
  }

  lemma XorBitUp(a: Bitboard, b: Bitboard, s: BoardSquare)
    ensures GetBit(a ^ b, s) ==> GetBit(a, s) != GetBit(b, s)
  {
    PowerOfTwo(s);
    MaskXor(a, b, FromSquare(s));
  }

  lemma XorBitDown(a: Bitboard, b: Bitboard, s: BoardSquare)
    ensures GetBit(a, s) != GetBit(b, s) ==> GetBit(a ^ b, s)
  {
    PowerOfTwo(s);
    MaskXor(a, b, FromSquare(s));
  }

  lemma XorBit(a: Bitboard, b: Bitboard, s: BoardSquare)
    ensures GetBit(a ^ b, s) <==> GetBit(a, s) != GetBit(b, s)
  {
    XorBitUp(a, b, s);
    XorBitDown(a, b, s);
  }

  lemma NotBitUp(a: Bitboard, s: BoardSquare)
    ensures GetBit(!a, s) ==> !GetBit(a, s)
  {
    PowerOfTwo(s);
    MaskNot(a, FromSquare(s));
  }

  lemma NotBitDown(a: Bitboard, s: BoardSquare)
    ensures !GetBit(a, s) ==> GetBit(!a, s)
  {
    PowerOfTwo(s);
    MaskNot(a, FromSquare(s));
  }

  lemma NotBit(a: Bitboard, s: BoardSquare)
    ensures GetBit(!a, s) <==> !GetBit(a, s)
  {
    NotBitUp(a, s);
    NotBitDown(a, s);
  }

  lemma EmptyFullBit(s: BoardSquare)
    ensures !GetBit(EMPTY, s) && GetBit(FULL, s)
  {
    PowerOfTwo(s);
  }

  /** The mask of the squares below k. */
  function LowMask(k: int): Bitboard
    requires 0 <= k <= 64
  {
    if k == 0 then 0 else LowMask(k - 1) | FromSquare(k - 1)
  }

  lemma {:induction false} LowMaskValue(k: int)
    requires 0 <= k < 64
    ensures LowMask(k) == FromSquare(k) - 1
  {
    if k > 0 {
      LowMaskValue(k - 1);
      LowMaskStep(k);
    }
  }

  lemma LowMaskStep(k: int)
    requires 0 < k < 64
    requires LowMask(k - 1) == FromSquare(k - 1) - 1
    ensures LowMask(k) == FromSquare(k) - 1
  {
    PowerOfTwo(k - 1);
    ShiftNext(k - 1);
    DoubleMaskStep(LowMask(k - 1), FromSquare(k - 1), FromSquare(k), LowMask(k));
  }

  lemma LowMaskFull()
    ensures LowMask(64) == FULL
  {
    LowMaskValue(63);
    TopSquare();
    TopMaskStep(LowMask(63), FromSquare(63), LowMask(64));
  }

  lemma {:induction false} NoBitsBelow(x: Bitboard, k: int)
    requires 0 <= k <= 64
    requires forall s: BoardSquare :: s < k ==> !GetBit(x, s)
    ensures x & LowMask(k) == 0
  {
    if k > 0 {
      NoBitsBelow(x, k - 1);
      assert !GetBit(x, k - 1);
      AndOrZero(x, LowMask(k - 1), FromSquare(k - 1));
    }
  }

  /** A bitboard without any square is EMPTY. */
  lemma NoBitsIsEmpty(x: Bitboard)
    requires forall s: BoardSquare :: !GetBit(x, s)
    ensures x == EMPTY
  {
    NoBitsBelow(x, 64);
    LowMaskFull();
  }

  /** The set squares at or above `i`, in ascending order. */
  function SquaresFrom(b: Bitboard, i: int): seq<BoardSquare>
    requires 0 <= i <= 64
    decreases 64 - i
  {
    if i == 64 then [] else (if GetBit(b, i) then [i] else []) + SquaresFrom(b, i + 1)
  }

  /** The set squares in ascending order: the order in which `Map` visits them. */
  function SquareList(b: Bitboard): seq<BoardSquare> {
    SquaresFrom(b, 0)
  }

  /** The squares of a bitboard, as a set. */
  ghost function SquareSet(b: Bitboard): set<BoardSquare> {
    set s: BoardSquare | GetBit(b, s)
  }

  /** The elements of a list of squares. */
  ghost function Elements(xs: seq<BoardSquare>): set<BoardSquare> {
    set s | s in xs
  }

  predicate StrictlyIncreasing(xs: seq<int>) {
    forall i, j :: 0 <= i < j < |xs| ==> xs[i] < xs[j]
  }

  lemma {:induction false} SquaresFromMember(b: Bitboard, i: int, s: BoardSquare)
    requires 0 <= i <= 64
    ensures s in SquaresFrom(b, i) <==> i <= s && GetBit(b, s)
    decreases 64 - i
  {
    if i < 64 {
      SquaresFromMember(b, i + 1, s);
    }
  }

  lemma {:induction false} SquaresFromIncreasing(b: Bitboard, i: int)
    requires 0 <= i <= 64
    ensures forall k :: 0 <= k < |SquaresFrom(b, i)| ==> i <= SquaresFrom(b, i)[k]
    ensures StrictlyIncreasing(SquaresFrom(b, i))
    decreases 64 - i
  {
    if i < 64 {
      SquaresFromIncreasing(b, i + 1);
    }
  }

  /** A square is listed exactly when its bit is set. */
  lemma SquaresMember(b: Bitboard, s: BoardSquare)
    ensures s in SquareSet(b) <==> GetBit(b, s)
    ensures s in SquareList(b) <==> GetBit(b, s)
  {
    SquaresFromMember(b, 0, s);
  }

  /** The set and the list hold the same squares. */
  lemma SquareSetIsElements(b: Bitboard)
    ensures SquareSet(b) == Elements(SquareList(b))
  {
    forall s: BoardSquare
      ensures s in SquareSet(b) <==> s in Elements(SquareList(b))
    {
      SquaresMember(b, s);
    }
  }

  /** The list is in ascending order, so each square is listed once. */
  lemma SquareListIncreasing(b: Bitboard)
    ensures StrictlyIncreasing(SquareList(b))
  {
    SquaresFromIncreasing(b, 0);
  }

  /** Two bitboards holding the same squares are equal. */
  lemma Extensionality(a: Bitboard, b: Bitboard)
    requires SquareSet(a) == SquareSet(b)
    ensures a == b
  {
    var x := a ^ b;
    forall s: BoardSquare
      ensures !GetBit(x, s)
    {
      SquaresMember(a, s);
      SquaresMember(b, s);
      XorBit(a, b, s);
    }
    NoBitsIsEmpty(x);
  }

  lemma OrMember(a: Bitboard, b: Bitboard, s: BoardSquare)
    ensures s in SquareSet(a | b) <==> s in SquareSet(a) || s in SquareSet(b)
  {
    SquaresMember(a | b, s);
    SquaresMember(a, s);
    SquaresMember(b, s);
    OrBit(a, b, s);
  }

  lemma AndMember(a: Bitboard, b: Bitboard, s: BoardSquare)
    ensures s in SquareSet(a & b) <==> s in SquareSet(a) && s in SquareSet(b)
  {
    SquaresMember(a & b, s);
    SquaresMember(a, s);
    SquaresMember(b, s);
    AndBit(a, b, s);
  }

  lemma XorMember(a: Bitboard, b: Bitboard, s: BoardSquare)
    ensures s in SquareSet(a ^ b) <==> (s in SquareSet(a)) != (s in SquareSet(b))
  {
    SquaresMember(a ^ b, s);
    SquaresMember(a, s);
    SquaresMember(b, s);
    XorBit(a, b, s);
  }

  /*
   * The same facts about a named result. Callers that combine several
   * operations bind each intermediate bitboard to a variable and use these,
   * which keeps every proof obligation down to one operation.
   */

  lemma OrOf(x: Bitboard, a: Bitboard, b: Bitboard, s: BoardSquare)
    requires x == a | b
    ensures s in SquareSet(x) <==> s in SquareSet(a) || s in SquareSet(b)
  {
    OrMember(a, b, s);
  }

  lemma AndOf(x: Bitboard, a: Bitboard, b: Bitboard, s: BoardSquare)
    requires x == a & b
    ensures s in SquareSet(x) <==> s in SquareSet(a) && s in SquareSet(b)
  {
    AndMember(a, b, s);
  }

  lemma XorOf(x: Bitboard, a: Bitboard, b: Bitboard, s: BoardSquare)
    requires x == a ^ b
    ensures s in SquareSet(x) <==> (s in SquareSet(a)) != (s in SquareSet(b))
  {
    XorMember(a, b, s);
  }

  lemma NotMember(a: Bitboard, s: BoardSquare)
    ensures s in SquareSet(!a) <==> s !in SquareSet(a)
  {
    SquaresMember(!a, s);
    SquaresMember(a, s);
    NotBit(a, s);
  }

  lemma EmptyFullMember(s: BoardSquare)
    ensures s !in SquareSet(EMPTY) && s in SquareSet(FULL)
  {
    SquaresMember(EMPTY, s);
    SquaresMember(FULL, s);
    EmptyFullBit(s);
  }

  lemma SingleMember(square: BoardSquare, s: BoardSquare)
    ensures s in SquareSet(FromSquare(square)) <==> s == square
  {
    SquaresMember(FromSquare(square), s);
    SingleBit(square, s);
  }

  /** Sets of board squares are equal when they agree on every board square. */
  lemma SameSquares(x: set<BoardSquare>, y: set<BoardSquare>)
    requires forall s: BoardSquare :: s in x <==> s in y
    ensures x == y
  {
  }

  /** `|`, `&`, `^` and `~` are union, intersection, symmetric difference and complement. */
  lemma SquaresOr(a: Bitboard, b: Bitboard)
    ensures SquareSet(a | b) == SquareSet(a) + SquareSet(b)
  {
    var x, union := a | b, SquareSet(a) + SquareSet(b);
    forall s: BoardSquare
      ensures s in SquareSet(x) <==> s in union
    {
      OrOf(x, a, b, s);
    }
    SameSquares(SquareSet(x), union);
  }

  lemma SquaresAnd(a: Bitboard, b: Bitboard)
    ensures SquareSet(a & b) == SquareSet(a) * SquareSet(b)
  {
    forall s: BoardSquare
      ensures s in SquareSet(a & b) <==> s in SquareSet(a) && s in SquareSet(b)
    {
      AndMember(a, b, s);
    }
    SameSquares(SquareSet(a & b), SquareSet(a) * SquareSet(b));
  }

  /** The squares of `a & (b | c)`: those of `a` that are in `b` or in `c`. */
  lemma SquaresAndOr(a: Bitboard, b: Bitboard, c: Bitboard)
    ensures SquareSet(a & (b | c)) == SquareSet(a) * (SquareSet(b) + SquareSet(c))
  {
    SquaresOr(b, c);
    SquaresAnd(a, b | c);
  }

  lemma SquaresXor(a: Bitboard, b: Bitboard)
    ensures SquareSet(a ^ b) == (SquareSet(a) - SquareSet(b)) + (SquareSet(b) - SquareSet(a))
  {
    forall s: BoardSquare
      ensures s in SquareSet(a ^ b) <==> (s in SquareSet(a)) != (s in SquareSet(b))
    {
      XorMember(a, b, s);
    }
    SameSquares(SquareSet(a ^ b), (SquareSet(a) - SquareSet(b)) + (SquareSet(b) - SquareSet(a)));
  }

  lemma SquaresNot(a: Bitboard)
    ensures SquareSet(!a) == SquareSet(FULL) - SquareSet(a)
  {
    forall s: BoardSquare
      ensures s in SquareSet(!a) <==> s in SquareSet(FULL) - SquareSet(a)
    {
      NotMember(a, s);
      EmptyFullMember(s);
    }
    SameSquares(SquareSet(!a), SquareSet(FULL) - SquareSet(a));
  }

  /** EMPTY holds no square, FULL every square, `Bitboard(square)` just `square`. */
  lemma SquaresConstants(square: BoardSquare)
    ensures SquareSet(EMPTY) == {}
    ensures forall s: BoardSquare :: s in SquareSet(FULL)
    ensures SquareSet(FromSquare(square)) == {square}
  {
    forall s: BoardSquare
      ensures s !in SquareSet(EMPTY) && s in SquareSet(FULL)
      ensures s in SquareSet(FromSquare(square)) <==> s == square
    {
      EmptyFullMember(s);
      SingleMember(square, s);
    }
    SameSquares(SquareSet(EMPTY), {});
    SameSquares(SquareSet(FromSquare(square)), {square});
  }

  /** `SetBit` on a value: the square is added and nothing else changes. */
  function WithBit(b: Bitboard, square: BoardSquare): (r: Bitboard)
    ensures SquareSet(r) == SquareSet(b) + {square}
  {
    var r := b | FromSquare(square);
    forall s: BoardSquare
      ensures s in SquareSet(r) <==> s in SquareSet(b) + {square}
    {
      OrMember(b, FromSquare(square), s);
      SingleMember(square, s);
    }
    SameSquares(SquareSet(r), SquareSet(b) + {square});
    r
  }

  lemma WithoutMemberIn(b: Bitboard, square: BoardSquare, s: BoardSquare)
    ensures s in SquareSet(b & !FromSquare(square)) ==> s in SquareSet(b) && s != square
  {
    AndMember(b, !FromSquare(square), s);
    NotMember(FromSquare(square), s);
    SingleMember(square, s);
  }

  lemma WithoutMemberOut(b: Bitboard, square: BoardSquare, s: BoardSquare)
    ensures s in SquareSet(b) && s != square ==> s in SquareSet(b & !FromSquare(square))
  {
    AndMember(b, !FromSquare(square), s);
    NotMember(FromSquare(square), s);
    SingleMember(square, s);
  }

  lemma WithoutMember(b: Bitboard, square: BoardSquare, s: BoardSquare)
    ensures s in SquareSet(b & !FromSquare(square)) <==> s in SquareSet(b) && s != square
  {
    WithoutMemberIn(b, square, s);
    WithoutMemberOut(b, square, s);
  }

  /** `PopBit` on a value: the square is removed and nothing else changes. */
  function WithoutBit(b: Bitboard, square: BoardSquare): (r: Bitboard)
    ensures SquareSet(r) == SquareSet(b) - {square}
  {
    var r := b & !FromSquare(square);
    forall s: BoardSquare
      ensures s in SquareSet(r) <==> s in SquareSet(b) && s != square
    {
      WithoutMember(b, square, s);
    }
    SameSquares(SquareSet(r), SquareSet(b) - {square});
    r
  }

  /** `GetBit` after `SetBit` or `PopBit` on the same or another square. */
  lemma GetBitAfterUpdate(b: Bitboard, square: BoardSquare, s: BoardSquare)
    ensures GetBit(WithBit(b, square), s) <==> s == square || GetBit(b, s)
    ensures GetBit(WithoutBit(b, square), s) <==> s != square && GetBit(b, s)
  {
    SquaresMember(b, s);
    SquaresMember(WithBit(b, square), s);
    SquaresMember(WithoutBit(b, square), s);
  }

  /** Setting an absent square and popping it again gives the bitboard back. */
  lemma SetThenPop(b: Bitboard, square: BoardSquare)
    requires square !in SquareSet(b)
    ensures WithoutBit(WithBit(b, square), square) == b
  {
    var r := WithoutBit(WithBit(b, square), square);
    AddThenRemove(SquareSet(b), square);
    Extensionality(r, b);
  }

  /** Popping a present square and setting it again gives the bitboard back. */
  lemma PopThenSet(b: Bitboard, square: BoardSquare)
    requires square in SquareSet(b)
    ensures WithBit(WithoutBit(b, square), square) == b
  {
    var r := WithBit(WithoutBit(b, square), square);
    RemoveThenAdd(SquareSet(b), square);
    Extensionality(r, b);
  }

  lemma AddThenRemove(x: set<BoardSquare>, e: BoardSquare)
    requires e !in x
    ensures (x + {e}) - {e} == x
  {
  }

  lemma RemoveThenAdd(x: set<BoardSquare>, e: BoardSquare)
    requires e in x
    ensures (x - {e}) + {e} == x
  {
  }

  /** An empty bitboard lists no square; a non-empty one lists some. */
  lemma SquareListEmpty(b: Bitboard)
    ensures SquareList(b) == [] <==> b == EMPTY
  {
    if b == EMPTY {
      EmptyHasNoSquares(b);
    } else if SquareList(b) == [] {
      NoSquaresIsEmpty(b);
    }
  }

  lemma EmptyHasNoSquares(b: Bitboard)
    requires b == EMPTY
    ensures SquareList(b) == []
  {
    if SquareList(b) != [] {
      var s := SquareList(b)[0];
      SquaresMember(b, s);
      EmptyFullBit(s);
      assert false;
    }
  }

  lemma NoSquaresIsEmpty(b: Bitboard)
    requires SquareList(b) == []
    ensures b == EMPTY
  {
    forall s: BoardSquare
      ensures !GetBit(b, s)
    {
      SquaresMember(b, s);
    }
    NoBitsIsEmpty(b);
  }

  /** `Ls1bSquare`: the lowest set square (`std::countr_zero`), or 64 for an empty bitboard. */
  function Ls1bSquare(b: Bitboard): (s: Square)
    ensures s <= 64
    ensures s == 64 <==> b == EMPTY
    ensures s < 64 ==> s in SquareSet(b) && forall t :: t in SquareSet(b) ==> s <= t
  {
    if b == EMPTY then 64
    else
      SquareListEmpty(b);
      SquareListIncreasing(b);
      SquareSetIsElements(b);
      SquareList(b)[0]
  }

  /** `PopCount`: the number of set squares. */
  function PopCount(b: Bitboard): (n: nat)
    ensures n <= 64
    ensures n == 0 <==> b == EMPTY
  {
    SquareListEmpty(b);
    SquaresFromLength(b, 0);
    |SquareList(b)|
  }

  lemma {:induction false} SquaresFromLength(b: Bitboard, i: int)
    requires 0 <= i <= 64
    ensures |SquaresFrom(b, i)| <= 64 - i
    decreases 64 - i
  {
    if i < 64 {
      SquaresFromLength(b, i + 1);
    }
  }

  /** The population count is the number of distinct squares in the set. */
  lemma PopCountIsCardinality(b: Bitboard)
    ensures PopCount(b) == |SquareSet(b)|
  {
    SquareListIncreasing(b);
    DistinctCardinality(SquareList(b));
    SquareSetIsElements(b);
  }

  lemma {:induction false} DistinctCardinality(xs: seq<BoardSquare>)
    requires StrictlyIncreasing(xs)
    ensures |Elements(xs)| == |xs|
  {
    if xs != [] {
      assert StrictlyIncreasing(xs[1..]);
      DistinctCardinality(xs[1..]);
      ElementsCons(xs);
      HeadNotInTail(xs);
    }
  }

  lemma ElementsCons(xs: seq<BoardSquare>)
    requires xs != []
    ensures Elements(xs) == Elements(xs[1..]) + {xs[0]}
  {
    assert xs == [xs[0]] + xs[1..];
  }
  lemma HeadNotInTail(xs: seq<BoardSquare>)
    requires xs != [] && StrictlyIncreasing(xs)
    ensures xs[0] !in Elements(xs[1..])
  {
    forall k | 0 <= k < |xs| - 1
      ensures xs[1..][k] != xs[0]
    {
      assert xs[1..][k] == xs[k + 1];
    }
  }

  /** Two ascending lists with the same elements are equal. */
  lemma {:induction false} AscendingUnique(xs: seq<int>, ys: seq<int>)
    requires StrictlyIncreasing(xs) && StrictlyIncreasing(ys)
    requires forall v :: v in xs <==> v in ys
    ensures xs == ys
    decreases |xs|
  {
    if xs == [] && ys != [] {
      FirstIn(ys);
      assert false;
    } else if xs != [] && ys == [] {
      FirstIn(xs);
      assert false;
    } else if xs != [] && ys != [] {
      FirstIn(xs);
      FirstIn(ys);
      var i :| 0 <= i < |xs| && xs[i] == ys[0];
      var j :| 0 <= j < |ys| && ys[j] == xs[0];
      assert xs[0] <= xs[i] && ys[0] <= ys[j];
      TailsAgree(xs, ys);
      TailsAgree(ys, xs);
      AscendingUnique(xs[1..], ys[1..]);
      assert xs == [xs[0]] + xs[1..] && ys == [ys[0]] + ys[1..];
    }
  }

  lemma FirstIn(xs: seq<int>)
    requires xs != []
    ensures xs[0] in xs
  {
  }

  /** With equal heads and the same elements, every later element of `xs` is a later element of `ys`. */
  lemma TailsAgree(xs: seq<int>, ys: seq<int>)
    requires StrictlyIncreasing(xs) && StrictlyIncreasing(ys)
    requires xs != [] && ys != [] && xs[0] == ys[0]
    requires forall v :: v in xs <==> v in ys
    ensures forall v :: v in xs[1..] ==> v in ys[1..]
  {
    forall v | v in xs[1..]
      ensures v in ys[1..]
    {
      var k :| 0 <= k < |xs| - 1 && xs[1..][k] == v;
      assert xs[k + 1] == v && v in xs;
      var j :| 0 <= j < |ys| && ys[j] == v;
      assert j != 0;
      assert ys[1..][j - 1] == v;
    }
  }

  /** The bits below the lowest set square are all clear. */
  lemma BelowLowest(b: Bitboard, c: BoardSquare)
    requires b != EMPTY && c == Ls1bSquare(b)
    ensures b & (FromSquare(c) - 1) == 0
  {
    forall s: BoardSquare | s < c
      ensures !GetBit(b, s)
    {
      SquaresMember(b, s);
    }
    NoBitsBelow(b, c);
    LowMaskValue(c);
  }

  /** The lowest square of a non-empty bitboard is set. */
  lemma LowestIsSet(b: Bitboard, c: BoardSquare)
    requires b != EMPTY && c == Ls1bSquare(b)
    ensures GetBit(b, c)
  {
    SquaresMember(b, c);
  }

  lemma ClearLowestAt(b: Bitboard, c: BoardSquare)
    requires b & (FromSquare(c) - 1) == 0 && GetBit(b, c)
    ensures b & (b - 1) == b & !FromSquare(c)
  {
    PowerOfTwo(c);
    ClearLowest(b, FromSquare(c));
  }

  /** `m_Value &= m_Value - 1` removes exactly the lowest set square `c`. */
  lemma ClearLowestSquare(b: Bitboard, c: BoardSquare)
    requires b != EMPTY && c == Ls1bSquare(b)
    ensures b & (b - 1) == WithoutBit(b, c)
  {
    BelowLowest(b, c);
    LowestIsSet(b, c);
    ClearLowestAt(b, c);
  }

  /**
   * The square list of a non-empty bitboard is its lowest square `c`
   * followed by the square list of `rest`, the bitboard with `c` popped.
   */
  lemma PopLowestSquare(b: Bitboard, c: BoardSquare, rest: Bitboard)
    requires b != EMPTY && c == Ls1bSquare(b) && rest == b & (b - 1)
    ensures SquareList(b) == [c] + SquareList(rest)
  {
    ClearLowestSquare(b, c);
    SquareSetIsElements(b);
    SquareSetIsElements(rest);
    SquareListIncreasing(b);
    SquareListIncreasing(rest);
    LowestThenRest(SquareList(b), SquareList(rest), c);
  }

  /**
   * An ascending list whose elements are `c`, its least element, and those
   * of another ascending list without `c`, is `c` followed by that list.
   */
  lemma LowestThenRest(xs: seq<BoardSquare>, rest: seq<BoardSquare>, c: BoardSquare)
    requires StrictlyIncreasing(xs) && StrictlyIncreasing(rest)
    requires c in Elements(xs) && forall t :: t in Elements(xs) ==> c <= t
    requires Elements(rest) == Elements(xs) - {c}
    ensures xs == [c] + rest
  {
    var ys := [c] + rest;
    forall k | 0 <= k < |rest|
      ensures c < rest[k]
    {
      assert rest[k] in Elements(rest);
    }
    assert StrictlyIncreasing(ys);
    forall v | v in xs
      ensures v in ys
    {
      assert v in Elements(xs);
      if v != c {
        assert v in Elements(rest);
      }
    }
    forall v | v in ys
      ensures v in xs
    {
      if v == c {
        assert c in Elements(xs);
      } else {
        assert v in rest;
        assert v in Elements(rest);
        assert v in Elements(xs);
      }
    }
    AscendingUnique(xs, ys);
  }

  /** Popping the lowest square of a non-empty bitboard lowers the population count by one. */
  lemma PopLs1bBitCount(b: Bitboard, rest: Bitboard)
    requires b != EMPTY && rest == b & (b - 1)
    ensures PopCount(rest) == PopCount(b) - 1
  {
    PopLowestSquare(b, Ls1bSquare(b), rest);
  }

  /** `std::byteswap`: the eight bytes in reverse order. */
  function ByteSwapped(b: Bitboard): Bitboard {
    ((b & 0xFF) << 56) | (((b >> 8) & 0xFF) << 48) | (((b >> 16) & 0xFF) << 40) | (((b >> 24) & 0xFF) << 32) |
    (((b >> 32) & 0xFF) << 24) | (((b >> 40) & 0xFF) << 16) | (((b >> 48) & 0xFF) << 8) | ((b >> 56) & 0xFF)
  }

  /** Swapping the bytes twice restores the value. */
  lemma ByteSwapInvolution(b: Bitboard)
    ensures ByteSwapped(ByteSwapped(b)) == b
  {
  }

  /**
   * `Map(func)`: the squares handed to the callback, in the order of the
   * calls. The loop pops the lowest bit of a local copy until it is empty.
   */
  method Map(b: Bitboard) returns (visited: seq<BoardSquare>)
    ensures visited == SquareList(b)
  {
    var bitboard := b;
    visited := [];
    while bitboard != EMPTY
      invariant visited + SquareList(bitboard) == SquareList(b)
      decreases |SquareList(bitboard)|
    {
      var square := LowestSquareOf(bitboard);
      var next := bitboard & (bitboard - 1);
      MapStep(b, visited, bitboard, square, next);
      bitboard := next;
      visited := visited + [square];
    }
    MapDone(b, visited, bitboard);
  }

  /** One iteration of `Map`: the popped square moves from the bitboard to the visited list. */
  lemma MapStep(b: Bitboard, visited: seq<BoardSquare>, bitboard: Bitboard, square: BoardSquare, next: Bitboard)
    requires visited + SquareList(bitboard) == SquareList(b)
    requires bitboard != EMPTY && square == Ls1bSquare(bitboard) && next == bitboard & (bitboard - 1)
    ensures (visited + [square]) + SquareList(next) == SquareList(b)
    ensures |SquareList(next)| < |SquareList(bitboard)|
  {
    PopLowestSquare(bitboard, square, next);
    AppendStep(visited, square, SquareList(next));
  }

  /** `Ls1bSquare` of a non-empty bitboard, as a board square. */
  function LowestSquareOf(b: Bitboard): (s: BoardSquare)
    requires b != EMPTY
    ensures s == Ls1bSquare(b)
  {
    Ls1bSquare(b)
  }

  /** When the bitboard is empty, `Map` has visited every square. */
  lemma MapDone(b: Bitboard, visited: seq<BoardSquare>, bitboard: Bitboard)
    requires visited + SquareList(bitboard) == SquareList(b)
    requires bitboard == EMPTY
    ensures visited == SquareList(b)
  {
    EmptyHasNoSquares(bitboard);
  }

  lemma AppendStep(xs: seq<BoardSquare>, x: BoardSquare, ys: seq<BoardSquare>)
    ensures xs + ([x] + ys) == (xs + [x]) + ys
  {
  }

  /**
   * A bitboard variable, for the members that update `m_Value` in place.
   */
  class BitboardCell {
    var value: Bitboard

    constructor (initial: Bitboard := EMPTY)
      ensures value == initial
    {
      value := initial;
    }

    /** `operator=`. */
    method Assign(newValue: Bitboard)
      modifies this
      ensures value == newValue
    {
      value := newValue;
    }

    method SetBit(square: BoardSquare)
      modifies this
      ensures value == WithBit(old(value), square)
    {
      value := value | FromSquare(square);
    }

    method PopBit(square: BoardSquare)
      modifies this
      ensures value == WithoutBit(old(value), square)
    {
      value := value & !FromSquare(square);
    }

    method SwapBytes()
      modifies this
      ensures value == ByteSwapped(old(value))
    {
      value := ByteSwapped(value);
    }

    /** Returns the lowest square and clears it (the bitboard must be non-empty to yield a square). */
    method PopLs1bBit() returns (square: Square)
      modifies this
      ensures square == Ls1bSquare(old(value))
      ensures value == old(value) & (old(value) - 1)
      ensures old(value) != EMPTY ==> square < 64 && value == WithoutBit(old(value), square)
      ensures old(value) == EMPTY ==> square == 64 && value == EMPTY
    {
      var v := value;
      square := Ls1bSquare(v);
      var next := v & (v - 1);
      if v != EMPTY {
        ClearLowestSquare(v, square);
      }
      value := next;
    }
  }
}

/** Identities of 64-bit words used by the bitboard proofs. */
module BitArithmetic {
  lemma OrZero(a: bv64, b: bv64)
    ensures a | b == 0 <==> a == 0 && b == 0
  {
  }
  lemma AndDist(x: bv64, a: bv64, b: bv64)
    ensures x & (a | b) == (x & a) | (x & b)
  {
  }
  lemma AndOrZero(x: bv64, a: bv64, b: bv64)
    ensures x & (a | b) == 0 <==> x & a == 0 && x & b == 0
  {
    AndDist(x, a, b);
    OrZero(x & a, x & b);
  }
  lemma SingleMask(a: bv64, m: bv64)
    requires m != 0 && m & (m - 1) == 0
    ensures a & m == 0 || a & m == m
  {
  }
  lemma AndRegroup(a: bv64, b: bv64, m: bv64)
    ensures (a & b) & m == (a & m) & (b & m)
  {
  }
  lemma OrRegroup(a: bv64, b: bv64, m: bv64)
    ensures (a | b) & m == (a & m) | (b & m)
  {
  }
  lemma XorRegroup(a: bv64, b: bv64, m: bv64)
    ensures (a ^ b) & m == (a & m) ^ (b & m)
  {
  }
  lemma NotRegroup(a: bv64, m: bv64)
    ensures (!a) & m == m ^ (a & m)
  {
  }
  lemma MaskAnd(a: bv64, b: bv64, m: bv64)
    requires m != 0 && m & (m - 1) == 0
    ensures (a & b) & m != 0 <==> a & m != 0 && b & m != 0
  {
    SingleMask(a, m);
    SingleMask(b, m);
    AndRegroup(a, b, m);
  }
  lemma MaskOr(a: bv64, b: bv64, m: bv64)
    requires m != 0 && m & (m - 1) == 0
    ensures (a | b) & m != 0 <==> a & m != 0 || b & m != 0
  {
    SingleMask(a, m);
    SingleMask(b, m);
    OrRegroup(a, b, m);
  }
  lemma MaskXor(a: bv64, b: bv64, m: bv64)
    requires m != 0 && m & (m - 1) == 0
    ensures (a ^ b) & m != 0 <==> (a & m != 0) != (b & m != 0)
  {
    SingleMask(a, m);
    SingleMask(b, m);
    XorRegroup(a, b, m);
  }
  lemma MaskNot(a: bv64, m: bv64)
    requires m != 0 && m & (m - 1) == 0
    ensures (!a) & m != 0 <==> a & m == 0
  {
    SingleMask(a, m);
    NotRegroup(a, m);
  }
  /** Adding the bit `m` to the mask of the bits below it gives the mask below `m << 1`. */
  lemma DoubleMaskStep(low: bv64, m: bv64, next: bv64, union: bv64)
    requires m != 0 && m & (m - 1) == 0
    requires low == m - 1 && next == m << 1 && union == low | m
    ensures union == next - 1
  {
    DoubleMask(m);
  }

  /** Adding the top bit to the mask of the bits below it gives all bits. */
  lemma TopMaskStep(low: bv64, m: bv64, union: bv64)
    requires m == 0x8000000000000000 && low == m - 1 && union == low | m
    ensures union == 0xFFFFFFFFFFFFFFFF
  {
  }

  lemma DoubleMask(m: bv64)
    requires m != 0 && m & (m - 1) == 0
    ensures (m - 1) | m == (m << 1) - 1
  {
  }
  lemma ClearLowest(b: bv64, bit: bv64)
    requires bit != 0 && bit & (bit - 1) == 0
    requires b & (bit - 1) == 0 && b & bit != 0
    ensures b & (b - 1) == b & !bit
  {
  }
  function ShiftedOne(k: bv7): bv64
    requires k < 64
  {
    1 << k
  }
  lemma ShiftedOneFacts(k: bv7, j: bv7)
    requires k < 64 && j < 64
    ensures ShiftedOne(k) != 0 && ShiftedOne(k) & (ShiftedOne(k) - 1) == 0
    ensures ShiftedOne(k) & ShiftedOne(j) != 0 <==> k == j
    ensures k < 63 ==> ShiftedOne(k + 1) == ShiftedOne(k) << 1
  {
  }
}

/** Facts about bitboards holding a few given squares. */
module SquareMasks {
  import opened Squares
  import opened Bitboards
  import opened BitArithmetic

  /** A bitboard holding one square has that square as its lowest and clears to EMPTY. */
  lemma OneSquare(b: Bitboard, square: BoardSquare)
    requires SquareSet(b) == {square}
    ensures b != EMPTY && Ls1bSquare(b) == square && b & (b - 1) == EMPTY
  {
    SquaresConstants(square);
    ClearLowestSquare(b, square);
    Extensionality(b & (b - 1), EMPTY);
  }

  /** A bitboard holding a square is not EMPTY. */
  lemma MemberNotEmpty(b: Bitboard, s: BoardSquare)
    requires s in SquareSet(b)
    ensures b != EMPTY
  {
    SquaresConstants(s);
  }

  /** A bitboard holding two squares is neither empty nor a single bit. */
  lemma TwoSquares(b: Bitboard, first: BoardSquare, second: BoardSquare)
    requires first != second && first in SquareSet(b) && second in SquareSet(b)
    ensures b != EMPTY && b & (b - 1) != EMPTY
  {
    MemberNotEmpty(b, first);
    ClearLowestSquare(b, Ls1bSquare(b));
    if first == Ls1bSquare(b) {
      MemberNotEmpty(b & (b - 1), second);
    } else {
      MemberNotEmpty(b & (b - 1), first);
    }
  }
}
