/**
 * The ray table: for two squares on one rank, file or diagonal, the squares
 * a slider passes from `from` up to and including `to`; for any other pair,
 * the empty bitboard. `GenerateRay` walks one king step at a time in the
 * direction given by the signs of the rank and file differences.
 */
module Rays {
  import opened Squares
  import opened Bitboards

  /** The sign of an integer: -1, 0 or 1. */
  function Sign(x: int): int {
    if x > 0 then 1 else if x < 0 then -1 else 0
  }

  predicate IsSign(d: int) {
    -1 <= d <= 1
  }

  /** The sign bit of the byte holding an `int8_t` in two's complement. */
  lemma SignBit(x: int)
    requires 0 <= x < 256
    ensures (x as bv8) & 0x80 != 0 <==> x >= 128
  {
  }

  /** `GetSign`: 0 for 0; otherwise the sign bit `value & 0x80` picks -1 or 1. */
  function GetSign(value: int): (sign: int)
    requires -128 <= value < 128
    ensures sign == Sign(value)
  {
    if value == 0 then 0
    else
      SignBit(value % 256);
      if (value % 256) as bv8 & 0x80 != 0 then -1 else 1
  }

  function Abs(x: int): nat {
    if x < 0 then -x else x
  }

  function Max(a: nat, b: nat): nat {
    if a < b then b else a
  }

  /*
   * The reference geometry: alignment, line distance and betweenness, stated
   * on ranks and files with no walk.
   */

  /** `to` differs from `from` and shares a rank, a file or a diagonal with it. */
  predicate Aligned(from: BoardSquare, to: BoardSquare) {
    var dr := GetRank(to) - GetRank(from);
    var df := GetFile(to) - GetFile(from);
    from != to && (dr == 0 || df == 0 || Abs(dr) == Abs(df))
  }

  /** The number of king steps between the two squares: max(|Δrank|, |Δfile|). */
  function Distance(from: BoardSquare, to: BoardSquare): nat {
    Max(Abs(GetRank(to) - GetRank(from)), Abs(GetFile(to) - GetFile(from)))
  }

  /**
   * `s` lies strictly between `from` and `to` on one line: both halves are
   * aligned and head the same way.
   */
  predicate Between(from: BoardSquare, to: BoardSquare, s: BoardSquare) {
    Aligned(from, s) && Aligned(s, to) &&
    Sign(GetRank(s) - GetRank(from)) == Sign(GetRank(to) - GetRank(s)) &&
    Sign(GetFile(s) - GetFile(from)) == Sign(GetFile(to) - GetFile(s))
  }

  /*
   * The walk of `GenerateRay`.
   */

  /** `rank_inc` and `file_inc`. */
  function RankInc(from: BoardSquare, to: BoardSquare): (inc: int)
    ensures IsSign(inc)
  {
    GetSign(GetRank(to) - GetRank(from))
  }

  function FileInc(from: BoardSquare, to: BoardSquare): (inc: int)
    ensures IsSign(inc)
  {
    GetSign(GetFile(to) - GetFile(from))
  }

  /** `x` after `k` additions of `inc`. */
  function Offset(x: int, inc: int, k: nat): int
    requires IsSign(inc)
  {
    if inc > 0 then x + k else if inc < 0 then x - k else x
  }

  /** After `k` steps the walk is still within ranks and files 0..7. */
  predicate OnBoardAt(from: BoardSquare, rankInc: int, fileInc: int, k: nat)
    requires IsSign(rankInc) && IsSign(fileInc)
  {
    0 <= Offset(GetRank(from), rankInc, k) < 8 && 0 <= Offset(GetFile(from), fileInc, k) < 8
  }

  /** `Square(rank, file)` after `k` steps. */
  function WalkAt(from: BoardSquare, rankInc: int, fileInc: int, k: nat): (s: BoardSquare)
    requires IsSign(rankInc) && IsSign(fileInc) && OnBoardAt(from, rankInc, fileInc, k)
    ensures GetRank(s) == Offset(GetRank(from), rankInc, k)
    ensures GetFile(s) == Offset(GetFile(from), fileInc, k)
  {
    RankFileRoundTrip(Offset(GetRank(from), rankInc, k), Offset(GetFile(from), fileInc, k));
    FromRankFile(Offset(GetRank(from), rankInc, k), Offset(GetFile(from), fileInc, k))
  }

  predicate Moving(rankInc: int, fileInc: int) {
    IsSign(rankInc) && IsSign(fileInc) && !(rankInc == 0 && fileInc == 0)
  }

  /** A moving walk leaves the board within 8 steps. */
  lemma WalkBound(from: BoardSquare, rankInc: int, fileInc: int, k: nat)
    requires Moving(rankInc, fileInc) && OnBoardAt(from, rankInc, fileInc, k)
    ensures k <= 7
  {
  }

  /** The squares of the first `n` steps. */
  ghost function WalkSet(from: BoardSquare, rankInc: int, fileInc: int, n: nat): set<BoardSquare>
    requires IsSign(rankInc) && IsSign(fileInc)
    requires forall j :: 1 <= j <= n ==> OnBoardAt(from, rankInc, fileInc, j)
  {
    if n == 0 then {} else WalkSet(from, rankInc, fileInc, n - 1) + {WalkAt(from, rankInc, fileInc, n)}
  }

  /** `result |= Bitboard(square)` over the first `n` steps. */
  function PathMask(from: BoardSquare, rankInc: int, fileInc: int, n: nat): (mask: Bitboard)
    requires IsSign(rankInc) && IsSign(fileInc)
    requires forall j :: 1 <= j <= n ==> OnBoardAt(from, rankInc, fileInc, j)
  {
    if n == 0 then EMPTY
    else PathMask(from, rankInc, fileInc, n - 1) | FromSquare(WalkAt(from, rankInc, fileInc, n))
  }

  /** The mask holds exactly the squares of the walk. */
  lemma {:induction false} PathMaskSquares(from: BoardSquare, rankInc: int, fileInc: int, n: nat)
    requires IsSign(rankInc) && IsSign(fileInc)
    requires forall j :: 1 <= j <= n ==> OnBoardAt(from, rankInc, fileInc, j)
    ensures SquareSet(PathMask(from, rankInc, fileInc, n)) == WalkSet(from, rankInc, fileInc, n)
  {
    if n == 0 {
      SquaresConstants(from);
    } else {
      PathMaskSquares(from, rankInc, fileInc, n - 1);
      PathMaskStep(from, rankInc, fileInc, n);
    }
  }

  lemma PathMaskStep(from: BoardSquare, rankInc: int, fileInc: int, n: nat)
    requires IsSign(rankInc) && IsSign(fileInc) && n >= 1
    requires forall j :: 1 <= j <= n ==> OnBoardAt(from, rankInc, fileInc, j)
    requires SquareSet(PathMask(from, rankInc, fileInc, n - 1)) == WalkSet(from, rankInc, fileInc, n - 1)
    ensures SquareSet(PathMask(from, rankInc, fileInc, n)) == WalkSet(from, rankInc, fileInc, n)
  {
    var mask, previous := PathMask(from, rankInc, fileInc, n), PathMask(from, rankInc, fileInc, n - 1);
    var last, walked := WalkAt(from, rankInc, fileInc, n), WalkSet(from, rankInc, fileInc, n);
    forall s: BoardSquare
      ensures s in SquareSet(mask) <==> s in walked
    {
      OrOf(mask, previous, FromSquare(last), s);
      SingleMember(last, s);
    }
    SameSquares(SquareSet(mask), walked);
  }

  lemma {:induction false} WalkSetMemberUp(from: BoardSquare, rankInc: int, fileInc: int, n: nat, s: BoardSquare)
    requires IsSign(rankInc) && IsSign(fileInc)
    requires forall j :: 1 <= j <= n ==> OnBoardAt(from, rankInc, fileInc, j)
    requires s in WalkSet(from, rankInc, fileInc, n)
    ensures exists j :: 1 <= j <= n && WalkAt(from, rankInc, fileInc, j) == s
  {
    if s != WalkAt(from, rankInc, fileInc, n) {
      WalkSetMemberUp(from, rankInc, fileInc, n - 1, s);
    }
  }

  lemma {:induction false} WalkSetMemberDown(from: BoardSquare, rankInc: int, fileInc: int, n: nat, j: nat)
    requires IsSign(rankInc) && IsSign(fileInc)
    requires forall i :: 1 <= i <= n ==> OnBoardAt(from, rankInc, fileInc, i)
    requires 1 <= j <= n
    ensures WalkAt(from, rankInc, fileInc, j) in WalkSet(from, rankInc, fileInc, n)
  {
    if j < n {
      WalkSetMemberDown(from, rankInc, fileInc, n - 1, j);
    }
  }

  /** A moving walk never visits a square twice. */
  lemma WalkDistinct(from: BoardSquare, rankInc: int, fileInc: int, i: nat, j: nat)
    requires Moving(rankInc, fileInc)
    requires OnBoardAt(from, rankInc, fileInc, i) && OnBoardAt(from, rankInc, fileInc, j)
    requires i != j
    ensures WalkAt(from, rankInc, fileInc, i) != WalkAt(from, rankInc, fileInc, j)
  {
  }

  /** A moving walk of `n` steps covers `n` squares. */
  lemma {:induction false} WalkSetSize(from: BoardSquare, rankInc: int, fileInc: int, n: nat)
    requires Moving(rankInc, fileInc)
    requires forall j :: 1 <= j <= n ==> OnBoardAt(from, rankInc, fileInc, j)
    ensures |WalkSet(from, rankInc, fileInc, n)| == n
  {
    if n > 0 {
      WalkSetSize(from, rankInc, fileInc, n - 1);
      var last := WalkAt(from, rankInc, fileInc, n);
      if last in WalkSet(from, rankInc, fileInc, n - 1) {
        WalkSetMemberUp(from, rankInc, fileInc, n - 1, last);
        var j :| 1 <= j <= n - 1 && WalkAt(from, rankInc, fileInc, j) == last;
        WalkDistinct(from, rankInc, fileInc, j, n);
        assert false;
      }
    }
  }

  /**
   * A walk that reaches `to` after `n` steps in the direction (a, b) means
   * the squares are aligned, (a, b) are the signs `GenerateRay` computes and
   * `n` is their distance.
   */
  lemma Reaches(from: BoardSquare, to: BoardSquare, a: int, b: int, n: nat)
    requires Moving(a, b) && n >= 1
    requires Offset(GetRank(from), a, n) == GetRank(to) && Offset(GetFile(from), b, n) == GetFile(to)
    ensures Aligned(from, to) && Distance(from, to) == n
    ensures RankInc(from, to) == a && FileInc(from, to) == b
  {
    RankFileOfSquare(from);
  }

  /** Two aligned squares are joined by a walk of `Distance` steps that stays on the board. */
  lemma AlignedWalk(from: BoardSquare, to: BoardSquare)
    requires Aligned(from, to)
    ensures Moving(RankInc(from, to), FileInc(from, to))
    ensures Distance(from, to) >= 1
    ensures forall j :: 1 <= j <= Distance(from, to) ==> OnBoardAt(from, RankInc(from, to), FileInc(from, to), j)
    ensures WalkAt(from, RankInc(from, to), FileInc(from, to), Distance(from, to)) == to
  {
    RankFileOfSquare(from);
    RankFileOfSquare(to);
  }

  /** `GenerateRay(from, to)`: the walk up to `to` when aligned, otherwise EMPTY. */
  function RayMask(from: BoardSquare, to: BoardSquare): Bitboard {
    if Aligned(from, to) then
      AlignedWalk(from, to);
      PathMask(from, RankInc(from, to), FileInc(from, to), Distance(from, to))
    else
      EMPTY
  }

  /** Every ray square is `to` or strictly between the two squares. */
  lemma RayMemberUp(from: BoardSquare, to: BoardSquare, s: BoardSquare)
    requires s in SquareSet(RayMask(from, to))
    ensures Aligned(from, to) && (s == to || Between(from, to, s))
  {
    if !Aligned(from, to) {
      SquaresConstants(s);
      assert false;
    }
    AlignedWalk(from, to);
    var a, b, n := RankInc(from, to), FileInc(from, to), Distance(from, to);
    PathMaskSquares(from, a, b, n);
    WalkSetMemberUp(from, a, b, n, s);
    var j :| 1 <= j <= n && WalkAt(from, a, b, j) == s;
    StepIsOnRay(from, to, a, b, n, j);
  }

  /** Every step of the walk is `to` or strictly between. */
  lemma StepIsOnRay(from: BoardSquare, to: BoardSquare, a: int, b: int, n: nat, j: nat)
    requires Moving(a, b) && 1 <= j <= n
    requires forall i :: 1 <= i <= n ==> OnBoardAt(from, a, b, i)
    requires WalkAt(from, a, b, n) == to
    ensures WalkAt(from, a, b, j) == to || Between(from, to, WalkAt(from, a, b, j))
  {
    if j < n {
      InteriorIsBetween(from, to, a, b, n, j);
    }
  }

  /** A step of the walk short of `to` lies strictly between the two squares. */
  lemma InteriorIsBetween(from: BoardSquare, to: BoardSquare, a: int, b: int, n: nat, j: nat)
    requires Moving(a, b) && 1 <= j < n
    requires forall i :: 1 <= i <= n ==> OnBoardAt(from, a, b, i)
    requires WalkAt(from, a, b, n) == to
    ensures Between(from, to, WalkAt(from, a, b, j))
  {
    var s := WalkAt(from, a, b, j);
    Reaches(from, s, a, b, j);
    assert Offset(GetRank(s), a, n - j) == GetRank(to) && Offset(GetFile(s), b, n - j) == GetFile(to);
    Reaches(s, to, a, b, n - j);
  }

  /** `to` and every square strictly between are on the ray. */
  lemma RayMemberDown(from: BoardSquare, to: BoardSquare, s: BoardSquare)
    requires Aligned(from, to) && (s == to || Between(from, to, s))
    ensures s in SquareSet(RayMask(from, to))
  {
    AlignedWalk(from, to);
    var a, b, n := RankInc(from, to), FileInc(from, to), Distance(from, to);
    PathMaskSquares(from, a, b, n);
    if s == to {
      WalkSetMemberDown(from, a, b, n, n);
    } else {
      BetweenIsStep(from, to, s);
      WalkSetMemberDown(from, a, b, n, Distance(from, s));
    }
  }

  /** A square strictly between is reached by the walk towards `to` before `to` itself. */
  lemma BetweenIsStep(from: BoardSquare, to: BoardSquare, s: BoardSquare)
    requires Aligned(from, to) && Between(from, to, s)
    ensures Moving(RankInc(from, to), FileInc(from, to))
    ensures forall j :: 1 <= j <= Distance(from, to) ==> OnBoardAt(from, RankInc(from, to), FileInc(from, to), j)
    ensures 1 <= Distance(from, s) < Distance(from, to)
    ensures WalkAt(from, RankInc(from, to), FileInc(from, to), Distance(from, s)) == s
  {
    AlignedWalk(from, to);
    AlignedWalk(from, s);
    AlignedWalk(s, to);
    var k1, k2 := Distance(from, s), Distance(s, to);
    var a1, b1 := RankInc(from, s), FileInc(from, s);
    assert a1 == RankInc(s, to) && b1 == FileInc(s, to);
    assert Offset(GetRank(from), a1, k1 + k2) == GetRank(to) && Offset(GetFile(from), b1, k1 + k2) == GetFile(to);
    Reaches(from, to, a1, b1, k1 + k2);
  }

  /**
   * The ray from `from` to `to` holds exactly `to` and the squares strictly
   * between, when the two are aligned, and nothing otherwise.
   */
  lemma RayMember(from: BoardSquare, to: BoardSquare, s: BoardSquare)
    ensures s in SquareSet(RayMask(from, to)) <==> Aligned(from, to) && (s == to || Between(from, to, s))
  {
    if s in SquareSet(RayMask(from, to)) {
      RayMemberUp(from, to, s);
    }
    if Aligned(from, to) && (s == to || Between(from, to, s)) {
      RayMemberDown(from, to, s);
    }
  }

  /** The ray never contains its origin; the ray from a square to itself is empty. */
  lemma RayExcludesOrigin(from: BoardSquare, to: BoardSquare)
    ensures from !in SquareSet(RayMask(from, to))
    ensures RayMask(from, from) == EMPTY
  {
    if from in SquareSet(RayMask(from, to)) {
      RayMemberUp(from, to, from);
    }
  }

  /** An aligned ray has `Distance` squares; any other ray has none. */
  lemma RayLength(from: BoardSquare, to: BoardSquare)
    ensures PopCount(RayMask(from, to)) == if Aligned(from, to) then Distance(from, to) else 0
  {
    PopCountIsCardinality(RayMask(from, to));
    if Aligned(from, to) {
      AlignedWalk(from, to);
      PathMaskSquares(from, RankInc(from, to), FileInc(from, to), Distance(from, to));
      WalkSetSize(from, RankInc(from, to), FileInc(from, to), Distance(from, to));
    } else {
      SquaresConstants(0);
    }
  }

  /** `GenerateRay`: the signs of the rank and file steps, then the walk along them. */
  method GenerateRay(from: BoardSquare, to: BoardSquare) returns (result: Bitboard)
    ensures result == RayMask(from, to)
  {
    var rankInc := GetSign(GetRank(to) - GetRank(from));
    var fileInc := GetSign(GetFile(to) - GetFile(from));
    if rankInc == 0 && fileInc == 0 {
      SameSquareRay(from, to);
      return EMPTY;
    }
    result := Walk(from, to, rankInc, fileInc);
  }

  /** The walk of `GenerateRay` from the square next to `from` until `to` or the edge of the board. */
  method Walk(from: BoardSquare, to: BoardSquare, rankInc: int, fileInc: int) returns (result: Bitboard)
    requires rankInc == RankInc(from, to) && fileInc == FileInc(from, to) && !(rankInc == 0 && fileInc == 0)
    ensures result == RayMask(from, to)
  {
    result := EMPTY;
    var rank := GetRank(from) + rankInc;
    var file := GetFile(from) + fileInc;
    ghost var k: nat := 1;
    StartWalk(from, to, rankInc, fileInc);
    while 0 <= rank <= 7 && 0 <= file <= 7
      invariant Walking(from, to, rankInc, fileInc, k, rank, file, result)
      decreases 8 - k
    {
      var square := FromRankFile(rank, file);
      Advance(from, to, rankInc, fileInc, k, rank, file, result, square);
      result := result | FromSquare(square);
      if square == to {
        return result;
      }
      rank := rank + rankInc;
      file := file + fileInc;
      k := k + 1;
    }
    LeftBoard(from, to, rankInc, fileInc, k, rank, file, result);
    return EMPTY;
  }

  /** The loop invariant of `GenerateRay` after `k - 1` steps. */
  ghost predicate Walking(from: BoardSquare, to: BoardSquare, rankInc: int, fileInc: int, k: nat, rank: int, file: int, result: Bitboard) {
    rankInc == RankInc(from, to) && fileInc == FileInc(from, to) && Moving(rankInc, fileInc) &&
    1 <= k <= 8 &&
    rank == Offset(GetRank(from), rankInc, k) && file == Offset(GetFile(from), fileInc, k) &&
    (forall j :: 1 <= j < k ==> OnBoardAt(from, rankInc, fileInc, j)) &&
    (forall j :: 1 <= j < k ==> WalkAt(from, rankInc, fileInc, j) != to) &&
    result == PathMask(from, rankInc, fileInc, k - 1)
  }

  /** Before the first iteration: no step taken, nothing in the mask. */
  lemma StartWalk(from: BoardSquare, to: BoardSquare, rankInc: int, fileInc: int)
    requires rankInc == RankInc(from, to) && fileInc == FileInc(from, to) && !(rankInc == 0 && fileInc == 0)
    ensures Walking(from, to, rankInc, fileInc, 1, GetRank(from) + rankInc, GetFile(from) + fileInc, EMPTY)
  {
  }

  /** One iteration: either the ray is complete or the invariant holds one step further. */
  lemma Advance(from: BoardSquare, to: BoardSquare, rankInc: int, fileInc: int, k: nat, rank: int, file: int,
    result: Bitboard, square: Square)
    requires Walking(from, to, rankInc, fileInc, k, rank, file, result)
    requires 0 <= rank <= 7 && 0 <= file <= 7
    requires square == FromRankFile(rank, file)
    ensures square < 64
    ensures square == to ==> result | FromSquare(square) == RayMask(from, to)
    ensures square != to ==>
      k < 8 && Walking(from, to, rankInc, fileInc, k + 1, rank + rankInc, file + fileInc, result | FromSquare(square))
  {
    PathStep(from, rankInc, fileInc, k, result, square);
    if square == to {
      HitIsRay(from, to, rankInc, fileInc, k);
    } else {
      WalkBound(from, rankInc, fileInc, k);
      MissStep(from, to, rankInc, fileInc, k);
      OffsetNext(GetRank(from), rankInc, k);
      OffsetNext(GetFile(from), fileInc, k);
    }
  }

  /** The walk left the board without meeting `to`. */
  lemma LeftBoard(from: BoardSquare, to: BoardSquare, rankInc: int, fileInc: int, k: nat, rank: int, file: int, result: Bitboard)
    requires Walking(from, to, rankInc, fileInc, k, rank, file, result)
    requires !(0 <= rank <= 7 && 0 <= file <= 7)
    ensures RayMask(from, to) == EMPTY
  {
    MissIsNotAligned(from, to, rankInc, fileInc, k);
  }

  /** One iteration: step `k` is on the board and its square is OR-ed into the mask. */
  lemma PathStep(from: BoardSquare, rankInc: int, fileInc: int, k: nat, result: Bitboard, square: Square)
    requires IsSign(rankInc) && IsSign(fileInc) && k >= 1
    requires forall j :: 1 <= j < k ==> OnBoardAt(from, rankInc, fileInc, j)
    requires OnBoardAt(from, rankInc, fileInc, k)
    requires square == FromRankFile(Offset(GetRank(from), rankInc, k), Offset(GetFile(from), fileInc, k))
    requires result == PathMask(from, rankInc, fileInc, k - 1)
    ensures forall j :: 1 <= j <= k ==> OnBoardAt(from, rankInc, fileInc, j)
    ensures square == WalkAt(from, rankInc, fileInc, k) && square < 64
    ensures result | FromSquare(square) == PathMask(from, rankInc, fileInc, k)
  {
  }

  /** Step `k` missed `to` as well. */
  lemma MissStep(from: BoardSquare, to: BoardSquare, a: int, b: int, k: nat)
    requires IsSign(a) && IsSign(b)
    requires forall j :: 1 <= j <= k ==> OnBoardAt(from, a, b, j)
    requires forall j :: 1 <= j < k ==> WalkAt(from, a, b, j) != to
    requires WalkAt(from, a, b, k) != to
    ensures forall j :: 1 <= j < k + 1 ==> WalkAt(from, a, b, j) != to
  {
  }

  lemma OffsetNext(x: int, inc: int, k: nat)
    requires IsSign(inc)
    ensures Offset(x, inc, k) + inc == Offset(x, inc, k + 1)
  {
  }

  /** The walk reaching `to` at step `k` has built the whole ray. */
  lemma HitIsRay(from: BoardSquare, to: BoardSquare, a: int, b: int, k: nat)
    requires a == RankInc(from, to) && b == FileInc(from, to) && Moving(a, b) && k >= 1
    requires forall j :: 1 <= j <= k ==> OnBoardAt(from, a, b, j)
    requires WalkAt(from, a, b, k) == to
    ensures RayMask(from, to) == PathMask(from, a, b, k)
  {
    Reaches(from, to, a, b, k);
  }

  /** The walk leaving the board at step `k` without meeting `to` means the squares are not aligned. */
  lemma MissIsNotAligned(from: BoardSquare, to: BoardSquare, a: int, b: int, k: nat)
    requires a == RankInc(from, to) && b == FileInc(from, to) && Moving(a, b) && k >= 1
    requires forall j :: 1 <= j < k ==> OnBoardAt(from, a, b, j)
    requires forall j :: 1 <= j < k ==> WalkAt(from, a, b, j) != to
    requires !OnBoardAt(from, a, b, k)
    ensures RayMask(from, to) == EMPTY
  {
    if Aligned(from, to) {
      AlignedWalk(from, to);
      assert false;
    }
  }

  /** Equal signs on both axes mean the same square, which has the empty ray. */
  lemma SameSquareRay(from: BoardSquare, to: BoardSquare)
    requires RankInc(from, to) == 0 && FileInc(from, to) == 0
    ensures RayMask(from, to) == EMPTY
  {
    RankFileOfSquare(from);
    RankFileOfSquare(to);
  }

  /** `Rays_Internal`: the 64 x 64 table filled by `GenerateRay`. */
  class RaysInternal {
    const rays: array2<Bitboard>

    ghost predicate Valid()
      reads rays
    {
      rays.Length0 == 64 && rays.Length1 == 64 &&
      forall f, t :: 0 <= f < 64 && 0 <= t < 64 ==> rays[f, t] == RayMask(f, t)
    }

    constructor ()
      ensures fresh(rays) && Valid()
    {
      var table := new Bitboard[64, 64];
      for from := 0 to 64
        invariant forall f, t :: 0 <= f < from && 0 <= t < 64 ==> table[f, t] == RayMask(f, t)
      {
        FillRow(table, from);
      }
      rays := table;
    }

    /** The inner loop: row `from` of the table. */
    static method FillRow(table: array2<Bitboard>, from: BoardSquare)
      requires table.Length0 == 64 && table.Length1 == 64
      modifies table
      ensures forall t :: 0 <= t < 64 ==> table[from, t] == RayMask(from, t)
      ensures forall f, t :: 0 <= f < 64 && f != from && 0 <= t < 64 ==> table[f, t] == old(table[f, t])
    {
      for to := 0 to 64
        invariant forall t :: 0 <= t < to ==> table[from, t] == RayMask(from, t)
        invariant forall f, t :: 0 <= f < 64 && f != from && 0 <= t < 64 ==> table[f, t] == old(table[f, t])
      {
        var ray := GenerateRay(from, to);
        table[from, to] := ray;
      }
    }

    /** `GetRay`: the stored entry, which is the generated ray. */
    function GetRay(from: BoardSquare, to: BoardSquare): (ray: Bitboard)
      requires Valid()
      reads rays
      ensures ray == RayMask(from, to)
    {
      rays[from, to]
    }
  }

  /** `Rays::GetRay`: a lookup in the static `RAYS` object. */
  function GetRay(table: RaysInternal, from: BoardSquare, to: BoardSquare): (ray: Bitboard)
    requires table.Valid()
    reads table.rays
    ensures SquareSet(ray) == if Aligned(from, to) then SquareSet(RayMask(from, to)) else {}
  {
    SquaresConstants(0);
    table.GetRay(from, to)
  }

  /** The precomputed one-dimensional table `RAYS[from * 64 + to]`, holding the generated rays. */
  function RAYS(): (table: seq<Bitboard>)
    ensures |table| == 4096
  {
    seq(4096, i requires 0 <= i < 4096 => RayMask(i / 64, i % 64))
  }

  /** The index `from * 64 + to` of the one-dimensional tables. */
  function TableIndex(from: BoardSquare, to: BoardSquare): (i: nat)
    ensures i < 4096 && i / 64 == from && i % 64 == to
  {
    from * 64 + to
  }
}
