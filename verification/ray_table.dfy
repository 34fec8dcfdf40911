/**
 * `Rays` over the one-dimensional tables: `GetRay` and
 * `GetRayExcludeDestination` read RAYS at `from * 64 + to`, and `GetXRay`
 * reads the separate XRAYS table, whose contents are external data and so a
 * parameter here.
 */
module RayTable {
  import opened Squares
  import opened Bitboards
  import opened Rays

  function GetRay(from: BoardSquare, to: BoardSquare): (ray: Bitboard)
    ensures ray == RayMask(from, to)
  {
    RAYS()[TableIndex(from, to)]
  }

  /** `RAYS[from * 64 + to] & ~Bitboard(to)`. */
  function GetRayExcludeDestination(from: BoardSquare, to: BoardSquare): (ray: Bitboard)
    ensures SquareSet(ray) == SquareSet(GetRay(from, to)) - {to}
  {
    var ray := RAYS()[TableIndex(from, to)] & !FromSquare(to);
    assert ray == WithoutBit(GetRay(from, to), to);
    ray
  }

  /** Without its destination, the ray holds exactly the squares strictly between. */
  lemma ExcludeDestinationIsBetween(from: BoardSquare, to: BoardSquare, s: BoardSquare)
    ensures s in SquareSet(GetRayExcludeDestination(from, to)) <==> Aligned(from, to) && Between(from, to, s)
  {
    RayMember(from, to, s);
    if s == to && Between(from, to, s) {
      assert Aligned(to, to);
    }
  }

  function GetXRay(xrays: seq<Bitboard>, from: BoardSquare, to: BoardSquare): (xray: Bitboard)
    requires |xrays| == 4096
    ensures xray == xrays[from * 64 + to]
  {
    xrays[TableIndex(from, to)]
  }

  /** Distinct square pairs use distinct table entries. */
  lemma TableIndexInjective(f1: BoardSquare, t1: BoardSquare, f2: BoardSquare, t2: BoardSquare)
    requires TableIndex(f1, t1) == TableIndex(f2, t2)
    ensures f1 == f2 && t1 == t2
  {
  }
}

/**
 * The variant of `Rays` whose `GetXRay` reads RAYS itself, so an x-ray is
 * the plain ray.
 */
module RayArrays {
  import opened Squares
  import opened Bitboards
  import opened Rays

  function GetRay(from: BoardSquare, to: BoardSquare): (ray: Bitboard)
    ensures ray == RayMask(from, to)
  {
    RAYS()[TableIndex(from, to)]
  }

  function GetRayExcludeDestination(from: BoardSquare, to: BoardSquare): (ray: Bitboard)
    ensures SquareSet(ray) == SquareSet(RayMask(from, to)) - {to}
  {
    var ray := RAYS()[TableIndex(from, to)] & !FromSquare(to);
    assert ray == WithoutBit(RayMask(from, to), to);
    ray
  }

  function GetXRay(from: BoardSquare, to: BoardSquare): (xray: Bitboard)
    ensures xray == GetRay(from, to)
  {
    RAYS()[TableIndex(from, to)]
  }
}
