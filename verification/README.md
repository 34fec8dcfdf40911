# Kitsune rules core in Dafny

A model of the rules core of the Kitsune chess engine, with proofs about it. The core covers five things:

- **Values.** Squares, 64-bit bitboards, the enums and constant tables, and the 16-bit move word with its text form.
- **Position bookkeeping.** The XOR Zobrist hash, the standard castle mask, the Chess960 castle rules, and the `Board`.
  - The `Board` part covers piece placement, removal and lookup, the default start position, the FEN constructor and the insufficient-material test.
- **Geometry.** The 64 x 64 ray table and its accessors.
- **Legality.** Attackers of a square, the attack map, the checkers mask and both pin-mask constructions.
  - The move generator's dispatch on the number of checkers and its standard castling generator.
  - The recursive perft node counter.
- **FEN text.** Splitting, field defaults, validation and printing.

Each file takes the source's own form:
- Value types and pure expressions are datatypes, functions and lemmas.
- Objects whose fields the engine updates are classes whose methods state the new state as a function of the old one: `Bitboard` as `BitboardCell`, `ZobristHash`, `CastleMask`, `CastleRules`, `Board`, `PinMask` and `MoveGenerator`.
- Loops are methods with invariants, proved against specification functions whose properties are proved as lemmas. These include the ray walk, the table fill, `Map`, the attack-map accumulation, the FEN row loop, `Split` and the perft sum.

| module | file | source |
|---|---|---|
| `Types` | types.dfy | engine/include/KitsuneEngine/types.h |
| `Squares` | square.dfy | engine/include/KitsuneEngine/core/square.h |
| `BitArithmetic`, `Bitboards`, `SquareMasks` | bitboard.dfy | engine/include/KitsuneEngine/core/bitboard.h |
| `Moves` | move.dfy | engine/include/KitsuneEngine/core/move.h, engine/src/core/move.cpp |
| `Zobrist` | zobrist.dfy | engine/include/KitsuneEngine/core/zobrist_hash.h |
| `CastleMasks` | castle_mask.dfy | engine/include/KitsuneEngine/core/castle_mask.h |
| `CastleRules` | castle_rules.dfy | engine/include/KitsuneEngine/core/castle_rules.h |
| `Rays` | rays.dfy | engine/src/attacks/rays.cpp |
| `RayTable`, `RayArrays` | ray_table.dfy | engine/include/KitsuneEngine/core/attacks/rays.h, engine/include/KitsuneEngine/core/attacks/rays_arrays.h |
| `Positions` | position.dfy | the read-only part of engine/include/KitsuneEngine/core/board.h, engine/src/core/board.cpp:10-40,110-116 |
| `Boards` | board.dfy | the `Board` class: board.h:75-96, engine/src/core/board.cpp:10-108 |
| `AttackSets` | attack_sets.dfy | the attack tables of engine/include/KitsuneEngine/core/attacks/attacks.h, by their geometry |
| `Attacks` | attacks.dfy | engine/src/core/attacks/attacks.cpp |
| `PinMasks` | pin_mask.dfy | engine/src/core/attacks/pin_mask.cpp |
| `LegacyPinMasks` | pin_mask_legacy.dfy | engine/src/attacks/pin_mask.cpp |
| `MoveGen` | move_gen.dfy | engine/include/KitsuneEngine/core/move_gen.h, engine/src/core/move_gen.cpp |
| `Perfts` | perft.dfy | engine/src/core/perft.cpp |
| `Fens` | fen.dfy | engine/src/core/fen.cpp |

Integer widths are explicit:
- bitboards are `bv64` and moves `bv16`;
- squares are bytes (0..255) and castle rights `bv8`, with the source's truncation to `uint8_t` written out;
- the perft count wraps modulo 2^64 and the move count is cast to a byte.

## Model

| member | source | states |
|---|---|---|
| Types.Opposite | engine/include/KitsuneEngine/types.h:10-12 | `~stm` is never `stm`, and the two sides add up to 1 |
| Types.OppositeSwaps | engine/include/KitsuneEngine/types.h:10-12 | `~` maps WHITE to BLACK and BLACK to WHITE, and applying it twice gives the side back |
| Types.MoveFlagLayout | engine/include/KitsuneEngine/types.h:24-39 | the 14 move flags are pairwise distinct, each is a 4-bit code shifted left by 6, and none has a bit outside bits 6-9 |
| Types.MoveFlagBits | engine/include/KitsuneEngine/types.h:24-39 | bit 8 is set in exactly the capture, en-passant and promotion-capture flags; bit 9 in exactly the eight promotion flags |
| Types.CastleRightsLayout | engine/include/KitsuneEngine/types.h:41-46 | the four castle rights are distinct single bits whose union is 0b1111 |
| Types.StartingPhase | engine/include/KitsuneEngine/types.h:48 | the starting material of both sides weighted by PHASE_VALUES is 24 |
| Types.CastleMaskEntries | engine/include/KitsuneEngine/types.h:50-53 | CASTLE_MASK has 64 entries: 0b1000 on a1, 0b1100 on e1, 0b0100 on h1, 0b0010 on a8, 0b0011 on e8, 0b0001 on h8, and 0 everywhere else |
| Squares.DefaultIsNull | engine/include/KitsuneEngine/core/square.h:16-26 | a default-constructed square holds NULL_SQUARE, which is 64 |
| Squares.GetRank | engine/include/KitsuneEngine/core/square.h:39-41 | the rank of a byte is below 32, and below 8 for a board square |
| Squares.GetFile | engine/include/KitsuneEngine/core/square.h:44-46 | the file is always in 0..7 |
| Squares.RankFileRoundTrip | engine/include/KitsuneEngine/core/square.h:28-46 | for rank and file below 8, `Square(rank, file)` is a board square whose rank and file are the ones given |
| Squares.RankFileOfSquare | engine/include/KitsuneEngine/core/square.h:28-46 | every board square is rebuilt from its own rank and file |
| Squares.FlippedMirrorsRank | engine/include/KitsuneEngine/core/square.h:49-51 | `Flipped` keeps the file, maps rank r to 7-r, stays on the board and is its own inverse |
| Squares.FromText | engine/include/KitsuneEngine/core/square.h:32-36 | the text constructor yields a board square whose file and rank are the two characters' coordinates clamped into 0..7 |
| Squares.ToString | engine/include/KitsuneEngine/core/square.h:54-63 | NULL_SQUARE prints as "-", any other square as two characters |
| Squares.ToStringShape | engine/include/KitsuneEngine/core/square.h:54-63 | a board square prints as a letter 'a'..'h' followed by a digit '1'..'8' |
| Squares.TextRoundTrip | engine/include/KitsuneEngine/core/square.h:32-63 | parsing the text of any board square gives that square back |
| Bitboards.RanksAndFilesPartition | engine/include/KitsuneEngine/core/bitboard.h:19-41 | RANK_1..RANK_8 are pairwise disjoint with union FULL, so are FILE_A..FILE_H, and FILE_AB, FILE_GH are the unions of their two files |
| Bitboards.PowerOfTwo | engine/include/KitsuneEngine/core/bitboard.h:47-49 | `Bitboard(square)` is non-zero with exactly one bit set |
| Bitboards.SingleBit | engine/include/KitsuneEngine/core/bitboard.h:47-66 | `GetBit` of `Bitboard(square)` holds on that square and on no other |
| Bitboards.SquaresMember | engine/include/KitsuneEngine/core/bitboard.h:64-66 | a square is in the set of a bitboard, and in the ascending list `Map` visits, exactly when `GetBit` holds |
| Bitboards.SquareListIncreasing | engine/include/KitsuneEngine/core/bitboard.h:85-91 | the squares of a bitboard are listed in strictly ascending order, each once |
| Bitboards.Extensionality | engine/include/KitsuneEngine/core/bitboard.h:14-16 | two bitboards holding the same squares are the same 64-bit value |
| Bitboards.SquaresOr | engine/include/KitsuneEngine/core/bitboard.h:109-119 | `a \| b` holds the union of the squares of `a` and `b` |
| Bitboards.SquaresAnd | engine/include/KitsuneEngine/core/bitboard.h:105-115 | `a & b` holds the intersection |
| Bitboards.SquaresXor | engine/include/KitsuneEngine/core/bitboard.h:96-98 | `a ^ b` (on the underlying `uint64_t`) holds the squares in exactly one of the two |
| Bitboards.SquaresNot | engine/include/KitsuneEngine/core/bitboard.h:55-57 | `~a` holds every square not in `a` |
| Bitboards.SquaresConstants | engine/include/KitsuneEngine/core/bitboard.h:40-49 | EMPTY holds no square, FULL every square, `Bitboard(square)` just that square |
| Bitboards.WithBit | engine/include/KitsuneEngine/core/bitboard.h:51-53 | `SetBit` adds the square and changes no other |
| Bitboards.WithoutBit | engine/include/KitsuneEngine/core/bitboard.h:55-57 | `PopBit` removes the square and changes no other |
| Bitboards.GetBitAfterUpdate | engine/include/KitsuneEngine/core/bitboard.h:51-66 | `GetBit` reads back the bit just set or cleared, and every other bit as it was |
| Bitboards.SetThenPop | engine/include/KitsuneEngine/core/bitboard.h:51-57 | setting an absent square and popping it gives the bitboard back |
| Bitboards.PopThenSet | engine/include/KitsuneEngine/core/bitboard.h:51-57 | popping a present square and setting it gives the bitboard back |
| Bitboards.SquareListEmpty | engine/include/KitsuneEngine/core/bitboard.h:88 | `while ( bitboard )` stops exactly when no square is left |
| Bitboards.Ls1bSquare | engine/include/KitsuneEngine/core/bitboard.h:81-83 | the trailing-zero count is the lowest set square, and 64 exactly for an empty bitboard |
| Bitboards.PopCount | engine/include/KitsuneEngine/core/bitboard.h:76-78 | the population count is at most 64 and zero exactly for EMPTY |
| Bitboards.PopCountIsCardinality | engine/include/KitsuneEngine/core/bitboard.h:76-78 | the population count is the number of distinct squares in the set |
| Bitboards.ClearLowestSquare | engine/include/KitsuneEngine/core/bitboard.h:71 | `m_Value &= m_Value - 1` on a non-empty bitboard removes exactly its lowest square |
| Bitboards.PopLowestSquare | engine/include/KitsuneEngine/core/bitboard.h:69-83 | the ascending square list of a non-empty bitboard is its lowest square followed by the list of what `PopLs1bBit` leaves |
| Bitboards.PopLs1bBitCount | engine/include/KitsuneEngine/core/bitboard.h:69-78 | popping the lowest bit of a non-empty bitboard lowers the population count by one |
| Bitboards.ByteSwapInvolution | engine/include/KitsuneEngine/core/bitboard.h:59-61 | swapping the bytes twice restores the value |
| Bitboards.Map | engine/include/KitsuneEngine/core/bitboard.h:85-91 | the callback is handed every set square once, in ascending order; the loop ends and the bitboard itself is untouched (it is passed by value) |
| Bitboards.MapStep | engine/include/KitsuneEngine/core/bitboard.h:88-90 | one iteration moves the lowest square from the local copy to the visited list and shrinks the copy |
| Bitboards.MapDone | engine/include/KitsuneEngine/core/bitboard.h:88-91 | once the copy is empty every square has been visited |
| Bitboards.BitboardCell.constructor | engine/include/KitsuneEngine/core/bitboard.h:43-45 | `Bitboard(value)` holds the value given, 0 by default |
| Bitboards.BitboardCell.Assign | engine/include/KitsuneEngine/core/bitboard.h:100-103 | `operator=` replaces the value |
| Bitboards.BitboardCell.SetBit | engine/include/KitsuneEngine/core/bitboard.h:51-53 | the new value is the old one with the square added |
| Bitboards.BitboardCell.PopBit | engine/include/KitsuneEngine/core/bitboard.h:55-57 | the new value is the old one with the square removed |
| Bitboards.BitboardCell.SwapBytes | engine/include/KitsuneEngine/core/bitboard.h:59-61 | the new value is the byte-swapped old one |
| Bitboards.BitboardCell.PopLs1bBit | engine/include/KitsuneEngine/core/bitboard.h:69-73 | returns the lowest square and clears exactly that bit; on an empty bitboard returns 64 and leaves it empty |
| Moves.GetFromSquare | engine/include/KitsuneEngine/core/move.h:23-25 | the origin read from bits 0-5 is a board square |
| Moves.GetToSquare | engine/include/KitsuneEngine/core/move.h:28-30 | the destination read from bits 10-15 is a board square |
| Moves.GetFlag | engine/include/KitsuneEngine/core/move.h:33-35 | the flag read back has no bit outside FLAG_MASK |
| Moves.GetPromotionPieceType | engine/include/KitsuneEngine/core/move.h:53-55 | the promotion piece is always one of KNIGHT, BISHOP, ROOK, QUEEN |
| Moves.FlagInsideMask | engine/include/KitsuneEngine/core/move.h:8 | every MoveFlag enumerator lies inside FLAG_MASK, bits 6-9 |
| Moves.FromRoundTrip | engine/include/KitsuneEngine/core/move.h:18-25 | the origin packed by `Move(from, to, flag)` is read back by `GetFromSquare` |
| Moves.ToRoundTrip | engine/include/KitsuneEngine/core/move.h:18-30 | the destination is read back by `GetToSquare` |
| Moves.FlagRoundTrip | engine/include/KitsuneEngine/core/move.h:18-35 | the flag is read back by `GetFlag` |
| Moves.DecodeEncode | engine/include/KitsuneEngine/core/move.h:18-35 | for board squares and any MoveFlag, decoding `Move(from, to, flag)` returns from, to and flag exactly |
| Moves.EncodeDecode | engine/include/KitsuneEngine/core/move.h:14-35 | every 16-bit word is the packing of its own origin, flag and destination, so the three fields cover bits 0-15 without overlap |
| Moves.TestsReadFlag | engine/include/KitsuneEngine/core/move.h:37-50 | `IsCapture`, `IsEnPassant` and `IsPromotion` read only the flag bits |
| Moves.CaptureFlags | engine/include/KitsuneEngine/core/move.h:38-40 | `IsCapture` holds exactly for CAPTURE, EN_PASSANT and the four promotion-capture flags |
| Moves.PromotionFlags | engine/include/KitsuneEngine/core/move.h:48-50 | `IsPromotion` holds exactly for the eight promotion flags |
| Moves.EnPassantAsWritten | engine/include/KitsuneEngine/core/move.h:43-45 | as written, the en-passant test holds exactly for EN_PASSANT_FLAG and the bishop and queen promotion captures |
| Moves.BishopPromotionCaptureLooksEnPassant | engine/include/KitsuneEngine/core/move.h:43-45 | a bishop promotion capture (e7xd8=B) passes the en-passant test though its flag is not EN_PASSANT_FLAG |
| Moves.EnPassantExactly | engine/include/KitsuneEngine/core/move.h:43-45 | the corrected test holds for a packed move exactly when its flag is EN_PASSANT_FLAG |
| Moves.PromotionPieces | engine/include/KitsuneEngine/core/move.h:53-55 | knight, bishop, rook and queen promotion flags, capture or not, map to KNIGHT, BISHOP, ROOK, QUEEN |
| Moves.PromotionPieceOfMove | engine/include/KitsuneEngine/core/move.h:53-55 | the promotion piece of a packed move is the one its flag names |
| Moves.ToString | engine/src/core/move.cpp:7-25 | the null move prints as "null_move"; every other move as 4 or 5 characters |
| Moves.CastleDestination | engine/src/core/move.cpp:14-18 | a castle prints its destination on the c-file for the queen-side flag and on the g-file otherwise, on rank 1 when the origin is below 32 and on rank 8 otherwise |
| Moves.ToStringParses | engine/src/core/move.cpp:5-24 | a move not printed as a castle prints as origin text then destination text, which parse back, plus one of 'n','b','r','q' exactly for promotions, chosen by the promotion piece |
| Moves.CastleToStringParses | engine/src/core/move.cpp:14-18 | outside 960 mode a castle prints as four characters that parse back to the origin and the printed destination |
| Moves.WhiteKingSideCastleText | engine/src/core/move.cpp:14-18 | the white king-side castle prints as "e1g1" |
| Zobrist.PieceSeedIndex | engine/include/KitsuneEngine/core/zobrist_hash.h:13 | the piece entry `(pieceType + pieceColor * 6) * 64 + square` is below 768, so it never touches the side, castle or en-passant entries |
| Zobrist.PieceSeedIndexInjective | engine/include/KitsuneEngine/core/zobrist_hash.h:13 | distinct (piece, colour, square) triples read distinct piece entries |
| Zobrist.CastleSeedIndex | engine/include/KitsuneEngine/core/zobrist_hash.h:6-21 | `769 + rightsMask` stays inside the 793-entry table for masks below 24 |
| Zobrist.EnPassantSeedIndex | engine/include/KitsuneEngine/core/zobrist_hash.h:6-25 | `785 + file` stays inside the table for every square, NULL_SQUARE included |
| Zobrist.SeedRegions | engine/include/KitsuneEngine/core/zobrist_hash.h:6-25 | for a rights mask below 16, the piece, side, castle and en-passant entries lie in disjoint, ordered parts of the table |
| Zobrist.ToggleTwice | engine/include/KitsuneEngine/core/zobrist_hash.h:12-26 | XOR-ing the same key twice restores the hash |
| Zobrist.TogglesCommute | engine/include/KitsuneEngine/core/zobrist_hash.h:12-26 | any two updates commute, each being an XOR |
| Zobrist.SideKeyValues | engine/include/KitsuneEngine/core/zobrist_hash.h:16-18 | `UpdateSideToMoveHash(WHITE)` leaves the hash unchanged; BLACK XORs in SEEDS[768] |
| Zobrist.ZobristHash.constructor | engine/include/KitsuneEngine/core/zobrist_hash.h:10 | a fresh hash is 0 |
| Zobrist.ZobristHash.UpdatePieceHash | engine/include/KitsuneEngine/core/zobrist_hash.h:12-14 | the new hash is the old one XOR the piece entry |
| Zobrist.ZobristHash.UpdateSideToMoveHash | engine/include/KitsuneEngine/core/zobrist_hash.h:16-18 | the new hash is the old one XOR `SEEDS[768] * sideToMove` |
| Zobrist.ZobristHash.UpdateCastleRightsHash | engine/include/KitsuneEngine/core/zobrist_hash.h:20-22 | the new hash is the old one XOR the castle entry of the mask |
| Zobrist.ZobristHash.UpdateEnPassantHash | engine/include/KitsuneEngine/core/zobrist_hash.h:24-26 | the new hash is the old one XOR the en-passant entry of the square's file |
| Zobrist.ZobristHash.Assign | engine/include/KitsuneEngine/core/zobrist_hash.h:32-35 | `operator=` replaces the value |
| Zobrist.PieceUpdateTwice | engine/include/KitsuneEngine/core/zobrist_hash.h:12-14 | two `UpdatePieceHash` calls with the same arguments restore the hash |
| CastleMasks.Overwrite | engine/include/KitsuneEngine/core/castle_mask.h:9-20 | replaying the constructor's writes keeps a 64-entry table |
| CastleMasks.LastWriteWins | engine/include/KitsuneEngine/core/castle_mask.h:14-20 | an entry holds the value of the last write naming its square |
| CastleMasks.Unwritten | engine/include/KitsuneEngine/core/castle_mask.h:9-20 | an entry no write names keeps its zero initialiser |
| CastleMasks.CastleMask.constructor | engine/include/KitsuneEngine/core/castle_mask.h:12-21 | the table is the zero table after the writes rook 0 (0b1000), white king (0b1100), rook 1 (0b0100), rook 2 (0b0010), black king (0b0011), rook 3 (0b0001), in that order, with NULL_SQUARE slots skipped |
| CastleMasks.CastleMask.WriteEntry | engine/include/KitsuneEngine/core/castle_mask.h:15-19 | one unconditional write extends the replayed writes by one |
| CastleMasks.CastleMask.WriteOptional | engine/include/KitsuneEngine/core/castle_mask.h:14-20 | a rook write happens only for a slot that is not NULL_SQUARE |
| CastleMasks.CastleMask.GetMask | engine/include/KitsuneEngine/core/castle_mask.h:24-26 | `GetMask` is a side-effect-free read of the stored entry |
| CastleMasks.MaskValues | engine/include/KitsuneEngine/core/castle_mask.h:14-20 | with six distinct squares, the rooks get 0b1000, 0b0100, 0b0010, 0b0001, the kings 0b1100 and 0b0011, and every other square 0 |
| CastleMasks.NoRooksOnlyKings | engine/include/KitsuneEngine/core/castle_mask.h:14-20 | with every rook slot NULL_SQUARE only the two king entries are non-zero |
| CastleMasks.StandardSetupIsCastleMask | engine/include/KitsuneEngine/core/castle_mask.h:12-21 | built with rooks a1, h1, a8, h8 and kings e1, e8 the table equals CASTLE_MASK |
| CastleRules.LastOnSideIsGreatest | engine/include/KitsuneEngine/core/castle_rules.h:15-23 | over the ascending `Map` order, the slot ends holding the greatest rook on its side of the king, because later rooks overwrite earlier ones |
| CastleRules.RookSlotsChosen | engine/include/KitsuneEngine/core/castle_rules.h:15-23 | slot 0 holds the highest white rook below the white king, slot 1 the highest at or above it; slots 2 and 3 likewise for black |
| CastleRules.SlotsOnBoard | engine/include/KitsuneEngine/core/castle_rules.h:9-23 | with a rook on each side of each king every slot is written, with a board square |
| CastleRules.RookSlotsDistinct | engine/include/KitsuneEngine/core/castle_rules.h:15-30 | with the kings off the rook squares and no square holding rooks of both colours, the four slots and two kings are six distinct squares, so each gets its own mask bits |
| CastleRules.CastleRules.constructor | engine/include/KitsuneEngine/core/castle_rules.h:13-31 | the slots are the ones the two `Map` loops choose, all board squares, and the mask is the zero table after rook 0, white king, rook 1, rook 2, black king, rook 3 get 0b1000, 0b1100, 0b0100, 0b0010, 0b0011, 0b0001 |
| CastleRules.CastleRules.FindRookSlots | engine/include/KitsuneEngine/core/castle_rules.h:15-23 | the two `Map` loops fill a fresh 4-slot array with the slots `RookSlots` specifies |
| CastleRules.CastleRules.AssignSlots | engine/include/KitsuneEngine/core/castle_rules.h:15-23 | one `Map` writes slot `base` for each rook below the king and slot `base + 1` for each other rook, the last write winning, and leaves the other two slots alone |
| CastleRules.CastleRules.BuildMask | engine/include/KitsuneEngine/core/castle_rules.h:25-30 | the six unconditional writes, in source order, on a zeroed table |
| CastleRules.CastleRules.GetMask | engine/include/KitsuneEngine/core/castle_rules.h:34-36 | a side-effect-free read of the stored entry |
| CastleRules.CastleRules.GetRookSquare | engine/include/KitsuneEngine/core/castle_rules.h:39-41 | returns slot `idx` |
| Rays.GetSign | engine/src/attacks/rays.cpp:47-53 | the sign-bit test on the `int8_t` difference yields the mathematical sign: 0, -1 or 1 |
| Rays.WalkBound | engine/src/attacks/rays.cpp:31-42 | a walk with a non-zero direction is off the board after at most 7 steps, so the `while` loop ends |
| Rays.PathMaskSquares | engine/src/attacks/rays.cpp:33-35 | the accumulated `result |= Bitboard(square)` holds exactly the squares the walk visited |
| Rays.WalkSetSize | engine/src/attacks/rays.cpp:33-42 | the walk never repeats a square, so `n` steps put `n` squares in the mask |
| Rays.Reaches | engine/src/attacks/rays.cpp:23-36 | a walk that hits `to` proves the two squares aligned, its direction the signs line 23-24 compute and its length their king distance |
| Rays.AlignedWalk | engine/src/attacks/rays.cpp:23-42 | for aligned squares the walk in the computed direction stays on the board and reaches `to` after `Distance` steps |
| Rays.RayMember | engine/src/attacks/rays.cpp:22-45 | a square is on the generated ray exactly when the squares are aligned and it is `to` or strictly between them; unaligned pairs give the empty ray |
| Rays.RayExcludesOrigin | engine/src/attacks/rays.cpp:26-32 | the origin is never on its ray, and the ray from a square to itself is `EMPTY` |
| Rays.RayLength | engine/src/attacks/rays.cpp:22-45 | an aligned ray has `Distance(from, to)` squares and any other has none |
| Rays.GenerateRay | engine/src/attacks/rays.cpp:22-28 | signs first, `EMPTY` for a zero direction, otherwise the walk; the result is the ray `RayMask` specifies |
| Rays.Walk | engine/src/attacks/rays.cpp:30-44 | the loop returns the ray as soon as it reaches `to` and `EMPTY` when it leaves the board first; either way the result is `RayMask(from, to)` |
| Rays.StartWalk | engine/src/attacks/rays.cpp:30-32 | the loop invariant holds before the first step with an empty mask |
| Rays.Advance | engine/src/attacks/rays.cpp:34-41 | one iteration either completes the ray (the early return) or keeps the invariant one step further |
| Rays.LeftBoard | engine/src/attacks/rays.cpp:33-44 | leaving the board without meeting `to` means the ray is `EMPTY` |
| Rays.HitIsRay | engine/src/attacks/rays.cpp:36-37 | the mask at the moment the walk meets `to` is the whole ray |
| Rays.MissIsNotAligned | engine/src/attacks/rays.cpp:33-44 | a walk in the computed direction that misses `to` means the squares are not aligned |
| Rays.SameSquareRay | engine/src/attacks/rays.cpp:26-28 | two zero signs mean `from == to`, whose ray is `EMPTY` |
| Rays.RaysInternal.constructor | engine/src/attacks/rays.cpp:9-15 | after the nested loops every one of the 64 x 64 entries holds the generated ray |
| Rays.RaysInternal.FillRow | engine/src/attacks/rays.cpp:11-13 | the inner loop fills row `from` with the generated rays and leaves every other row alone |
| Rays.RaysInternal.GetRay | engine/src/attacks/rays.cpp:17-20 | the stored entry is the generated ray |
| Rays.GetRay | engine/src/attacks/rays.cpp:56-60 | the lookup through the static table holds the ray's squares for aligned pairs and none otherwise |
| Rays.TableIndex | engine/include/KitsuneEngine/core/attacks/rays.h:10 | `from * 64 + to` is below 4096 and recovers `from` and `to` by division and remainder |
| RayTable.GetRay | engine/include/KitsuneEngine/core/attacks/rays.h:9-11 | the one-dimensional table entry is the generated ray |
| RayTable.GetRayExcludeDestination | engine/include/KitsuneEngine/core/attacks/rays.h:14-16 | the ray with `to` removed and nothing else changed |
| RayTable.ExcludeDestinationIsBetween | engine/include/KitsuneEngine/core/attacks/rays.h:14-16 | without its destination the ray holds exactly the squares strictly between two aligned squares |
| RayTable.GetXRay | engine/include/KitsuneEngine/core/attacks/rays.h:19-21 | reads entry `from * 64 + to` of the separate x-ray table |
| RayTable.TableIndexInjective | engine/include/KitsuneEngine/core/attacks/rays.h:10-20 | distinct square pairs never share a table entry |
| RayArrays.GetRay | engine/include/KitsuneEngine/core/attacks/rays_arrays.h:9-11 | the table entry is the generated ray |
| RayArrays.GetRayExcludeDestination | engine/include/KitsuneEngine/core/attacks/rays_arrays.h:14-16 | the ray with `to` removed |
| RayArrays.GetXRay | engine/include/KitsuneEngine/core/attacks/rays_arrays.h:19-21 | this variant reads `RAYS`, so the x-ray is the plain ray |
| Positions.AllOccupancy | engine/src/core/attacks/attacks.cpp:10 | the occupancy `GetOccupancy()` hands the attack code holds exactly the squares of both sides |
| Positions.SideWithinOccupancy | engine/include/KitsuneEngine/core/board.h:49-51 | either side's occupancy lies within the combined occupancy |
| Positions.PieceMask | engine/include/KitsuneEngine/core/board.h:58-61 | the pieces of one type and one side: the intersection of that side's occupancy with that type's bitboard |
| Positions.StmKingSquare | engine/include/KitsuneEngine/core/board.h:63-66 | 64 exactly when the side to move has no king; otherwise a square holding a king of that side, the lowest such |
| Positions.EmptySquares | engine/src/core/board.cpp:112 | a bitboard tests false exactly when it holds no square |
| Positions.PieceColorOnSquare | engine/include/KitsuneEngine/core/board.h:68-73 | BLACK exactly on squares black occupies; WHITE everywhere else, empty squares included |
| Positions.ColourMasks | engine/src/core/board.cpp:114-115 | the constants 0x55AA55AA55AA55AA and 0xAA55AA55AA55AA55 are exactly the light and the dark squares |
| Positions.Masked | engine/src/core/board.cpp:113-115 | `(b & m) == b` holds exactly when every square of `b` is in `m` |
| Positions.InsufficientMaterialMeaning | engine/src/core/board.cpp:110-116 | insufficient material exactly when the phase is at most 2 and there are no pawns, and at phase 2 the bishops are not all one side's and all stand on one square colour |
| Positions.SameColour | engine/src/core/board.cpp:114-115 | a set of squares lies on one colour exactly when it fits in the light mask or in the dark mask |
| Positions.PlacePieceEffect | engine/include/KitsuneEngine/core/board.h:86-90 | placing adds the square to its colour's occupancy and its type's bitboard and toggles its hash key; every other bitboard and field is unchanged |
| Positions.LiftPieceEffect | engine/include/KitsuneEngine/core/board.h:92-96 | lifting removes the square from both bitboards and toggles the same hash key; nothing else changes |
| Positions.LiftUndoesPlace | engine/include/KitsuneEngine/core/board.h:86-96 | placing a piece on a square neither of its bitboards held and then removing it restores the whole position, hash included |
| Positions.PlaceUndoesLift | engine/include/KitsuneEngine/core/board.h:86-96 | removing a piece that is there and placing it again restores the whole position |
| Positions.DefaultQueensAndKings | engine/src/core/board.cpp:19-23 | the `SetBit` calls put the queens on d1, d8 and the kings on e1, e8 |
| Positions.DefaultIsStandardSetup | engine/src/core/board.cpp:10-30 | the default board is the standard setup: disjoint piece bitboards covering exactly the occupied squares, disjoint sides, white to move, all four rights, no en-passant square and phase 24 |
| Positions.DefaultKing | engine/src/core/board.cpp:22-27 | white moves first and its king is on e1 |
| Positions.RookSlotsAsWrittenHoldNoRook | engine/src/core/board.cpp:34-37 | the rook slots 8, 4, 2, 1 name no square holding a rook of the slot's side in the default board |
| Positions.StandardRooksHoldRooks | engine/src/core/board.cpp:17-23 | the slots a1, h1, a8, h8 each hold a rook of their side, slots 0 and 2 below their king's square and 1 and 3 above it |
| Boards.PieceFrom | engine/include/KitsuneEngine/core/board.h:77-83 | NULL_PIECE exactly when no type from `first` on holds the square; otherwise the lowest type that does |
| Boards.PlacedPieceFound | engine/include/KitsuneEngine/core/board.h:76-90 | a piece placed on an empty square is the piece `GetPieceOnSquare` then finds there |
| Boards.LiftedPieceGone | engine/include/KitsuneEngine/core/board.h:76-96 | removing the only piece on a square leaves `GetPieceOnSquare` answering NULL_PIECE |
| Boards.LetterColour | engine/src/core/board.cpp:53-67 | a letter is black exactly when lower case, and the twelve piece letters name the six types in the switch's order |
| Boards.CharStepGrows | engine/src/core/board.cpp:53-68 | one placement character adds at most its own square to either side |
| Boards.PlaceRowWithinRank | engine/src/core/board.cpp:45-70 | a FEN row only ever adds squares of its own rank, from the current file on |
| Boards.PlaceRowKeepsFields | engine/src/core/board.cpp:45-70 | a row changes nothing but the bitboards and the hash |
| Boards.PlaceRowsWithinRanks | engine/src/core/board.cpp:43-46 | the first `n` rows touch only the top `n` ranks, row 0 filling rank 8 |
| Boards.PlaceRowsKeepFields | engine/src/core/board.cpp:43-71 | the rows change nothing but the bitboards and the hash |
| Boards.EmptyRowPlacesNothing | engine/src/core/board.cpp:48-50 | a row "8" skips the whole rank and places nothing |
| Boards.RookSlot | engine/src/core/board.cpp:97 | the slot index `2 * side + (file < kingFile ? 0 : 1)` is one of the four slots |
| Boards.FileLettersAgree | engine/src/core/board.cpp:94-99 | for a file letter the as-written and the corrected castle step agree |
| Boards.KingSideRook | tests/fen.cpp:11-24 | corrected: the rook 'K' names is on the king's rank right of the king, and no rook stands farther right; none exactly when no rook stands right of the king |
| Boards.QueenSideRook | tests/fen.cpp:11-24 | corrected: the rook 'Q' names is on the king's rank left of the king, and no rook stands farther left; none exactly when no rook stands left of the king |
| Boards.LettersTakeOutermostRook | engine/src/core/board.cpp:93-100 | corrected: each of K, Q, k, q sets exactly its own right and records the outermost rook of its colour on that side of its king; without one it changes nothing |
| Boards.StandardLettersSetTheirRight | engine/src/core/board.cpp:93-100 | corrected: with rooks on the a- and h-files of the king's rank, K and k record the h-file rook and Q and q the a-file one |
| Boards.OutermostRooksChosen | tests/fen.cpp:21-24 | corrected: on the position of that test "KQkq" names h1, c1, h8 and b8, the files "HChb" spells |
| Boards.DashGrantsNothing | engine/src/core/board.cpp:92-100 | corrected: the field "-" grants no right and leaves the standard rook slots |
| Boards.StandardCastleField | engine/src/core/board.cpp:92-100 | corrected: "KQkq" with the kings on e1 and e8 and rooks in the four corners gives all four rights and the rooks a1, h1, a8, h8 |
| Boards.StandardCastleFieldAsWritten | engine/src/core/board.cpp:92-100 | as written: "KQkq" with the kings on e1 and e8 sets only the two king-side rights and leaves the slots 8, 16, 2, 72 |
| Boards.DashCastleFieldAsWritten | engine/src/core/board.cpp:92-100 | as written: the field "-" grants black the king-side right |
| Boards.EnPassantDecoded | engine/src/core/board.cpp:102-105 | the en-passant square is NULL_SQUARE exactly for "-", and otherwise the board square the two-character text names |
| Boards.FenPositionFields | engine/src/core/board.cpp:42-108 | an illegal position falls back to the default board; otherwise pieces from the rows, side from field 1, castling from field 2, en passant from field 3, half-moves from field 4 modulo 256, phase 0 |
| Boards.FenInsufficientWithoutPawns | engine/src/core/board.cpp:42-116 | `Board(fen)` leaves the phase at 0, so a legal FEN position counts as insufficient material exactly when it has no pawns |
| Boards.Board.constructor | engine/src/core/board.cpp:10-40 | the default board as written: the standard setup with rook slots 8, 4, 2, 1 |
| Boards.Board.Standard | engine/src/core/board.cpp:10-40 | the default board with rook slots naming the rooks a1, h1, a8, h8 |
| Boards.Board.Load | engine/src/core/board.cpp:83 | `*this = other` copies every field |
| Boards.Board.SetPieceOnSquare | engine/include/KitsuneEngine/core/board.h:86-90 | the new state is the old one with the piece placed and its key toggled |
| Boards.Board.RemovePieceOnSquare | engine/include/KitsuneEngine/core/board.h:92-96 | the new state is the old one with the piece lifted and its key toggled |
| Boards.Board.GetPieceOnSquare | engine/include/KitsuneEngine/core/board.h:75-84 | the loop over the types answers the lowest type holding the square, or NULL_PIECE |
| Boards.Board.PlaceChar | engine/src/core/board.cpp:53-69 | one character of a row through the `tolower` switch |
| Boards.Board.PlaceBoardRow | engine/src/core/board.cpp:45-70 | the inner loop, digits skipping files, places the row as `PlaceRow` specifies |
| Boards.Board.PlaceBoardRows | engine/src/core/board.cpp:43-71 | the outer loop places row i on rank 7 - i |
| Boards.Board.ReadCastleRightsAsWritten | engine/src/core/board.cpp:87-100 | the castle rights and rook slots become what the as-written loop decodes |
| Boards.Board.ReadCastleRights | engine/src/core/board.cpp:87-100 | the castle rights and rook slots become what the corrected loop decodes |
| Boards.Board.ReadSide | engine/src/core/board.cpp:73-79 | white for "w", black for any other side field, and the Chess960 flag from the FEN |
| Boards.Board.ReadCounters | engine/src/core/board.cpp:102-107 | the en-passant square and the half-move count modulo 256, nothing else changed |
| Boards.Board.ResolveAsWritten | engine/src/core/board.cpp:81-107 | the legality fallback, then the as-written castle field and the counters |
| Boards.Board.Resolve | engine/src/core/board.cpp:81-107 | the legality fallback, then the corrected castle field and the counters |
| Boards.Board.FromFenAsWritten | engine/src/core/board.cpp:42-108 | `Board(fen)` as written ends in the state `FenPositionAsWritten` specifies |
| Boards.Board.FromFen | engine/src/core/board.cpp:42-108 | the corrected `Board(fen)` ends in the state `FenPosition` specifies |
| Boards.CastleLoopAsWritten | engine/src/core/board.cpp:92-100 | the loop as written computes `DecodeCastleAsWritten` |
| Boards.CastleLoop | engine/src/core/board.cpp:92-100 | the corrected loop computes `DecodeCastle` |
| Boards.SetThenRemove | engine/include/KitsuneEngine/core/board.h:86-96 | setting then removing a piece on a free square restores the whole board, hash included |
| AttackSets.CollectIsSatisfying | engine/include/KitsuneEngine/core/attacks/attacks.h:52-65 | a table built by testing every square holds exactly the squares satisfying the relation |
| AttackSets.KnightMember | engine/include/KitsuneEngine/core/attacks/attacks.h:57-60 | the knight set of a square holds exactly the squares a knight's (1, 2) or (2, 1) jump reaches |
| AttackSets.KingMember | engine/include/KitsuneEngine/core/attacks/attacks.h:62-65 | the king set holds exactly the squares one king step away |
| AttackSets.PawnMember | engine/include/KitsuneEngine/core/attacks/attacks.h:52-55 | the pawn set of a side holds exactly the two diagonal squares one rank forward for that side |
| AttackSets.RookMember | engine/include/KitsuneEngine/core/attacks/attacks.h:39-50 | the rook set holds exactly the squares on the rook's rank or file with no occupied square strictly between, the first blocker included |
| AttackSets.BishopMember | engine/include/KitsuneEngine/core/attacks/attacks.h:26-37 | the bishop set holds exactly the squares on the bishop's diagonals with no occupied square strictly between |
| AttackSets.KnightSymmetric | engine/src/core/attacks/attacks.cpp:25 | `a` is in the knight set of `b` exactly when `b` is in the knight set of `a`, which makes the reverse lookup sound |
| AttackSets.KingSymmetric | engine/src/core/attacks/attacks.cpp:26 | the king sets are symmetric in the same way |
| AttackSets.PawnSymmetric | engine/src/core/attacks/attacks.cpp:27 | a pawn of one side on `b` attacks `a` exactly when a pawn of the other side on `a` attacks `b` |
| AttackSets.RookSymmetric | engine/src/core/attacks/attacks.cpp:28 | under one occupancy, rook sets are symmetric |
| AttackSets.BishopSymmetric | engine/src/core/attacks/attacks.cpp:29 | under one occupancy, bishop sets are symmetric |
| AttackSets.NoSelfAttack | engine/include/KitsuneEngine/core/attacks/attacks.h:26-65 | no attack set contains its own square |
| Attacks.AllAttackersToSquare | engine/src/core/attacks/attacks.cpp:22-31 | a square is in the mask exactly when the attacker's piece standing there attacks `square` by its type, a queen counting as rook and bishop, sliders stopping at the first blocker in `occupancy` |
| Attacks.AttackersAreOpponents | engine/src/core/attacks/attacks.cpp:29-30 | every attacker belongs to the side that is not defending |
| Attacks.AttackersNonEmpty | engine/src/core/attacks/attacks.cpp:13-16 | the mask converted to `bool` is true exactly when some piece attacks the square |
| Attacks.SquareAttackedMeaning | engine/src/core/attacks/attacks.cpp:9-11 | `IsSquareAttacked` is true exactly when some piece attacks the square under the full occupancy |
| Attacks.CheckersMeaning | engine/src/core/attacks/attacks.cpp:5-20 | the checkers are exactly the opposing pieces attacking the mover's king, and the mover is in check exactly when that mask is non-empty |
| Attacks.UnionOfMember | engine/src/core/attacks/attacks.cpp:44-62 | a union of attack sets over a list of squares covers exactly what one of them attacks |
| Attacks.AccumulateAttacks | engine/src/core/attacks/attacks.cpp:44-46 | one `Map` whose callback ORs each square's attacks into `result` computes the accumulation `Accumulate` specifies |
| Attacks.Movers | engine/src/core/attacks/attacks.cpp:52-60 | the attacker's pieces of one type |
| Attacks.Sliders | engine/src/core/attacks/attacks.cpp:44-48 | the attacker's rooks or bishops together with its queens |
| Attacks.GenerateAttackMap | engine/src/core/attacks/attacks.cpp:33-65 | the five `Map` loops compute the map `AttackMap` specifies |
| Attacks.AccumulateMember | engine/src/core/attacks/attacks.cpp:44-62 | a square is in an accumulation exactly when it was already there or a piece of the mask attacks it |
| Attacks.CoversFrom | engine/src/core/attacks/attacks.cpp:44-62 | a piece attacks a square exactly when one of the five loops covers that square from the piece's square |
| Attacks.AttackMapMeaning | engine/src/core/attacks/attacks.cpp:33-65 | the map holds exactly the squares some attacker attacks, sliders seeing through the defending king, pawns capturing towards the defender, own pieces not filtered out |
| Attacks.AttackMapAgreesWithAttackers | engine/src/core/attacks/attacks.cpp:22-65 | the map covers a square exactly when that square's attackers mask under the map's occupancy is non-empty |
| Attacks.KingRemovedFromOccupancy | engine/src/core/attacks/attacks.cpp:37 | when the king square is occupied, the XOR removes exactly that square from the occupancy |
| PinMasks.XRayOccupancy | engine/src/core/attacks/pin_mask.cpp:21-35 | the occupancy of the second lookup is the general occupancy with the defenders the first lookup hit toggled |
| PinMasks.XRayLifts | engine/src/core/attacks/pin_mask.cpp:21-35 | when the defenders are on the board, that toggle lifts exactly the first-hit defenders |
| PinMasks.Pinners | engine/src/core/attacks/pin_mask.cpp:21-36 | the pinners are the attacking sliders in exactly one of the two attack sets |
| PinMasks.UnblockedMonotone | engine/src/core/attacks/pin_mask.cpp:21-22 | lifting pieces never closes an open line |
| PinMasks.DiagonalPinnerMember | engine/src/core/attacks/pin_mask.cpp:15-23 | a diagonal pinner is an attacking bishop or queen on a king diagonal that the full occupancy blocks and the occupancy without the first-hit defenders leaves open |
| PinMasks.OrthogonalPinnerMember | engine/src/core/attacks/pin_mask.cpp:16-36 | the same for rooks and queens on the king's rank and file |
| PinMasks.BlockedByDefenders | engine/src/core/attacks/pin_mask.cpp:20-23 | such a line is blocked only by defenders the first lookup reached |
| PinMasks.PinMaskMember | engine/src/core/attacks/pin_mask.cpp:25-40 | a mask holds exactly the squares of the rays from the king to its pinners |
| PinMasks.PinMaskBounds | engine/src/core/attacks/pin_mask.cpp:25-27 | every pinner aligned with the king is in the mask, and the king square never is |
| PinMasks.NoPinnersNoMask | engine/src/core/attacks/pin_mask.cpp:18-27 | without pinners the mask stays empty |
| PinMasks.DiagonalMaskMeaning | engine/src/core/attacks/pin_mask.cpp:18-29 | the diagonal mask holds every diagonal pinner, never the king, and is empty with no attacking bishop or queen |
| PinMasks.OrthogonalMaskMeaning | engine/src/core/attacks/pin_mask.cpp:31-42 | the orthogonal mask holds every orthogonal pinner, never the king, and is empty with no attacking rook or queen |
| PinMasks.PinMask.constructor | engine/src/core/attacks/pin_mask.cpp:7-43 | the two masks are the diagonal and the orthogonal pin masks of the defender's king |
| LegacyPinMasks.GuardedAt | engine/src/attacks/pin_mask.cpp:22-24 | the callback contributes the ray when `OnlyOneBit` holds of its defenders and nothing otherwise |
| LegacyPinMasks.AddPinRay | engine/src/attacks/pin_mask.cpp:21-25 | one callback call ORs the guarded ray into the accumulator |
| LegacyPinMasks.AccumulatePinRays | engine/src/attacks/pin_mask.cpp:21-38 | the `Map` over the candidates computes the accumulation of guarded rays |
| LegacyPinMasks.CandidatesMember | engine/src/attacks/pin_mask.cpp:18-32 | a candidate is in the attack set and is an opposing piece of the type or a queen |
| LegacyPinMasks.DiagonalCandidateMember | engine/src/attacks/pin_mask.cpp:14-19 | a diagonal candidate is an opposing bishop or queen a bishop on the king square reaches when only opposing pieces block |
| LegacyPinMasks.OrthogonalCandidateMember | engine/src/attacks/pin_mask.cpp:14-32 | an orthogonal candidate is an opposing rook or queen seen the same way |
| LegacyPinMasks.PinRaysMember | engine/src/attacks/pin_mask.cpp:21-25 | the result holds exactly the rays to the candidates on which `OnlyOneBit` holds of the defenders |
| LegacyPinMasks.OneDefenderPerRay | engine/src/attacks/pin_mask.cpp:22 | with `OnlyOneBit` meaning one square, a ray is kept exactly when one defender stands on it |
| LegacyPinMasks.NoCandidatesNoRays | engine/src/attacks/pin_mask.cpp:16-25 | no candidates, no rays |
| LegacyPinMasks.OnlyOneBitMeansOneSquare | engine/src/attacks/pin_mask.cpp:22 | a population count of one holds of exactly the one-square bitboards |
| LegacyPinMasks.KingNotInPinRays | engine/src/attacks/pin_mask.cpp:21-25 | the king square is on none of the rays |
| LegacyPinMasks.PinnedDefenderInMask | engine/src/attacks/pin_mask.cpp:21-25 | when the ray to a candidate passes exactly one defender, the result holds that defender and the candidate |
| LegacyPinMasks.PinMask.AsWritten | engine/src/attacks/pin_mask.cpp:7-41 | as written: `m_DiagonalMask` ends holding the orthogonal result and `m_OrthographicMask` stays empty |
| LegacyPinMasks.PinMask.constructor | engine/src/attacks/pin_mask.cpp:7-41 | corrected: the diagonal result goes to the diagonal mask and the orthogonal result to the orthogonal mask |
| LegacyPinMasks.LostPinDiagonal | engine/src/attacks/pin_mask.cpp:18-27 | in the position white Ke1, Pd2 against black Bc3, Kh8, the diagonal result holds the pinned pawn on d2 |
| LegacyPinMasks.DiagonalPinLost | engine/src/attacks/pin_mask.cpp:27-40 | in that position the orthogonal result is empty, so the as-written constructor records the d2 pin in neither mask |
| MoveGen.KingMoveMapMeaning | engine/src/core/move_gen.cpp:11-16 | the king may step exactly to the neighbouring squares no opposing piece attacks once the king is lifted, so it never retreats along a checking slider's line |
| MoveGen.KingMoveMapSquares | engine/src/core/move_gen.cpp:15-16 | the map holds exactly the king steps the attack map leaves out |
| MoveGen.TargetOccupancyIrrelevant | engine/src/core/move_gen.cpp:12-14 | whether a piece attacks a square does not depend on whether that square is occupied |
| MoveGen.AttackedAtTarget | engine/src/core/move_gen.cpp:12-14 | the same for "some piece attacks the square", so the map's occupancy without the king and the full occupancy agree on the king square |
| MoveGen.CheckersOfGenerator | engine/src/core/move_gen.cpp:12-14 | computing the checkers only when the attack map covers the king loses nothing: they are exactly the pieces attacking the king, and empty exactly when not in check |
| MoveGen.UnattackedKing | engine/src/core/move_gen.cpp:12-14 | a king the attack map leaves out is not in check |
| MoveGen.CastleMoves | engine/src/core/move_gen.cpp:19-39 | at most two castling moves are written |
| MoveGen.WhiteKingSideMask | engine/src/core/move_gen.cpp:21 | the mask 0x60 is f1 and g1 |
| MoveGen.WhiteQueenSideMasks | engine/src/core/move_gen.cpp:24 | 0xC is c1 and d1; 0xE is b1, c1 and d1 |
| MoveGen.BlackKingSideMask | engine/src/core/move_gen.cpp:28-29 | 0x6000000000000000 is f8 and g8 |
| MoveGen.BlackQueenSideMasks | engine/src/core/move_gen.cpp:32-33 | 0xC00000000000000 is c8 and d8; 0xE00000000000000 is b8, c8 and d8 |
| MoveGen.CastleMovesMeaning | engine/src/core/move_gen.cpp:19-39 | each of the four castling moves is written exactly when the mover is its colour, the right is held, the king's crossing and landing squares are unattacked and the squares between king and rook are empty; nothing else is written |
| MoveGen.CastleMoveWords | engine/src/core/move_gen.cpp:22-34 | the four castling moves as 16-bit words, pairwise distinct |
| MoveGen.WhiteCastlePaths | engine/src/core/move_gen.cpp:21-24 | white's two path tests, square by square |
| MoveGen.BlackCastlePaths | engine/src/core/move_gen.cpp:28-33 | black's two path tests, square by square |
| MoveGen.KingCallsMembers | engine/include/KitsuneEngine/core/move_gen.h:39-45 | the quiet king call is made exactly under QUIET and the capturing one exactly under NOISY |
| MoveGen.TargetCallsMembers | engine/include/KitsuneEngine/core/move_gen.h:54-66 | the quiet target calls exactly under QUIET, the capturing ones exactly under NOISY |
| MoveGen.PlanMembers | engine/include/KitsuneEngine/core/move_gen.h:29-87 | every call of a plan, by kind and by the branch the checkers select |
| MoveGen.ModeSelects | engine/include/KitsuneEngine/core/move_gen.h:39-83 | quiet calls are made only under the QUIET bit and every other call only under the NOISY bit |
| MoveGen.KingCallsAlways | engine/include/KitsuneEngine/core/move_gen.h:39-45 | both king calls are made whatever the number of checkers, each exactly under its bit, and they are the only king calls |
| MoveGen.QuietKingMapMeaning | engine/include/KitsuneEngine/core/move_gen.h:37-40 | quiet king moves go to the empty squares of the king move map |
| MoveGen.NoisyKingMapMeaning | engine/include/KitsuneEngine/core/move_gen.h:35-44 | king captures go to the enemy pieces on the king move map |
| MoveGen.TargetsOfPlan | engine/include/KitsuneEngine/core/move_gen.h:47-84 | outside double check, the non-king non-castling calls are exactly the target calls the mode allows, aimed at the branch's push and capture maps |
| MoveGen.CastlingInPlan | engine/include/KitsuneEngine/core/move_gen.h:47-50 | castling is tried exactly when there is no checker, in QUIET mode |
| MoveGen.NoCheckDispatch | engine/include/KitsuneEngine/core/move_gen.h:47-66 | with no checker: castling exactly in QUIET mode, pushes to any empty square, captures of any enemy piece |
| MoveGen.NoCheckPushSquare | engine/include/KitsuneEngine/core/move_gen.h:52 | with no checker a piece may move to a square exactly when it is empty |
| MoveGen.SingleCheckDispatch | engine/include/KitsuneEngine/core/move_gen.h:67-84 | with one checker: no castling, pushes only strictly between king and checker, captures only of the checker |
| MoveGen.SingleCheckPushSquare | engine/include/KitsuneEngine/core/move_gen.h:68-69 | with one checker a piece may move to a square exactly when it lies between the king and the checker |
| MoveGen.DoubleCheckDispatch | engine/include/KitsuneEngine/core/move_gen.h:47-67 | with two or more checkers only the king calls are made |
| MoveGen.ModesPartition | engine/include/KitsuneEngine/core/move_gen.h:39-83 | the ALL plan's quiet calls are the QUIET plan and its other calls the NOISY plan, each in order |
| MoveGen.WrittenSelect | engine/include/KitsuneEngine/core/move_gen.h:39-83 | the moves of a sequence of calls are, as a multiset, those of its quiet calls and those of its other calls |
| MoveGen.WrittenAppend | engine/include/KitsuneEngine/core/move_gen.h:40-82 | the moves of two call sequences in a row are the first's then the second's |
| MoveGen.AllIsQuietAndNoisy | engine/include/KitsuneEngine/core/move_gen.h:23-26 | `GenerateMoves<ALL>` writes, as a multiset, the moves of `GenerateMoves<QUIET>` and of `GenerateMoves<NOISY>` |
| MoveGen.Emit | engine/include/KitsuneEngine/core/move_gen.h:89-99 | an emitter's moves land in the buffer from `at` on and nothing after them changes |
| MoveGen.Perform | engine/include/KitsuneEngine/core/move_gen.h:40-82 | one call's moves follow those already written, and the rest of the buffer is untouched |
| MoveGen.CastleIf | engine/src/core/move_gen.cpp:21-23 | one castling check writes its move exactly when `CastleOption` holds it |
| MoveGen.CastlePair | engine/src/core/move_gen.cpp:21-35 | one side's two castling checks, king side first |
| MoveGen.QuietTargets | engine/include/KitsuneEngine/core/move_gen.h:55-75 | the four quiet target calls in order |
| MoveGen.NoisyTargets | engine/include/KitsuneEngine/core/move_gen.h:62-82 | the four capturing target calls in order |
| MoveGen.Targets | engine/include/KitsuneEngine/core/move_gen.h:54-83 | the target calls of a branch under the mode bits, ending the plan |
| MoveGen.MoveGenerator.constructor | engine/src/core/move_gen.cpp:7-17 | the member initialisers: side, king square, pin masks, attack map, checkers only when the map covers the king, king move map |
| MoveGen.MoveGenerator.GetCastleMoves | engine/src/core/move_gen.cpp:19-39 | the castling moves `CastleMoves` specifies are written from `at` on and the returned position is past them |
| MoveGen.MoveGenerator.CastleStep | engine/include/KitsuneEngine/core/move_gen.h:48-50 | the castling call of the plan |
| MoveGen.MoveGenerator.Unchecked | engine/include/KitsuneEngine/core/move_gen.h:47-66 | the branch with no checker writes its planned moves |
| MoveGen.MoveGenerator.Branches | engine/include/KitsuneEngine/core/move_gen.h:47-84 | the branch the checkers select writes its planned moves, nothing in double check |
| MoveGen.MoveGenerator.GenerateMoves | engine/include/KitsuneEngine/core/move_gen.h:23-87 | the planned calls' moves fill the start of the buffer, the rest is untouched, and the count is their number cast to `uint8_t` |
| MoveGen.KingMoves | engine/include/KitsuneEngine/core/move_gen.h:33-45 | the two king calls under their mode bits, with the king move map cut to empty squares and to enemy pieces |
| Perfts.LeafChildren | engine/src/core/perft.cpp:11-37 | each child at depth zero counts one, so a move list's children count its length |
| Perfts.OnePly | engine/src/core/perft.cpp:20-37 | one ply counts the generated moves in both modes |
| Perfts.BulkAgrees | engine/src/core/perft.cpp:20-22 | the bulk shortcut gives the same count as visiting every leaf, at every depth |
| Perfts.ChildrenStep | engine/src/core/perft.cpp:24-33 | one more move adds its child's count |
| Perfts.GenerateAll | engine/src/core/perft.cpp:15-18 | the buffer starts with the generated moves and the count is their number |
| Perfts.WrapAdd | engine/src/core/perft.cpp:32 | adding counts wrapped to 64 bits wraps their sum |
| Perfts.CountFitsByte | engine/src/core/perft.cpp:16-18 | a count up to `MAX_MOVES` survives the `uint8_t` cast |
| Perfts.Perft | engine/src/core/perft.cpp:9-40 | the node count of the move tree modulo 2^64: one at depth zero, nothing without moves, and the print flags do not affect it |
| Fens.Find | engine/src/core/fen.cpp:109-114 | -1 exactly when no delimiter occurs from `start` on; otherwise the first index at or after `start` holding it |
| Fens.FindSuffix | engine/src/core/fen.cpp:114 | searching from `start` is searching the suffix from `start`, shifted |
| Fens.TokensFrom | engine/src/core/fen.cpp:111-114 | a suffix with a delimiter at `end` yields the text up to it, then the tokens after it |
| Fens.TokensLast | engine/src/core/fen.cpp:117 | a suffix without the delimiter is one token |
| Fens.TokensCount | engine/src/core/fen.cpp:106-119 | there is one more token than there are delimiters |
| Fens.TokensFree | engine/src/core/fen.cpp:106-119 | no token contains the delimiter |
| Fens.JoinTokens | engine/src/core/fen.cpp:106-119 | joining the tokens with the delimiter gives the string back |
| Fens.TokensOfJoin | engine/src/core/fen.cpp:106-119 | splitting a join of delimiter-free tokens gives the tokens back |
| Fens.Split | engine/src/core/fen.cpp:106-119 | the `find`/`substr` loop returns exactly the tokens `Tokens` specifies |
| Fens.NewFen | engine/src/core/fen.cpp:8-31 | the two splits, the row loop and the field assignments build the record `FromString` specifies |
| Fens.FenFields | engine/src/core/fen.cpp:8-31 | the record holds the eight rows and fields 1 to 3 verbatim, and the counters fall back to "0" and "1" exactly when the string has no fifth or sixth field |
| Fens.ToStringRoundTrip | engine/src/core/fen.cpp:8-104 | a string of six fields whose first has eight rows prints back unchanged |
| Fens.FromStringRoundTrip | engine/src/core/fen.cpp:8-104 | printing a record whose fields hold no separators and parsing it again gives the record back |
| Fens.DigitRun | engine/src/core/fen.cpp:72-73 | the leading digits: all digits, followed by a non-digit or the end |
| Fens.IntValue | engine/src/core/fen.cpp:72-73 | a number `>> int` accepts lies in the 32-bit `int` range |
| Fens.IsFenValid | engine/src/core/fen.cpp:33-86 | the checks in order, each failure returning false, compute `FenValidAsWritten` |
| Fens.ValidIsReadable | engine/src/core/fen.cpp:36-43 | a valid string has the four fields and eight rows the constructor reads |
| Fens.ValidFields | engine/src/core/fen.cpp:49-69 | corrected: an accepted castle field is "-" or at most four characters holding a castle letter; the en-passant field has at most two characters, the square test never rejecting |
| Fens.ValidAsWrittenIsValid | engine/src/core/fen.cpp:49-60 | the corrected check accepts everything the check as written accepts |
| Fens.OnlyDashDiffers | engine/src/core/fen.cpp:49-60 | the two checks differ only on strings whose castle field is "-" |
| Fens.JoinedFenFields | engine/src/core/fen.cpp:9-11 | a FEN written as a join of eight rows and six fields splits back into them |
| Fens.CountersRead | engine/src/core/fen.cpp:23-29 | the counter defaults "0" and "1" read as 0 and 1 |
| Fens.DashRejectedAsWritten | engine/src/core/fen.cpp:53-60 | as written, a castle field "-" fails the castle-letter test, whatever the other fields hold |
| Fens.DashCastleFieldRejected | engine/src/core/fen.cpp:49-60 | "4k3/8/8/8/8/8/8/4K3 w - - 0 1" is rejected as written and accepted once corrected |
| Fens.StartFenValid | engine/include/KitsuneEngine/core/fen.h:17 | the default FEN passes both checks and prints back unchanged |

## Left out

- Text output: `Board::ToString`, `Bitboard::ToString`, the console colours and the `printf` calls in engine/src/core/board.cpp:82 and engine/src/core/perft.cpp:34-36 are printing only. `Board::ToFEN` is a stub that returns "".
- The command-line program and its perft thread: I/O and concurrency.
- The precomputed attack tables and their magic-multiply or PEXT indexing (engine/include/KitsuneEngine/core/attacks/attacks.h:26-65).
  - Their contents are external data, and PEXT is a hardware intrinsic.
  - `AttackSets` defines each set by the geometry it encodes: knight and king offsets, pawn captures, and slider lines up to the first blocker.
- The `SEEDS` table of the hash is external data. It is the `seeds` parameter of the hash members.
- The contents of the `XRAYS` table read by `RayTable.GetXRay` are external data, so the table is a parameter. The contents of the flat `RAYS` array that engine/include/KitsuneEngine/core/attacks/rays.h and rays_arrays.h read are external data too. The model takes them to be the rays engine/src/attacks/rays.cpp generates (`Rays.RAYS`), so `RayTable.GetRay`, `RayTable.ExcludeDestinationIsBetween` and `MoveGen.SingleCheckPushSquare` hold under that reading.
- Callees defined in no file of this model become parameters:
  - `Board::GetKingSquare`: a king square or a `KingLocator` function;
  - `Board::CanCastle`: `canCastle`;
  - `Board::MakeMove`: `Oracle.makeMove`;
  - `Move::IsCastle`: `isCastle`;
  - `Bitboard::OnlyOneBit`: `onlyOneBit`, with a population-count version for the concrete counterexample;
  - `GetChess960`: `chess960`;
  - the king, pawn and piece move emitters: `Emitters`.
  So the model does not say which pawn and piece moves are legal, only which emitter is called with which target and pin masks.
- `MoveGenMode` is not part of this model. It is modelled as its QUIET and NOISY bits.
- `FEN::NormalizeCastleRights` is declared (engine/include/KitsuneEngine/core/fen.h:68) but defined and called nowhere.
  - The constructor therefore keeps the castle field verbatim (`Fens.FenFields`).
  - The normalised strings expected by tests/fen.cpp:14,19,24,29 are not modelled.
- engine/src/attacks/attacks.cpp and the older engine/include/KitsuneEngine/attacks/attacks.h declare an attack interface without tables. Their wrappers forward to `IsSquareAttackedWithOccupancy`, which is defined nowhere; `Attacks` models the newer header instead.
- The files disagree on signatures:
  - engine/src/core/perft.cpp:17 builds `MoveGenerator(board, castleRules)`, but engine/include/KitsuneEngine/core/move_gen.h:21 declares `MoveGenerator(board)`.
  - engine/include/KitsuneEngine/core/perft.h:9 takes a `CastleMask` where engine/src/core/perft.cpp:9 takes `CastleRules`.
  - The model follows move_gen.h for the generator. The castle rules `Perft` passes on reach only `MakeMove`, so they are folded into `Oracle.makeMove`.
- `m_Rooks`, `m_Chess960` and `GetChess960` are used by engine/src/core/board.cpp but missing from engine/include/KitsuneEngine/core/board.h. `Boards.Board` carries `chess960` and `rooks` as board.cpp uses them.
- The trivial getters of `Board`, `FEN`, `PinMask` and the accessors of `Bitboard` are field reads of `Position`, `Fen` and the classes.
- Perfts.Perft: requires every position to have at most `MAX_MOVES` (218) moves (`FitsBuffer`). The source's stack buffer holds only that many.
- Zobrist.ZobristHash.UpdateCastleRightsHash: requires `rightsMask < 24`, so the read stays inside the 793-entry table.
  - The same holds for `Zobrist.CastleSeedIndex`.
  - The source reads past the table for larger masks; castle rights never exceed 15.
- CastleMasks.CastleMask.constructor: requires each rook slot to be a board square or NULL_SQUARE. The source writes outside the 64-entry array otherwise.
- CastleRules.CastleRules.constructor: requires at least one rook of each colour on each side of its king. The source leaves those slots uninitialised otherwise.
- Fens.FromString: requires `Readable(str)`, at least four space-separated fields and eight rows in the first. On a shorter string `FEN(str)` (engine/src/core/fen.cpp:11-18) indexes its vectors out of range, which is undefined. The same holds for `Fens.NewFen`.
- MoveGen.MoveGenerator.GenerateMoves: requires the caller's buffer to hold the generated moves. The source writes past the end of a shorter buffer.
- Fens.FenValid: the corrected validity check corrects only the castle field "-". It still rejects one-letter fields such as "K" or "q" (engine/src/core/fen.cpp:49). It also rejects file-letter fields without K, Q, k or q, such as "HAha" (tests/fen.cpp:6), which the corrected castle step reads.
- A castle 'K' or 'Q' with no rook of its colour on that side of the king grants nothing in the corrected castle step; the notation gives such a letter no meaning.
- Squares.FromText: requires at least two characters.
  - `Fens.TextSquare` reads NUL past the end of a shorter text, as `std::string` does at its terminator.
  - Reads further past the end are undefined in the source and are also read as NUL (`Boards.PlaceRow` on short rows).
- Boards.Board.FromFen: requires the half-move field to be a number `std::stoi` accepts. `stoi` throws otherwise, and exceptions are not modelled. The value is stored modulo 256, as in the `uint8_t` field.
- `FEN(str)` never sets `m_Chess960`, which is uninitialised. `Fens.FromString` takes it as a parameter.
- `std::isdigit`, `std::tolower`, `std::toupper` and `std::isupper` are modelled for ASCII only; locales are not modelled.

## Findings

| source | as written | input that shows it | evidently intended | confidence | as-written member | corrected member |
|---|---|---|---|---|---|---|
| engine/include/KitsuneEngine/core/move.h:43-45 | `IsEnPassant` tests that both bits of EN_PASSANT_FLAG are set, so the bishop and queen promotion captures pass too | `Move(e7, d8, BISHOP_PROMOTION_CAPTURE_FLAG)` | the flag equals EN_PASSANT_FLAG | high, not executed | Moves.BishopPromotionCaptureLooksEnPassant | Moves.EnPassantExactly |
| engine/src/core/board.cpp:34-37,87-90 | the rook slots are set to 0b1000, 0b0100, 0b0010, 0b0001, which are castle-right bits rather than the squares of the rooks | the default `Board()`: slot 0 names square 8 (a2), which holds a white pawn | a1, h1, a8, h8 | high, not executed | Positions.RookSlotsAsWrittenHoldNoRook | Positions.StandardRooksHoldRooks |
| engine/src/core/board.cpp:93-100 | every castle character is read as a file letter, so 'K' and 'Q' give files 10 and 16, both right of the king, and '-' gives black file 236 | "KQkq" with the kings on e1 and e8 sets only the two king-side rights; "-" sets black's king-side right | 'K'/'Q' name the outermost rook of that colour on that side of the king, the reading tests/fen.cpp:11-24 expects, and "-" grants nothing | high, not executed | Boards.StandardCastleFieldAsWritten | Boards.LettersTakeOutermostRook |
| engine/src/core/fen.cpp:49-60 | the castle-letter test also applies to "-", so every FEN without castling rights is rejected | "4k3/8/8/8/8/8/8/4K3 w - - 0 1" | "-" is accepted; only this case is corrected | high, not executed | Fens.DashRejectedAsWritten | Fens.OnlyDashDiffers |
| engine/src/attacks/pin_mask.cpp:40 | the orthogonal result is stored in `m_DiagonalMask` over the diagonal one, and `m_OrthographicMask` is never assigned | white Ke1, Pd2 against black Bc3, Kh8, white to move: the d2 pin is in neither mask | the second store goes to `m_OrthographicMask` | high, not executed | LegacyPinMasks.DiagonalPinLost | LegacyPinMasks.PinMask.constructor |
