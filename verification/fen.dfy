/**
 * `FEN`: a Forsyth-Edwards string cut into its fields. The eight board rows
 * and the side, castle and en-passant fields are kept as text; the two move
 * counters default to "0" and "1" when the string stops after four fields.
 */
module Fens {
  import opened Squares

  /*
   * `std::string::find` and `Split`.
   */

  /** `str.find(delimiter, start)`: the first index at or after `start` holding the delimiter, or -1 for `npos`. */
  function Find(s: string, d: char, start: nat): (i: int)
    ensures i == -1 || start <= i < |s|
    ensures i == -1 ==> forall k :: start <= k < |s| ==> s[k] != d
    ensures i >= 0 ==> s[i] == d && forall k :: start <= k < i ==> s[k] != d
    decreases |s| - start
  {
    if start >= |s| then -1 else if s[start] == d then start else Find(s, d, start + 1)
  }

  /** Searching from `start` is searching the suffix from `start`, shifted. */
  lemma FindSuffix(s: string, d: char, start: nat)
    requires start <= |s|
    ensures Find(s, d, start) == (if Find(s[start..], d, 0) < 0 then -1 else start + Find(s[start..], d, 0))
  {
    assert forall k :: start <= k < |s| ==> s[k] == s[start..][k - start];
  }

  /** The tokens `Split` returns: the text before the first delimiter, then the tokens of the rest. */
  function Tokens(s: string, d: char): (tokens: seq<string>)
    decreases |s|
  {
    var end := Find(s, d, 0);
    if end < 0 then [s] else [s[..end]] + Tokens(s[end + 1..], d)
  }

  /** The tokens of a suffix holding the delimiter: the text up to it, then the tokens after it. */
  lemma TokensFrom(s: string, d: char, start: nat, end: nat)
    requires start <= |s| && Find(s, d, start) == end
    ensures Tokens(s[start..], d) == [s[start..end]] + Tokens(s[end + 1..], d)
  {
    FindSuffix(s, d, start);
    TokensAt(s, d, start, end);
  }

  /** Concatenation regroups. */
  lemma AppendAssociates(a: seq<string>, b: seq<string>, c: seq<string>)
    ensures (a + b) + c == a + (b + c)
  {
  }

  /** The tokens of a suffix whose first delimiter is at `end`. */
  lemma TokensAt(s: string, d: char, start: nat, end: nat)
    requires start <= end < |s| && Find(s[start..], d, 0) == end - start
    ensures Tokens(s[start..], d) == [s[start..end]] + Tokens(s[end + 1..], d)
  {
    var rest := s[start..];
    assert rest[..end - start] == s[start..end];
    assert rest[end - start + 1..] == s[end + 1..];
  }

  /** A suffix without the delimiter is one token. */
  lemma TokensLast(s: string, d: char, start: nat)
    requires start <= |s| && Find(s, d, start) < 0
    ensures Tokens(s[start..], d) == [s[start..]]
  {
    FindSuffix(s, d, start);
  }

  /** The tokens joined back with the delimiter between them. */
  function Join(tokens: seq<string>, d: char): string
    requires |tokens| >= 1
  {
    if |tokens| == 1 then tokens[0] else tokens[0] + [d] + Join(tokens[1..], d)
  }

  /** The number of delimiters in a string. */
  function Occurrences(s: string, d: char): nat {
    multiset(s)[d]
  }

  /** There is one more token than there are delimiters. */
  lemma {:induction false} TokensCount(s: string, d: char)
    ensures |Tokens(s, d)| == Occurrences(s, d) + 1
    decreases |s|
  {
    var end := Find(s, d, 0);
    if end < 0 {
      assert d !in multiset(s);
    } else {
      TokensCount(s[end + 1..], d);
      assert s == s[..end] + [d] + s[end + 1..];
      assert d !in multiset(s[..end]);
    }
  }

  /** No token contains the delimiter. */
  lemma {:induction false} TokensFree(s: string, d: char)
    ensures forall t :: t in Tokens(s, d) ==> d !in t
    decreases |s|
  {
    var end := Find(s, d, 0);
    if end >= 0 {
      TokensFree(s[end + 1..], d);
    }
  }

  /** Joining the tokens gives the string back. */
  lemma {:induction false} JoinTokens(s: string, d: char)
    ensures Join(Tokens(s, d), d) == s
    decreases |s|
  {
    var end := Find(s, d, 0);
    if end >= 0 {
      var tokens := Tokens(s, d);
      JoinTokens(s[end + 1..], d);
      assert tokens[1..] == Tokens(s[end + 1..], d);
      assert s == s[..end] + [d] + s[end + 1..];
    }
  }

  /** Splitting a join of delimiter-free tokens gives the tokens back. */
  lemma {:induction false} TokensOfJoin(tokens: seq<string>, d: char)
    requires |tokens| >= 1
    requires forall t :: t in tokens ==> d !in t
    ensures Tokens(Join(tokens, d), d) == tokens
    decreases |tokens|
  {
    var s := Join(tokens, d);
    var first := tokens[0];
    assert first in tokens;
    if |tokens| == 1 {
      assert Find(s, d, 0) == -1;
    } else {
      var rest := Join(tokens[1..], d);
      assert s == first + [d] + rest;
      assert s[|first|] == d;
      assert forall k :: 0 <= k < |first| ==> s[k] == first[k];
      assert Find(s, d, 0) == |first|;
      assert s[..|first|] == first;
      assert s[|first| + 1..] == rest;
      TokensOfJoin(tokens[1..], d);
    }
  }

  /** `Split(str, delimiter)`: cuts at every delimiter with `find` and `substr`. */
  method Split(str: string, delimiter: char) returns (tokens: seq<string>)
    ensures tokens == Tokens(str, delimiter)
  {
    tokens := [];
    var start := 0;
    var end := Find(str, delimiter, 0);
    assert str[0..] == str;
    while end != -1
      invariant 0 <= start <= |str|
      invariant end == Find(str, delimiter, start)
      invariant tokens + Tokens(str[start..], delimiter) == Tokens(str, delimiter)
      decreases |str| - start
    {
      TokensFrom(str, delimiter, start, end);
      AppendAssociates(tokens, [str[start..end]], Tokens(str[end + 1..], delimiter));
      tokens := tokens + [str[start..end]];
      start := end + 1;
      end := Find(str, delimiter, start);
    }
    TokensLast(str, delimiter, start);
    tokens := tokens + [str[start..]];
  }

  /*
   * The FEN record.
   */

  datatype Fen = Fen(
    board: seq<string>,        // m_Board, the rows from rank 8 down
    sideToMove: string,        // m_SideToMove
    castleRights: string,      // m_CastleRights
    enPassantSquare: string,   // m_EnPassantSquare
    halfMoveCounter: string,   // m_HalfMoveCounter
    fullMoveCounter: string,   // m_FullMoveCounter
    chess960: bool)            // m_Chess960

  /** The rows of the start position. */
  const START_ROWS: seq<string> := ["rnbqkbnr", "pppppppp", "8", "8", "8", "8", "PPPPPPPP", "RNBQKBNR"]

  /** The fields of the start position. */
  const START_FIELDS: seq<string> := [Join(START_ROWS, '/'), "w", "KQkq", "-", "0", "1"]

  /**
   * The start position, the default argument of `FEN(str)`:
   * "rnbqkbnr/pppppppp/8/8/8/8/PPPPPPPP/RNBQKBNR w KQkq - 0 1", written as
   * the join of its fields.
   */
  const START_FEN: string := Join(START_FIELDS, ' ')

  /** What `FEN(str)` reads without going past the end of a vector: four fields, and eight rows in the first. */
  predicate Readable(str: string) {
    var fields := Tokens(str, ' ');
    |fields| >= 4 && |Tokens(fields[0], '/')| >= 8
  }

  /** `FEN(str)`: the first eight rows of field 0, fields 1-3, and the counters or their defaults. */
  function FromString(str: string, chess960: bool): (fen: Fen)
    requires Readable(str)
  {
    var fields := Tokens(str, ' ');
    Fen(Tokens(fields[0], '/')[..8], fields[1], fields[2], fields[3],
      if |fields| > 4 then fields[4] else "0",
      if |fields| > 5 then fields[5] else "1",
      chess960)
  }

  /** `FEN(str)` step by step: two splits, the row loop and the field assignments. */
  method NewFen(str: string, chess960: bool) returns (fen: Fen)
    requires Readable(str)
    ensures fen == FromString(str, chess960)
  {
    var fenSplit := Split(str, ' ');
    var positionParts := Split(fenSplit[0], '/');
    var board: seq<string> := [];
    for i := 0 to 8
      invariant board == positionParts[..i]
    {
      board := board + [positionParts[i]];
    }
    var halfMoveCounter, fullMoveCounter;
    if |fenSplit| > 4 {
      halfMoveCounter := fenSplit[4];
    } else {
      halfMoveCounter := "0";
    }
    if |fenSplit| > 5 {
      fullMoveCounter := fenSplit[5];
    } else {
      fullMoveCounter := "1";
    }
    fen := Fen(board, fenSplit[1], fenSplit[2], fenSplit[3], halfMoveCounter, fullMoveCounter, chess960);
  }

  /**
   * The fields the constructor keeps: eight rows, and the counters fall back
   * to "0" and "1" exactly when the string has no fifth or sixth field.
   */
  lemma FenFields(str: string, chess960: bool)
    requires Readable(str)
    ensures var fen := FromString(str, chess960); var fields := Tokens(str, ' ');
      |fen.board| == 8 &&
      (forall i :: 0 <= i < 8 ==> '/' !in fen.board[i] && ' ' !in fen.board[i]) &&
      (|fields| <= 4 ==> fen.halfMoveCounter == "0") &&
      (|fields| <= 5 ==> fen.fullMoveCounter == "1") &&
      ' ' !in fen.sideToMove && ' ' !in fen.castleRights && ' ' !in fen.enPassantSquare
  {
    var fields := Tokens(str, ' ');
    TokensFree(str, ' ');
    TokensFree(fields[0], '/');
    var rows := Tokens(fields[0], '/');
    assert fields[0] in fields;
    forall i | 0 <= i < 8
      ensures ' ' !in rows[i]
    {
      JoinTokens(fields[0], '/');
      RowWithin(rows, '/', i, ' ');
    }
    assert fields[1] in fields && fields[2] in fields && fields[3] in fields;
  }

  /** Every token's characters occur in the join. */
  lemma {:induction false} RowWithin(tokens: seq<string>, d: char, i: nat, c: char)
    requires |tokens| >= 1 && i < |tokens|
    ensures c in tokens[i] ==> c in Join(tokens, d)
    decreases |tokens|
  {
    if |tokens| > 1 && i > 0 {
      RowWithin(tokens[1..], d, i - 1, c);
      assert Join(tokens, d) == tokens[0] + [d] + Join(tokens[1..], d);
    }
  }

  /** `ToString`: the eight rows joined with '/', then the five other fields, all separated by spaces. */
  function ToString(fen: Fen): string
    requires |fen.board| == 8
  {
    Join([Join(fen.board, '/'), fen.sideToMove, fen.castleRights, fen.enPassantSquare,
      fen.halfMoveCounter, fen.fullMoveCounter], ' ')
  }

  /** A string of six fields whose first has eight rows prints back unchanged. */
  lemma ToStringRoundTrip(str: string, chess960: bool)
    requires |Tokens(str, ' ')| == 6 && |Tokens(Tokens(str, ' ')[0], '/')| == 8
    ensures Readable(str) && ToString(FromString(str, chess960)) == str
  {
    var fields := Tokens(str, ' ');
    var rows := Tokens(fields[0], '/');
    assert rows[..8] == rows;
    JoinTokens(fields[0], '/');
    JoinTokens(str, ' ');
    assert [Join(rows, '/'), fields[1], fields[2], fields[3], fields[4], fields[5]] == fields;
  }

  /** Printing a record whose fields hold no separators and parsing it back gives the record again. */
  lemma FromStringRoundTrip(fen: Fen)
    requires |fen.board| == 8
    requires forall i :: 0 <= i < 8 ==> '/' !in fen.board[i] && ' ' !in fen.board[i]
    requires ' ' !in fen.sideToMove && ' ' !in fen.castleRights && ' ' !in fen.enPassantSquare
    requires ' ' !in fen.halfMoveCounter && ' ' !in fen.fullMoveCounter
    ensures Readable(ToString(fen)) && FromString(ToString(fen), fen.chess960) == fen
  {
    var rows := Join(fen.board, '/');
    forall t | t in fen.board
      ensures '/' !in t
    {
    }
    TokensOfJoin(fen.board, '/');
    forall i | 0 <= i < 8
      ensures ' ' !in fen.board[i]
    {
    }
    NoSpaceInJoin(fen.board, '/');
    var fields := [rows, fen.sideToMove, fen.castleRights, fen.enPassantSquare, fen.halfMoveCounter, fen.fullMoveCounter];
    TokensOfJoin(fields, ' ');
    assert fen.board[..8] == fen.board;
  }

  /** Joining space-free tokens with another delimiter gives a space-free string. */
  lemma {:induction false} NoSpaceInJoin(tokens: seq<string>, d: char)
    requires |tokens| >= 1 && d != ' '
    requires forall i :: 0 <= i < |tokens| ==> ' ' !in tokens[i]
    ensures ' ' !in Join(tokens, d)
    decreases |tokens|
  {
    if |tokens| > 1 {
      NoSpaceInJoin(tokens[1..], d);
    }
  }

  /*
   * `IsFenValid`.
   */

  /**
   * A character of a string, or NUL at and past its end: what a read of
   * `value[1]` on a one-character `std::string` finds.
   */
  function CharAt(s: string, i: nat): char {
    if i < |s| then s[i] else '\0'
  }

  /** `Square(text)` on a text of any length, short texts reading NUL. */
  function TextSquare(text: string): (s: BoardSquare) {
    FromText([CharAt(text, 0), CharAt(text, 1)])
  }

  /** `contains('K') || contains('Q') || contains('k') || contains('q')`. */
  predicate HasCastleLetter(castle: string) {
    'K' in castle || 'Q' in castle || 'k' in castle || 'q' in castle
  }

  /** The characters `>>` skips before a number. */
  predicate IsSpace(c: char) {
    c == ' ' || c == '\t' || c == '\n' || c == '\r' || c == 11 as char || c == 12 as char
  }

  predicate IsDigit(c: char) {
    '0' as int <= c as int <= '9' as int
  }

  /** The number of leading digits. */
  function DigitRun(s: string): (n: nat)
    ensures n <= |s|
    ensures forall k :: 0 <= k < n ==> IsDigit(s[k])
    ensures n < |s| ==> !IsDigit(s[n])
  {
    if |s| > 0 && IsDigit(s[0]) then 1 + DigitRun(s[1..]) else 0
  }

  /** The value of a string of digits. */
  function DigitsValue(digits: string): nat
    requires forall k :: 0 <= k < |digits| ==> IsDigit(digits[k])
  {
    if digits == [] then 0
    else
      var last := digits[|digits| - 1];
      assert IsDigit(last);
      10 * DigitsValue(digits[..|digits| - 1]) + (last as int - '0' as int)
  }

  function SkipSpaces(s: string): (t: string)
    ensures |t| <= |s|
  {
    if |s| > 0 && IsSpace(s[0]) then SkipSpaces(s[1..]) else s
  }

  /** The text after leading spaces and an optional sign, and whether the sign was '-'. */
  function Unsigned(s: string): (r: (bool, string))
    ensures |r.1| <= |s|
  {
    var t := SkipSpaces(s);
    if |t| > 0 && (t[0] == '+' || t[0] == '-') then (t[0] == '-', t[1..]) else (false, t)
  }

  /**
   * `ss >> int` succeeds: after spaces, an optional sign and at least one
   * digit, with the value inside the 32-bit `int` range.
   */
  predicate ReadsInt(s: string) {
    var (negative, rest) := Unsigned(s);
    var n := DigitRun(rest);
    n > 0 && DigitsValue(rest[..n]) <= (if negative then 0x8000_0000 else 0x7FFF_FFFF)
  }

  /** `std::stoi(s)` on a string it accepts: the signed value of the leading digits. */
  function IntValue(s: string): (v: int)
    requires ReadsInt(s)
    ensures -0x8000_0000 <= v <= 0x7FFF_FFFF
  {
    var (negative, rest) := Unsigned(s);
    var magnitude: int := DigitsValue(rest[..DigitRun(rest)]);
    if negative then -magnitude else magnitude
  }

  /** `IsFenValid(str)` as written: a one-character castle field other than "-" fails, and so does any field without K, Q, k or q. */
  predicate FenValidAsWritten(str: string) {
    var fields := Tokens(str, ' ');
    if |fields| < 4 then false
    else if |Tokens(fields[0], '/')| != 8 then false
    else if fields[1] != "w" && fields[1] != "b" then false
    else if |fields[2]| == 1 && fields[2] != "-" then false
    else if |fields[2]| > 4 || !HasCastleLetter(fields[2]) then false
    else if |fields[3]| > 2 || !(fields[3] == "-" || TextSquare(fields[3]) < NULL_SQUARE) then false
    else if |fields| > 4 && !ReadsInt(fields[4]) then false
    else if |fields| > 5 && !ReadsInt(fields[5]) then false
    else true
  }

  /** `IsFenValid` with the castle-letter test applied only to a field other than "-". */
  predicate FenValid(str: string) {
    var fields := Tokens(str, ' ');
    if |fields| < 4 then false
    else if |Tokens(fields[0], '/')| != 8 then false
    else if fields[1] != "w" && fields[1] != "b" then false
    else if |fields[2]| == 1 && fields[2] != "-" then false
    else if fields[2] != "-" && (|fields[2]| > 4 || !HasCastleLetter(fields[2])) then false
    else if |fields[3]| > 2 || !(fields[3] == "-" || TextSquare(fields[3]) < NULL_SQUARE) then false
    else if |fields| > 4 && !ReadsInt(fields[4]) then false
    else if |fields| > 5 && !ReadsInt(fields[5]) then false
    else true
  }

  /** `IsFenValid(str)`: the checks in order, each failure returning false. */
  method IsFenValid(str: string) returns (valid: bool)
    ensures valid == FenValidAsWritten(str)
  {
    var fenSplit := Split(str, ' ');
    if |fenSplit| < 4 {
      return false;
    }
    var positionParts := Split(fenSplit[0], '/');
    if |positionParts| != 8 {
      return false;
    }
    if fenSplit[1] != "w" && fenSplit[1] != "b" {
      return false;
    }
    if |fenSplit[2]| == 1 && fenSplit[2] != "-" {
      return false;
    }
    var correctCastleRights := HasCastleLetter(fenSplit[2]);
    if |fenSplit[2]| > 4 || !correctCastleRights {
      return false;
    }
    var validateEnPassant := true;
    if fenSplit[3] != "-" {
      validateEnPassant := TextSquare(fenSplit[3]) < NULL_SQUARE;
    }
    if |fenSplit[3]| > 2 || !validateEnPassant {
      return false;
    }
    if |fenSplit| > 4 && !ReadsInt(fenSplit[4]) {
      return false;
    }
    if |fenSplit| > 5 && !ReadsInt(fenSplit[5]) {
      return false;
    }
    return true;
  }

  /** A valid string has what the constructor reads: exactly eight rows. */
  lemma ValidIsReadable(str: string)
    requires FenValidAsWritten(str) || FenValid(str)
    ensures Readable(str) && |Tokens(Tokens(str, ' ')[0], '/')| == 8
  {
  }

  /**
   * The castle field of a string the corrected check accepts is "-" or at
   * most four characters holding a castle letter; the en-passant field is at
   * most two characters, and the square test never rejects, because
   * `Square(text)` clamps into the board.
   */
  lemma ValidFields(str: string)
    requires FenValid(str)
    ensures var fields := Tokens(str, ' ');
      (fields[1] == "w" || fields[1] == "b") &&
      (fields[2] == "-" || (2 <= |fields[2]| <= 4 && HasCastleLetter(fields[2]))) &&
      |fields[3]| <= 2
  {
  }

  /** The corrected check accepts everything the one as written accepts. */
  lemma ValidAsWrittenIsValid(str: string)
    requires FenValidAsWritten(str)
    ensures FenValid(str)
  {
  }

  /** A string accepted by the corrected check and rejected as written has "-" as its castle field. */
  lemma OnlyDashDiffers(str: string)
    requires FenValid(str) && !FenValidAsWritten(str)
    ensures Tokens(str, ' ')[2] == "-"
  {
  }

  /** Two lone kings and no castling rights: "4k3/8/8/8/8/8/8/4K3 w - - 0 1", as the join of its fields. */
  const NO_CASTLING_ROWS: seq<string> := ["4k3", "8", "8", "8", "8", "8", "8", "4K3"]
  const NO_CASTLING_FIELDS: seq<string> := [Join(NO_CASTLING_ROWS, '/'), "w", "-", "-", "0", "1"]
  const NO_CASTLING_FEN: string := Join(NO_CASTLING_FIELDS, ' ')

  /** Splitting a FEN written as a join of eight rows and six fields gives the fields and rows back. */
  lemma JoinedFenFields(rows: seq<string>, fields: seq<string>)
    requires |rows| == 8 && |fields| == 6 && fields[0] == Join(rows, '/')
    requires forall i :: 0 <= i < 8 ==> '/' !in rows[i] && ' ' !in rows[i]
    requires forall i :: 1 <= i < 6 ==> ' ' !in fields[i]
    ensures Tokens(Join(fields, ' '), ' ') == fields
    ensures Tokens(fields[0], '/') == rows
  {
    forall t | t in rows
      ensures '/' !in t
    {
    }
    TokensOfJoin(rows, '/');
    NoSpaceInJoin(rows, '/');
    forall t | t in fields
      ensures ' ' !in t
    {
    }
    TokensOfJoin(fields, ' ');
  }

  /** "0" and "1", the counter defaults, read as the numbers 0 and 1. */
  lemma CountersRead()
    ensures ReadsInt("0") && ReadsInt("1")
    ensures IntValue("0") == 0 && IntValue("1") == 1
  {
    assert SkipSpaces("0") == "0" && DigitRun("0") == 1 && Unsigned("0") == (false, "0");
    assert SkipSpaces("1") == "1" && DigitRun("1") == 1 && Unsigned("1") == (false, "1");
    assert "0"[..1] == "0" && "1"[..1] == "1";
    assert DigitsValue("0") == 0 && DigitsValue("1") == 1;
  }

  /** A castle field "-" is rejected as written, whatever the other fields hold. */
  lemma DashRejectedAsWritten(str: string)
    requires |Tokens(str, ' ')| >= 4 && Tokens(str, ' ')[2] == "-"
    ensures !FenValidAsWritten(str)
  {
    assert !HasCastleLetter("-");
  }

  /** A FEN with no castling rights: the castle field "-" is rejected as written and accepted once corrected. */
  lemma DashCastleFieldRejected()
    ensures !FenValidAsWritten(NO_CASTLING_FEN)
    ensures FenValid(NO_CASTLING_FEN)
  {
    JoinedFenFields(NO_CASTLING_ROWS, NO_CASTLING_FIELDS);
    DashRejectedAsWritten(NO_CASTLING_FEN);
    var fields := Tokens(NO_CASTLING_FEN, ' ');
    assert fields[1] == "w" && fields[2] == "-" && fields[3] == "-";
    CountersRead();
    assert ReadsInt(fields[4]) && ReadsInt(fields[5]);
  }

  /** The start FEN passes both checks and prints back unchanged. */
  lemma StartFenValid()
    ensures FenValidAsWritten(START_FEN) && FenValid(START_FEN)
    ensures ToString(FromString(START_FEN, false)) == START_FEN
  {
    JoinedFenFields(START_ROWS, START_FIELDS);
    CountersRead();
    assert 'K' in START_FIELDS[2];
    ToStringRoundTrip(START_FEN, false);
  }
}
