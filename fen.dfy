/// The piece-placement field of a FEN record (kjchess/FEN.swift), as
/// section 16.1.3.1 of the PGN standard describes it: eight ranks from
/// rank 8 down to rank 1, separated by '/', each listing its squares from
/// file a to file h, a piece as its letter (upper case for White) and a run
/// of empty squares as its length.
///
/// `Fen` writes a board the way `Board.fen` does: one "1" per empty square,
/// then runs of "1"s rewritten as digits from the longest pattern down.
/// `FenRankEncodes` proves that this rewriting gives the run-length code
/// with maximal runs, and `FenRoundTrip` that the parser reads every board
/// back.
module Fen {
  import opened Wrappers
  import opened Players
  import opened Pieces
  import opened Locations
  import opened Boards
  import opened ChessErrors
  import opened ArrayUtils
  import opened Separators

  // Pieces as letters.

  /// `Piece.fen`: the kind's letter, upper case for White and lower case
  /// for Black.
  function PieceFen(p: Piece): char
  {
    if p.player == White then KindSymbol(p.kind) else KindLowercaseSymbol(p.kind)
  }

  /// The letter table of `rankSquares(fenRank:)`.
  function FenPiece(c: char): Option<Piece>
  {
    match c
    case 'P' => WP case 'N' => WN case 'B' => WB case 'R' => WR case 'Q' => WQ case 'K' => WK
    case 'p' => BP case 'n' => BN case 'b' => BB case 'r' => BR case 'q' => BQ case 'k' => BK
    case _ => None
  }

  /// A piece's letter is upper case for White and lower case for Black,
  /// and the letter table reads exactly the letters `Piece.fen` writes.
  lemma PieceFenLetters(p: Piece, c: char)
    ensures p.player == White ==> 'A' <= PieceFen(p) <= 'Z'
    ensures p.player == Black ==> 'a' <= PieceFen(p) <= 'z'
    ensures FenPiece(c) == Some(p) <==> PieceFen(p) == c
  {
  }

  /// No two pieces share a letter.
  lemma PieceFenInjective(p: Piece, q: Piece)
    ensures PieceFen(p) == PieceFen(q) ==> p == q
  {
    PieceFenLetters(p, PieceFen(q));
  }

  // Writing a rank.

  /// `fenSquare(piece:)`: the piece's letter, or "1" for an empty square.
  function FenSquare(sq: Option<Piece>): string
  {
    match sq
    case None => "1"
    case Some(p) => [PieceFen(p)]
  }

  /// The squares of a row written one character each, before any run is
  /// shortened.
  function Spelled(row: seq<Option<Piece>>): (s: string)
    ensures |s| == |row|
  {
    if |row| == 0 then "" else FenSquare(row[0]) + Spelled(row[1..])
  }

  lemma {:induction false} SpelledAppend(row: seq<Option<Piece>>, sq: Option<Piece>)
    ensures Spelled(row + [sq]) == Spelled(row) + FenSquare(sq)
  {
    if |row| > 0 {
      assert (row + [sq])[1..] == row[1..] + [sq];
      SpelledAppend(row[1..], sq);
    }
  }

  /// `n` copies of '1'.
  function Ones(n: nat): (s: string)
    ensures |s| == n && forall j :: 0 <= j < n ==> s[j] == '1'
  {
    seq(n, _ => '1')
  }

  /// The digit character for `n`.
  function Digit(n: nat): char
    requires n <= 9
  {
    ('0' as int + n) as char
  }

  /// Swift's `replacingOccurrences(of:with:)`: scanning from the left,
  /// each occurrence of `pat` that does not overlap an earlier one is
  /// replaced by `rep`.
  function ReplaceAll(s: string, pat: string, rep: string): string
    requires |pat| > 0
    decreases |s|
  {
    if |s| < |pat| then s
    else if s[..|pat|] == pat then rep + ReplaceAll(s[|pat|..], pat, rep)
    else [s[0]] + ReplaceAll(s[1..], pat, rep)
  }

  /// The rewriting at the end of `fenRank`: "11111111" by "8", then
  /// "1111111" by "7", and so on down to "11" by "2". `Rewritten(s, n)`
  /// does the steps for patterns of length `n` down to 2.
  function Rewritten(s: string, n: nat): string
    requires n <= 8
    decreases n
  {
    if n < 2 then s else Rewritten(ReplaceAll(s, Ones(n), [Digit(n)]), n - 1)
  }

  /// The row of rank `rank`, file a first.
  function Row(b: Squares, rank: Coord): (row: seq<Option<Piece>>)
    ensures |row| == 8
  {
    b[rank * 8..rank * 8 + 8]
  }

  /// `fenRank(_:)`: the rank's squares spelled out, then rewritten.
  function FenRankText(b: Squares, rank: Coord): string
  {
    Rewritten(Spelled(Row(b, rank)), 8)
  }

  /// `fenRank(_:)` as the Swift code runs it: append each square's text
  /// for files a to h, then apply the seven rewrites in turn.
  method FenRank(b: Squares, rank: Coord) returns (s: string)
    ensures s == FenRankText(b, rank)
  {
    s := "";
    for i := 0 to 8
      invariant s == Spelled(Row(b, rank)[..i])
    {
      assert Row(b, rank)[..i + 1] == Row(b, rank)[..i] + [At(b, Location(i, rank))];
      SpelledAppend(Row(b, rank)[..i], At(b, Location(i, rank)));
      s := s + FenSquare(At(b, Location(i, rank)));
    }
    assert Row(b, rank)[..8] == Row(b, rank);
    assert Ones(8) == "11111111" && Ones(7) == "1111111" && Ones(6) == "111111" && Ones(5) == "11111";
    assert Ones(4) == "1111" && Ones(3) == "111" && Ones(2) == "11";
    s := ReplaceAll(s, "11111111", "8");
    s := ReplaceAll(s, "1111111", "7");
    s := ReplaceAll(s, "111111", "6");
    s := ReplaceAll(s, "11111", "5");
    s := ReplaceAll(s, "1111", "4");
    s := ReplaceAll(s, "111", "3");
    s := ReplaceAll(s, "11", "2");
  }

  /// The ranks' texts from rank 8 down to rank 1.
  function FenRanks(b: Squares): (ranks: seq<string>)
    ensures |ranks| == 8
  {
    seq(8, i requires 0 <= i < 8 => FenRankText(b, 7 - i))
  }

  /// `Board.fen`.
  function BoardFen(b: Squares): string
  {
    Join(FenRanks(b), '/')
  }

  // Reading a rank.

  /// What one character of a rank stands for: a digit 1 to 7 that many
  /// empty squares, a piece letter that piece; anything else is an error.
  function CharSquares(c: char): Result<seq<Option<Piece>>, ChessError>
  {
    if '1' <= c <= '7' then Ok(seq(c as int - '0' as int, _ => None))
    else match FenPiece(c)
      case Some(p) => Ok([Some(p)])
      case None => Err(FenBoardContainsInvalidCharacter(c))
  }

  /// `prefix` in front of a successful result; errors pass through.
  function Prefixed(prefix: seq<Option<Piece>>, r: Result<seq<Option<Piece>>, ChessError>): Result<seq<Option<Piece>>, ChessError>
  {
    match r
    case Ok(rest) => Ok(prefix + rest)
    case Err(e) => Err(e)
  }

  lemma PrefixedEmpty(r: Result<seq<Option<Piece>>, ChessError>)
    ensures Prefixed([], r) == r
  {
    if r.Ok? {
      assert [] + r.value == r.value;
    }
  }

  lemma PrefixedTwice(a: seq<Option<Piece>>, b: seq<Option<Piece>>, r: Result<seq<Option<Piece>>, ChessError>)
    ensures Prefixed(a, Prefixed(b, r)) == Prefixed(a + b, r)
  {
    if r.Ok? {
      assert a + (b + r.value) == (a + b) + r.value;
    }
  }

  lemma PrefixedOk(r: Result<seq<Option<Piece>>, ChessError>, rest: Result<seq<Option<Piece>>, ChessError>)
    ensures r.Ok? ==> Prefixed(r.value, rest).Ok? == rest.Ok?
  {
  }

  /// The characters of a rank read from the left; the first character
  /// that is not a digit 1 to 7 or a piece letter is the error.
  function RankChars(s: string): Result<seq<Option<Piece>>, ChessError>
  {
    if |s| == 0 then Ok([])
    else match CharSquares(s[0])
      case Err(e) => Err(e)
      case Ok(first) => Prefixed(first, RankChars(s[1..]))
  }

  /// `rankSquares(fenRank:)`: "8" as a whole rank is eight empty squares;
  /// otherwise the characters one by one.
  function RankSquares(s: string): Result<seq<Option<Piece>>, ChessError>
  {
    if s == "8" then Ok(seq(8, _ => None)) else RankChars(s)
  }

  /// `rankSquares(fenRank:)` as the Swift code runs it, appending to the
  /// result character by character and throwing at the first bad one.
  method ParseRankSquares(s: string) returns (r: Result<seq<Option<Piece>>, ChessError>)
    ensures r == RankSquares(s)
  {
    if s == "8" {
      var empty := AppendRepeating([], None, 8);
      assert empty == seq(8, _ => None);
      return Ok(empty);
    }
    var result: seq<Option<Piece>> := [];
    assert s[0..] == s;
    PrefixedEmpty(RankChars(s));
    for i := 0 to |s|
      invariant RankChars(s) == Prefixed(result, RankChars(s[i..]))
    {
      assert s[i..][1..] == s[i + 1..];
      var c := s[i];
      var squares: seq<Option<Piece>>;
      if c == '1' {
        squares := [None];
        assert squares == seq(1, _ => None);
      } else if '2' <= c <= '7' {
        var grown := AppendRepeating(result, None, c as int - '0' as int);
        squares := grown[|result|..];
        assert grown == result + squares;
        assert squares == seq(c as int - '0' as int, _ => None);
      } else {
        var piece := FenPiece(c);
        if piece.None? {
          assert RankChars(s[i..]) == Err(FenBoardContainsInvalidCharacter(c));
          return Err(FenBoardContainsInvalidCharacter(c));
        }
        squares := [piece];
      }
      assert CharSquares(c) == Ok(squares);
      PrefixedTwice(result, squares, RankChars(s[i + 1..]));
      result := result + squares;
    }
    assert s[|s|..] == [];
    assert result + [] == result;
    r := Ok(result);
  }

  // Reading the field.

  /// `squares(fenRanks:)` from iteration `i` on: iteration `i` reads the
  /// rank text `ranks[7 - i]`, so the last text gives rank 1.
  function SquaresFrom(ranks: seq<string>, i: nat): Result<seq<Option<Piece>>, ChessError>
    requires |ranks| == 8 && i <= 8
    decreases 8 - i
  {
    if i == 8 then Ok([])
    else match RankSquares(ranks[7 - i])
      case Err(e) => Err(e)
      case Ok(squares) => Prefixed(squares, SquaresFrom(ranks, i + 1))
  }

  /// `init(fenBoard:)`: exactly eight ranks, each of which must parse. The
  /// Swift code does not check that each rank describes eight squares, so
  /// the result is a list of squares of whatever length the ranks give.
  function FenBoard(s: string): Result<seq<Option<Piece>>, ChessError>
  {
    var ranks := Components(s, '/');
    if |ranks| != 8 then Err(FenStringRequiresExactlyEightRanks(s)) else SquaresFrom(ranks, 0)
  }

  /// `squares(fenRanks:)` as the Swift code runs it.
  method ParseSquares(ranks: seq<string>) returns (r: Result<seq<Option<Piece>>, ChessError>)
    requires |ranks| == 8
    ensures r == SquaresFrom(ranks, 0)
  {
    var result: seq<Option<Piece>> := [];
    PrefixedEmpty(SquaresFrom(ranks, 0));
    for i := 0 to 8
      invariant SquaresFrom(ranks, 0) == Prefixed(result, SquaresFrom(ranks, i))
    {
      var squares := ParseRankSquares(ranks[7 - i]);
      if squares.Err? {
        assert SquaresFrom(ranks, i) == Err(squares.error);
        return Err(squares.error);
      }
      PrefixedTwice(result, squares.value, SquaresFrom(ranks, i + 1));
      result := result + squares.value;
    }
    assert result + [] == result;
    r := Ok(result);
  }

  /// `init(fenBoard:)` as the Swift code runs it.
  method ParseFenBoard(s: string) returns (r: Result<seq<Option<Piece>>, ChessError>)
    ensures r == FenBoard(s)
  {
    var ranks := Components(s, '/');
    if |ranks| != 8 {
      return Err(FenStringRequiresExactlyEightRanks(s));
    }
    r := ParseSquares(ranks);
  }

  // What the parser accepts.

  /// The characters a rank may hold besides a lone "8": the digits 1 to 7
  /// and the twelve piece letters.
  predicate FenChar(c: char)
  {
    '1' <= c <= '7' || FenPiece(c).Some?
  }

  /// How many squares a character stands for.
  function CharWidth(c: char): nat
  {
    if '1' <= c <= '7' then c as int - '0' as int else 1
  }

  /// The sum of the digits of a rank plus the number of its letters.
  function Width(s: string): nat
  {
    if |s| == 0 then 0 else CharWidth(s[0]) + Width(s[1..])
  }

  lemma RankCharsCons(c: char, t: string)
    ensures CharSquares(c).Err? ==> RankChars([c] + t) == Err(CharSquares(c).error)
    ensures CharSquares(c).Ok? ==> RankChars([c] + t) == Prefixed(CharSquares(c).value, RankChars(t))
  {
    assert ([c] + t)[1..] == t;
  }

  /// A rank other than "8" is read exactly when each of its characters is
  /// a digit 1 to 7 or a piece letter; so "8" inside a longer rank, "0",
  /// "9" and '/' are all refused.
  lemma {:induction false} RankCharsAccepts(s: string)
    ensures RankChars(s).Ok? <==> forall i :: 0 <= i < |s| ==> FenChar(s[i])
  {
    if |s| > 0 {
      RankCharsAccepts(s[1..]);
      assert forall i :: 0 < i < |s| ==> s[i] == s[1..][i - 1];
    }
  }

  /// A refused rank names its first bad character.
  lemma {:induction false} RankCharsError(s: string) returns (i: nat)
    requires RankChars(s).Err?
    ensures i < |s| && !FenChar(s[i]) && forall j :: 0 <= j < i ==> FenChar(s[j])
    ensures RankChars(s) == Err(FenBoardContainsInvalidCharacter(s[i]))
  {
    if FenChar(s[0]) {
      var k := RankCharsError(s[1..]);
      i := k + 1;
    } else {
      i := 0;
    }
  }

  /// A rank that is read gives as many squares as its digits add up to
  /// plus its letters; nothing checks that this is eight.
  lemma {:induction false} RankCharsWidth(s: string)
    ensures RankChars(s).Ok? ==> |RankChars(s).value| == Width(s)
  {
    if |s| > 0 {
      RankCharsWidth(s[1..]);
    }
  }

  /// Every rank that parses is free of '/'.
  lemma RankSquaresNoSeparator(s: string)
    requires RankSquares(s).Ok?
    ensures '/' !in s
  {
    if s != "8" {
      RankCharsAccepts(s);
      assert forall i :: 0 <= i < |s| ==> s[i] != '/';
    }
  }

  /// The first `n` rank texts all parse.
  ghost predicate RanksParse(ranks: seq<string>, n: nat)
    requires n <= |ranks|
  {
    forall j :: 0 <= j < n ==> RankSquares(ranks[j]).Ok?
  }

  /// `squares(fenRanks:)` succeeds from iteration `i` on exactly when each
  /// rank it has still to read parses.
  lemma {:induction false} SquaresFromAccepts(ranks: seq<string>, i: nat)
    requires |ranks| == 8 && i <= 8
    ensures SquaresFrom(ranks, i).Ok? <==> RanksParse(ranks, 8 - i)
    decreases 8 - i
  {
    if i < 8 {
      SquaresFromAccepts(ranks, i + 1);
      RanksParseStep(ranks, 7 - i);
      SquaresFromOkStep(ranks, i);
    }
  }

  /// One more rank parses exactly when the ranks before it do and it does.
  lemma RanksParseStep(ranks: seq<string>, n: nat)
    requires n < |ranks|
    ensures RanksParse(ranks, n + 1) <==> RanksParse(ranks, n) && RankSquares(ranks[n]).Ok?
  {
  }

  /// Iteration `i` succeeds exactly when its rank parses and the later
  /// iterations succeed.
  lemma SquaresFromOkStep(ranks: seq<string>, i: nat)
    requires |ranks| == 8 && i < 8
    ensures SquaresFrom(ranks, i).Ok? <==> RankSquares(ranks[7 - i]).Ok? && SquaresFrom(ranks, i + 1).Ok?
  {
    PrefixedOk(RankSquares(ranks[7 - i]), SquaresFrom(ranks, i + 1));
  }

  /// `init(fenBoard:)` succeeds exactly when the field splits into eight
  /// ranks and each of them parses.
  lemma FenBoardAccepts(s: string)
    ensures FenBoard(s).Ok? <==> |Components(s, '/')| == 8 && forall j :: 0 <= j < 8 ==> RankSquares(Components(s, '/')[j]).Ok?
    ensures |Components(s, '/')| != 8 ==> FenBoard(s) == Err(FenStringRequiresExactlyEightRanks(s))
  {
    if |Components(s, '/')| == 8 {
      SquaresFromAccepts(Components(s, '/'), 0);
    }
  }

  /// The squares of the `r`-th group of eight in a list of squares.
  function RankRow(v: seq<Option<Piece>>, r: nat): (row: seq<Option<Piece>>)
    requires 8 * r + 8 <= |v|
    ensures |row| == 8
  {
    v[8 * r..8 * r + 8]
  }

  lemma RankRowShift(head: seq<Option<Piece>>, tail: seq<Option<Piece>>, r: nat)
    requires |head| == 8 && 1 <= r && 8 * r + 8 <= 8 + |tail|
    ensures RankRow(head + tail, r) == RankRow(tail, r - 1)
  {
  }

  /// One iteration of `squares(fenRanks:)` puts the squares of its rank
  /// text in front of those of the later iterations.
  lemma SquaresFromStep(ranks: seq<string>, head: seq<Option<Piece>>, i: nat)
    requires |ranks| == 8 && i < 8
    requires RankSquares(ranks[7 - i]) == Ok(head) && SquaresFrom(ranks, i + 1).Ok?
    ensures SquaresFrom(ranks, i) == Ok(head + SquaresFrom(ranks, i + 1).value)
  {
  }

  /// Every rank text parses to its row of eight squares.
  ghost predicate RowsParse(ranks: seq<string>, rows: seq<seq<Option<Piece>>>)
    requires |ranks| == 8 && |rows| == 8
  {
    forall j :: 0 <= j < 8 ==> RankSquares(ranks[j]) == Ok(rows[j]) && |rows[j]| == 8
  }

  /// `v` holds the rows `rows[7 - i]` down to `rows[0]`, eight squares each.
  ghost predicate LaidOut(v: seq<Option<Piece>>, rows: seq<seq<Option<Piece>>>, i: nat)
    requires |rows| == 8 && i <= 8
  {
    |v| == 8 * (8 - i) && forall r: nat :: r < 8 - i ==> RankRow(v, r) == rows[7 - i - r]
  }

  /// A row of eight in front of rows laid out rank by rank shifts them up
  /// by one rank.
  lemma RowsShift(head: seq<Option<Piece>>, tail: seq<Option<Piece>>, rows: seq<seq<Option<Piece>>>, i: nat)
    requires |rows| == 8 && i < 8 && |head| == 8 && head == rows[7 - i]
    requires LaidOut(tail, rows, i + 1)
    ensures LaidOut(head + tail, rows, i)
  {
    assert RankRow(head + tail, 0) == head;
    forall r: nat | 1 <= r < 8 - i
      ensures RankRow(head + tail, r) == rows[7 - i - r]
    {
      RankRowShift(head, tail, r);
      assert RankRow(tail, r - 1) == rows[7 - (i + 1) - (r - 1)];
    }
  }

  /// When every rank text parses to a row of eight squares, iteration `i`
  /// lays out the rows of the texts it has still to read, `ranks[7 - i]`
  /// first.
  lemma {:induction false} SquaresFromRows(ranks: seq<string>, rows: seq<seq<Option<Piece>>>, i: nat)
    requires |ranks| == 8 && |rows| == 8 && i <= 8
    requires RowsParse(ranks, rows)
    ensures SquaresFrom(ranks, i).Ok? && LaidOut(SquaresFrom(ranks, i).value, rows, i)
    decreases 8 - i
  {
    if i < 8 {
      SquaresFromRows(ranks, rows, i + 1);
      var head := rows[7 - i];
      assert RankSquares(ranks[7 - i]) == Ok(head) && |head| == 8;
      SquaresFromStep(ranks, head, i);
      RowsShift(head, SquaresFrom(ranks, i + 1).value, rows, i);
    }
  }

  /// With eight ranks of eight squares each, the first rank text of the
  /// field becomes rank 8 and the last one rank 1.
  lemma FenBoardRanks(s: string)
    requires |Components(s, '/')| == 8
    requires forall j :: 0 <= j < 8 ==> RankSquares(Components(s, '/')[j]).Ok? && |RankSquares(Components(s, '/')[j]).value| == 8
    ensures FenBoard(s).Ok? && |FenBoard(s).value| == 64
    ensures forall r: nat :: r < 8 ==> RankRow(FenBoard(s).value, r) == RankSquares(Components(s, '/')[7 - r]).value
  {
    var rows := seq(8, j requires 0 <= j < 8 => RankSquares(Components(s, '/')[j]).value);
    assert RowsParse(Components(s, '/'), rows);
    SquaresFromRows(Components(s, '/'), rows, 0);
    assert LaidOut(FenBoard(s).value, rows, 0);
  }

  // The rewriting in `fenRank` as run-length coding.

  /// The number of '1's at the front of `s`.
  function LeadingOnes(s: string): (k: nat)
    ensures k <= |s|
  {
    if |s| > 0 && s[0] == '1' then 1 + LeadingOnes(s[1..]) else 0
  }

  lemma {:induction false} LeadingOnesRun(s: string)
    ensures s[..LeadingOnes(s)] == Ones(LeadingOnes(s))
    ensures LeadingOnes(s) < |s| ==> s[LeadingOnes(s)] != '1'
  {
    if |s| > 0 && s[0] == '1' {
      LeadingOnesRun(s[1..]);
    }
  }

  lemma {:induction false} LeadingOnesOfOnes(n: nat)
    ensures LeadingOnes(Ones(n)) == n
  {
    if n > 0 {
      assert Ones(n)[1..] == Ones(n - 1);
      LeadingOnesOfOnes(n - 1);
    }
  }

  /// `s` with each maximal run of `k` '1's, `k >= n`, written as the digit
  /// `k`; shorter runs and every other character stay as they are.
  function Collapse(s: string, n: nat): string
    requires |s| <= 8
    decreases |s|
  {
    if |s| == 0 then ""
    else if s[0] != '1' then [s[0]] + Collapse(s[1..], n)
    else
      var k := LeadingOnes(s);
      (if k >= n then [Digit(k)] else Ones(k)) + Collapse(s[k..], n)
  }

  lemma ReplaceAllCons(c: char, t: string, pat: string, rep: string)
    requires |pat| > 0 && c != pat[0]
    ensures ReplaceAll([c] + t, pat, rep) == [c] + ReplaceAll(t, pat, rep)
  {
    assert ([c] + t)[1..] == t;
    if |[c] + t| >= |pat| {
      assert ([c] + t)[..|pat|][0] == c;
    }
  }

  lemma ReplaceAllMatch(pat: string, t: string, rep: string)
    requires |pat| > 0
    ensures ReplaceAll(pat + t, pat, rep) == rep + ReplaceAll(t, pat, rep)
  {
    assert (pat + t)[..|pat|] == pat;
    assert (pat + t)[|pat|..] == t;
  }

  /// A run of fewer than `n` '1's that ends the string or is followed by
  /// another character is passed over by the pattern `Ones(n)`.
  lemma {:induction false} ReplaceAllShortRun(k: nat, t: string, n: nat, rep: string)
    requires k < n && (|t| == 0 || t[0] != '1')
    ensures ReplaceAll(Ones(k) + t, Ones(n), rep) == Ones(k) + ReplaceAll(t, Ones(n), rep)
  {
    if k > 0 {
      var u := Ones(k) + t;
      var v := Ones(k - 1) + t;
      assert Ones(k) == ['1'] + Ones(k - 1);
      assert u == ['1'] + v;
      ReplaceAllShortRun(k - 1, t, n, rep);
      if |u| < n {
        ReplaceAllTooShort(u, Ones(n), rep);
        ReplaceAllTooShort(t, Ones(n), rep);
      } else {
        assert u[..n] != Ones(n) by {
          assert u[..n][k] == t[0];
        }
        ReplaceAllSkip(u, Ones(n), rep);
        assert u[1..] == v;
        AppendAssociates(['1'], Ones(k - 1), ReplaceAll(t, Ones(n), rep));
      }
    } else {
      assert Ones(0) + t == t;
    }
  }

  lemma ReplaceAllTooShort(s: string, pat: string, rep: string)
    requires 0 < |pat| && |s| < |pat|
    ensures ReplaceAll(s, pat, rep) == s
  {
  }

  lemma ReplaceAllSkip(s: string, pat: string, rep: string)
    requires 0 < |pat| <= |s| && s[..|pat|] != pat
    ensures ReplaceAll(s, pat, rep) == [s[0]] + ReplaceAll(s[1..], pat, rep)
  {
  }

  /// One rewrite step: once runs longer than `n` are digits, replacing
  /// `Ones(n)` turns exactly the runs of length `n` into digits.
  lemma {:induction false} CollapseStep(s: string, n: nat)
    requires 2 <= n <= 8 && |s| <= 8
    ensures ReplaceAll(Collapse(s, n + 1), Ones(n), [Digit(n)]) == Collapse(s, n)
    decreases |s|
  {
    if |s| == 0 {
    } else if s[0] != '1' {
      CollapseStep(s[1..], n);
      ReplaceAllCons(s[0], Collapse(s[1..], n + 1), Ones(n), [Digit(n)]);
    } else {
      var k := LeadingOnes(s);
      var rest := s[k..];
      LeadingOnesRun(s);
      CollapseStep(rest, n);
      var t := Collapse(rest, n + 1);
      if k > n {
        ReplaceAllCons(Digit(k), t, Ones(n), [Digit(n)]);
      } else if k == n {
        ReplaceAllMatch(Ones(n), t, [Digit(n)]);
      } else {
        ReplaceAllShortRun(k, t, n, [Digit(n)]);
      }
    }
  }

  /// No run of eight characters is long enough for a rewrite to miss.
  lemma {:induction false} CollapseNothing(s: string)
    requires |s| <= 8
    ensures Collapse(s, 9) == s
    decreases |s|
  {
    if |s| > 0 {
      if s[0] != '1' {
        CollapseNothing(s[1..]);
      } else {
        var k := LeadingOnes(s);
        LeadingOnesRun(s);
        CollapseNothing(s[k..]);
        assert Collapse(s, 9) == Ones(k) + s[k..];
        assert s == s[..k] + s[k..];
      }
    }
  }

  lemma {:induction false} RewrittenCollapse(s: string, n: nat)
    requires 1 <= n <= 8 && |s| <= 8
    ensures Rewritten(Collapse(s, n + 1), n) == Collapse(s, 2)
    decreases n
  {
    if n >= 2 {
      CollapseStep(s, n);
      RewrittenCollapse(s, n - 1);
    }
  }

  /// The seven rewrites of `fenRank` write every maximal run of two or
  /// more empty squares as its length.
  lemma FenRankCollapses(b: Squares, rank: Coord)
    ensures FenRankText(b, rank) == Collapse(Spelled(Row(b, rank)), 2)
  {
    CollapseNothing(Spelled(Row(b, rank)));
    RewrittenCollapse(Spelled(Row(b, rank)), 8);
  }

  // Reading back what was written.

  /// Strings of '1's and piece letters, as `Spelled` writes them.
  ghost predicate Letters(s: string)
  {
    forall i :: 0 <= i < |s| ==> s[i] == '1' || FenPiece(s[i]).Some?
  }

  /// The squares a string of '1's and piece letters stands for.
  function Expand(s: string): (row: seq<Option<Piece>>)
    ensures |row| == |s|
  {
    seq(|s|, i requires 0 <= i < |s| => if s[i] == '1' then None else FenPiece(s[i]))
  }

  lemma ExpandAppend(a: string, b: string)
    ensures Expand(a + b) == Expand(a) + Expand(b)
  {
  }

  lemma ExpandOnes(k: nat)
    ensures Expand(Ones(k)) == seq(k, _ => None)
  {
  }

  lemma {:induction false} SpelledAt(row: seq<Option<Piece>>)
    ensures forall i :: 0 <= i < |row| ==> Spelled(row)[i] == FenSquare(row[i])[0]
  {
    if |row| > 0 {
      SpelledAt(row[1..]);
    }
  }

  /// Spelling a row out and reading it back gives the row.
  lemma SpelledExpands(row: seq<Option<Piece>>)
    ensures Letters(Spelled(row)) && Expand(Spelled(row)) == row
  {
    SpelledAt(row);
    forall i | 0 <= i < |row|
      ensures Spelled(row)[i] == '1' || FenPiece(Spelled(row)[i]).Some?
      ensures Expand(Spelled(row))[i] == row[i]
    {
      if row[i].Some? {
        PieceFenLetters(row[i].value, PieceFen(row[i].value));
      }
    }
  }

  /// The character `Collapse(s, 2)` writes for a run of `k` '1's.
  function RunChar(k: nat): char
    requires 1 <= k <= 8
  {
    if k >= 2 then Digit(k) else '1'
  }

  lemma RunCharSquares(k: nat)
    requires 1 <= k <= 7
    ensures CharSquares(RunChar(k)) == Ok(seq(k, _ => None))
  {
  }

  lemma CollapseRun(s: string)
    requires |s| <= 8 && |s| > 0 && s[0] == '1'
    ensures 1 <= LeadingOnes(s)
    ensures Collapse(s, 2) == [RunChar(LeadingOnes(s))] + Collapse(s[LeadingOnes(s)..], 2)
  {
    if LeadingOnes(s) == 1 {
      assert Ones(1) == ['1'];
    }
  }

  lemma RunCharReads(k: nat, t: string, e: seq<Option<Piece>>)
    requires 1 <= k <= 7 && RankChars(t) == Ok(e)
    ensures RankChars([RunChar(k)] + t) == Ok(seq(k, _ => None) + e)
  {
    RunCharSquares(k);
    RankCharsCons(RunChar(k), t);
  }

  lemma ExpandRun(s: string)
    ensures Expand(s) == seq(LeadingOnes(s), _ => None) + Expand(s[LeadingOnes(s)..])
  {
    var k := LeadingOnes(s);
    LeadingOnesRun(s);
    assert s == Ones(k) + s[k..];
    ExpandAppend(Ones(k), s[k..]);
    ExpandOnes(k);
  }

  /// A rank other than eight '1's starts with at most seven of them.
  lemma LeadingOnesShort(s: string)
    requires |s| <= 8 && s != Ones(8)
    ensures LeadingOnes(s) <= 7
  {
    LeadingOnesRun(s);
  }

  /// The run case of `RankCharsCollapse`: a run of `k` '1's, at most 7,
  /// is written as one character that reads as `k` empty squares.
  lemma CollapseRunChars(s: string)
    requires |s| <= 8 && s != Ones(8) && |s| > 0 && s[0] == '1'
    requires RankChars(Collapse(s[LeadingOnes(s)..], 2)) == Ok(Expand(s[LeadingOnes(s)..]))
    ensures RankChars(Collapse(s, 2)) == Ok(Expand(s))
  {
    var k := LeadingOnes(s);
    LeadingOnesShort(s);
    CollapseRun(s);
    var rest := s[k..];
    RunCharReads(k, Collapse(rest, 2), Expand(rest));
    ExpandRun(s);
  }

  /// Reading a collapsed rank gives back the squares it was written from,
  /// unless the rank is eight empty squares (whose "8" only the whole-rank
  /// case reads).
  lemma {:induction false} RankCharsCollapse(s: string)
    requires |s| <= 8 && s != Ones(8) && Letters(s)
    ensures RankChars(Collapse(s, 2)) == Ok(Expand(s))
    decreases |s|
  {
    if |s| > 0 {
      if s[0] != '1' {
        RankCharsCollapse(s[1..]);
        RankCharsCons(s[0], Collapse(s[1..], 2));
        assert Expand(s) == [FenPiece(s[0])] + Expand(s[1..]);
      } else {
        var k := LeadingOnes(s);
        RankCharsCollapse(s[k..]);
        CollapseRunChars(s);
      }
    }
  }

  lemma CollapseEmptyRank()
    ensures Collapse(Ones(8), 2) == "8"
  {
    LeadingOnesOfOnes(8);
    assert Ones(8)[8..] == "";
  }

  /// The rank parser reads back every collapsed string of '1's and piece
  /// letters that is eight characters long.
  lemma RankSquaresCollapse(s: string)
    requires |s| == 8 && Letters(s)
    ensures RankSquares(Collapse(s, 2)) == Ok(Expand(s))
  {
    if s == Ones(8) {
      CollapseEmptyRank();
      assert Expand(s) == seq(8, _ => None);
    } else {
      RankCharsCollapse(s);
      assert RankChars("8").Err?;
    }
  }

  /// Each rank text parses back to the rank it was written from.
  lemma RankRoundTrip(b: Squares, rank: Coord)
    ensures RankSquares(FenRankText(b, rank)) == Ok(Row(b, rank))
  {
    FenRankCollapses(b, rank);
    SpelledExpands(Row(b, rank));
    RankSquaresCollapse(Spelled(Row(b, rank)));
  }

  // The whole field.

  /// `Board.fen` is eight ranks joined by '/', rank 8 first; each of them
  /// parses back to its row of eight squares.
  lemma BoardFenRanks(b: Squares)
    ensures Components(BoardFen(b), '/') == FenRanks(b)
    ensures forall i :: 0 <= i < 8 ==> RankSquares(FenRanks(b)[i]) == Ok(Row(b, 7 - i))
  {
    forall i | 0 <= i < 8
      ensures RankSquares(FenRanks(b)[i]) == Ok(Row(b, 7 - i)) && '/' !in FenRanks(b)[i]
    {
      RankRoundTrip(b, 7 - i);
      RankSquaresNoSeparator(FenRanks(b)[i]);
    }
    ComponentsJoin(FenRanks(b), '/');
  }

  lemma {:induction false} SquaresFromBoard(b: Squares, i: nat)
    requires i <= 8
    requires forall j :: 0 <= j < 8 ==> RankSquares(FenRanks(b)[j]) == Ok(Row(b, 7 - j))
    ensures SquaresFrom(FenRanks(b), i) == Ok(b[8 * i..])
    decreases 8 - i
  {
    if i < 8 {
      SquaresFromBoard(b, i + 1);
      assert RankSquares(FenRanks(b)[7 - i]) == Ok(Row(b, i));
      RowThenRest(b, i);
    }
  }

  /// The squares from rank `i` on are that rank's row followed by the rest.
  lemma RowThenRest(b: Squares, i: nat)
    requires i < 8
    ensures b[8 * i..] == Row(b, i) + b[8 * (i + 1)..]
  {
  }

  /// Reading what `Board.fen` writes gives back the board.
  lemma FenRoundTrip(b: Squares)
    ensures FenBoard(BoardFen(b)) == Ok(b)
  {
    BoardFenRanks(b);
    SquaresFromBoard(b, 0);
    assert b[0..] == b;
  }

  // The shape of a written rank.

  predicate IsDigit(c: char)
  {
    '0' <= c <= '9'
  }

  /// No digit directly follows another.
  ghost predicate NoAdjacentDigits(r: string)
  {
    forall i :: 0 <= i < |r| - 1 ==> !(IsDigit(r[i]) && IsDigit(r[i + 1]))
  }

  lemma NoAdjacentDigitsCons(c: char, t: string)
    requires NoAdjacentDigits(t) && (!IsDigit(c) || |t| == 0 || !IsDigit(t[0]))
    ensures NoAdjacentDigits([c] + t)
  {
    assert forall i :: 0 < i < |t| + 1 ==> ([c] + t)[i] == t[i - 1];
  }

  /// A collapsed rank never has two digits in a row: every run of empty
  /// squares is maximal, so each digit stands between letters.
  lemma {:induction false} CollapseNoAdjacentDigits(s: string)
    requires |s| <= 8 && Letters(s)
    ensures NoAdjacentDigits(Collapse(s, 2))
    ensures |s| > 0 ==> |Collapse(s, 2)| > 0 && (IsDigit(Collapse(s, 2)[0]) <==> s[0] == '1')
    decreases |s|
  {
    if |s| > 0 {
      if s[0] != '1' {
        CollapseNoAdjacentDigits(s[1..]);
        NoAdjacentDigitsCons(s[0], Collapse(s[1..], 2));
      } else {
        var k := LeadingOnes(s);
        LeadingOnesRun(s);
        CollapseRun(s);
        CollapseNoAdjacentDigits(s[k..]);
        NoAdjacentDigitsCons(RunChar(k), Collapse(s[k..], 2));
      }
    }
  }

  /// Each rank `Board.fen` writes has no two digits in a row.
  lemma FenRankNoAdjacentDigits(b: Squares, rank: Coord)
    ensures NoAdjacentDigits(FenRankText(b, rank))
  {
    FenRankCollapses(b, rank);
    SpelledExpands(Row(b, rank));
    CollapseNoAdjacentDigits(Spelled(Row(b, rank)));
  }
}
