/// Static evaluation (kjchess/evaluate.swift): the material value of every
/// piece on the board plus a bonus or penalty for the square it stands on,
/// added for White and subtracted for Black. The source works in pawns as
/// `Double`; every value it uses is a whole number of hundredths, so the
/// model counts hundredths as `int` (one pawn is 100).
module Evaluation {
  import opened Players
  import opened Pieces
  import opened Locations
  import opened Wrappers
  import opened Boards
  import Positions

  /// `Piece.materialValue`, in hundredths of a pawn.
  function MaterialValue(k: PieceKind): int
  {
    match k
    case Pawn => 100
    case Knight => 320
    case Bishop => 330
    case Rook => 500
    case Queen => 900
    case King => 20000
  }

  /// The pieces are worth more in the order pawn, knight, bishop, rook,
  /// queen, king, and the king outweighs everything else a side can have
  /// (eight pawns promoted to queens next to the other original pieces).
  lemma MaterialOrder()
    ensures 0 < MaterialValue(Pawn) < MaterialValue(Knight) < MaterialValue(Bishop)
    ensures MaterialValue(Bishop) < MaterialValue(Rook) < MaterialValue(Queen) < MaterialValue(King)
    ensures MaterialValue(King) > 9 * MaterialValue(Queen) + 2 * MaterialValue(Rook)
                                  + 2 * MaterialValue(Bishop) + 2 * MaterialValue(Knight)
  {
  }

  // Piece-square tables, one row of eight files per rank, rank 1 first, so
  // that entry [r][f] is the source's entry at index r * 8 + f.

  const WhitePawnTable: seq<seq<int>> := [
    [  0,   0,   0,   0,   0,   0,   0,   0],
    [  5,  10,  10, -20, -20,  10,  10,   5],
    [  5,  -5, -10,   0,   0, -10,  -5,   5],
    [  0,   0,   0,  20,  20,   0,   0,   0],
    [  5,   5,  10,  25,  25,  10,   5,   5],
    [ 10,  10,  20,  30,  30,  20,  10,  10],
    [ 50,  50,  50,  50,  50,  50,  50,  50],
    [  0,   0,   0,   0,   0,   0,   0,   0]]

  const BlackPawnTable: seq<seq<int>> := [
    [  0,   0,   0,   0,   0,   0,   0,   0],
    [ 50,  50,  50,  50,  50,  50,  50,  50],
    [ 10,  10,  20,  30,  30,  20,  10,  10],
    [  5,   5,  10,  25,  25,  10,   5,   5],
    [  0,   0,   0,  20,  20,   0,   0,   0],
    [  5,  -5, -10,   0,   0, -10,  -5,   5],
    [  5,  10,  10, -20, -20,  10,  10,   5],
    [  0,   0,   0,   0,   0,   0,   0,   0]]

  const WhiteKnightTable: seq<seq<int>> := [
    [-50, -40, -30, -30, -30, -30, -40, -50],
    [-40, -20,   0,   5,   5,   0, -20, -40],
    [-30,   5,  10,  15,  15,  10,   5, -30],
    [-30,   0,  15,  20,  20,  15,   0, -30],
    [-30,   5,  15,  20,  20,  15,   5, -30],
    [-30,   0,  10,  15,  15,  10,   0, -30],
    [-40, -20,   0,   0,   0,   0, -20, -40],
    [-50, -40, -30, -30, -30, -30, -40, -50]]

  const BlackKnightTable: seq<seq<int>> := [
    [-50, -40, -30, -30, -30, -30, -40, -50],
    [-40, -20,   0,   0,   0,   0, -20, -40],
    [-30,   0,  10,  15,  15,  10,   0, -30],
    [-30,   5,  15,  20,  20,  15,   5, -30],
    [-30,   0,  15,  20,  20,  15,   0, -30],
    [-30,   5,  10,  15,  15,  10,   5, -30],
    [-40, -20,   0,   5,   5,   0, -20, -40],
    [-50, -40, -30, -30, -30, -30, -40, -50]]

  const WhiteBishopTable: seq<seq<int>> := [
    [-20, -10, -10, -10, -10, -10, -10, -20],
    [-10,   5,   0,   0,   0,   0,   5, -10],
    [-10,  10,  10,  10,  10,  10,  10, -10],
    [-10,   0,  10,  10,  10,  10,   0, -10],
    [-10,   5,   5,  10,  10,   5,   5, -10],
    [-10,   0,   5,  10,  10,   5,   0, -10],
    [-10,   0,   0,   0,   0,   0,   0, -10],
    [-20, -10, -10, -10, -10, -10, -10, -20]]

  const BlackBishopTable: seq<seq<int>> := [
    [-20, -10, -10, -10, -10, -10, -10, -20],
    [-10,   0,   0,   0,   0,   0,   0, -10],
    [-10,   0,   5,  10,  10,   5,   0, -10],
    [-10,   5,   5,  10,  10,   5,   5, -10],
    [-10,   0,  10,  10,  10,  10,   0, -10],
    [-10,  10,  10,  10,  10,  10,  10, -10],
    [-10,   5,   0,   0,   0,   0,   5, -10],
    [-20, -10, -10, -10, -10, -10, -10, -20]]

  const WhiteRookTable: seq<seq<int>> := [
    [  0,   0,   0,   5,   5,   0,   0,   0],
    [ -5,   0,   0,   0,   0,   0,   0,  -5],
    [ -5,   0,   0,   0,   0,   0,   0,  -5],
    [ -5,   0,   0,   0,   0,   0,   0,  -5],
    [ -5,   0,   0,   0,   0,   0,   0,  -5],
    [ -5,   0,   0,   0,   0,   0,   0,  -5],
    [  5,  10,  10,  10,  10,  10,  10,   5],
    [  0,   0,   0,   0,   0,   0,   0,   0]]

  const BlackRookTable: seq<seq<int>> := [
    [  0,   0,   0,   0,   0,   0,   0,   0],
    [  5,  10,  10,  10,  10,  10,  10,   5],
    [ -5,   0,   0,   0,   0,   0,   0,  -5],
    [ -5,   0,   0,   0,   0,   0,   0,  -5],
    [ -5,   0,   0,   0,   0,   0,   0,  -5],
    [ -5,   0,   0,   0,   0,   0,   0,  -5],
    [ -5,   0,   0,   0,   0,   0,   0,  -5],
    [  0,   0,   0,   5,   5,   0,   0,   0]]

  const WhiteQueenTable: seq<seq<int>> := [
    [-20, -10, -10,  -5,  -5, -10, -10, -20],
    [-10,   0,   5,   0,   0,   0,   0, -10],
    [-10,   5,   5,   5,   5,   5,   0, -10],
    [  0,   0,   5,   5,   5,   5,   0,  -5],
    [ -5,   0,   5,   5,   5,   5,   0,  -5],
    [-10,   0,   5,   5,   5,   5,   0, -10],
    [-10,   0,   0,   0,   0,   0,   0, -10],
    [-20, -10, -10,  -5,  -5, -10, -10, -20]]

  const BlackQueenTable: seq<seq<int>> := [
    [-20, -10, -10,  -5,  -5, -10, -10, -20],
    [-10,   0,   0,   0,   0,   0,   0, -10],
    [-10,   0,   5,   5,   5,   5,   0, -10],
    [ -5,   0,   5,   5,   5,   5,   0,  -5],
    [  0,   0,   5,   5,   5,   5,   0,  -5],
    [-10,   5,   5,   5,   5,   5,   0, -10],
    [-10,   0,   5,   0,   0,   0,   0, -10],
    [-20, -10, -10,  -5,  -5, -10, -10, -20]]

  const WhiteKingTable: seq<seq<int>> := [
    [ 20,  30,  10,   0,   0,  10,  30,  20],
    [ 20,  20,   0,   0,   0,   0,  20,  20],
    [-10, -20, -20, -20, -20, -20, -20, -10],
    [-20, -30, -30, -40, -40, -30, -30, -20],
    [-30, -40, -40, -50, -50, -40, -40, -30],
    [-30, -40, -40, -50, -50, -40, -40, -30],
    [-30, -40, -40, -50, -50, -40, -40, -30],
    [-30, -40, -40, -50, -50, -40, -40, -30]]

  const BlackKingTable: seq<seq<int>> := [
    [-30, -40, -40, -50, -50, -40, -40, -30],
    [-30, -40, -40, -50, -50, -40, -40, -30],
    [-30, -40, -40, -50, -50, -40, -40, -30],
    [-30, -40, -40, -50, -50, -40, -40, -30],
    [-20, -30, -30, -40, -40, -30, -30, -20],
    [-10, -20, -20, -20, -20, -20, -20, -10],
    [ 20,  20,   0,   0,   0,   0,  20,  20],
    [ 20,  30,  10,   0,   0,  10,  30,  20]]

  /// A table of eight ranks of eight files.
  predicate IsTable(t: seq<seq<int>>)
  {
    |t| == 8 && forall r | 0 <= r < 8 :: |t[r]| == 8
  }

  /// `Board.squareValues(piece:)`: the table for a piece's player and kind.
  function SquareValues(p: Piece): (t: seq<seq<int>>)
    ensures IsTable(t)
  {
    match (p.player, p.kind)
    case (White, Pawn) => WhitePawnTable
    case (White, Knight) => WhiteKnightTable
    case (White, Bishop) => WhiteBishopTable
    case (White, Rook) => WhiteRookTable
    case (White, Queen) => WhiteQueenTable
    case (White, King) => WhiteKingTable
    case (Black, Pawn) => BlackPawnTable
    case (Black, Knight) => BlackKnightTable
    case (Black, Bishop) => BlackBishopTable
    case (Black, Rook) => BlackRookTable
    case (Black, Queen) => BlackQueenTable
    case (Black, King) => BlackKingTable
  }

  /// The square bonus of a piece standing on `l`.
  function SquareValue(p: Piece, l: Location): int
  {
    SquareValues(p)[l.rank][l.file]
  }

  /// The square a location faces from the other side of the board: same
  /// file, rank counted from the opponent's back rank.
  function Mirror(l: Location): (m: Location)
    ensures m.file == l.file && m.rank == 7 - l.rank
  {
    Location(l.file, 7 - l.rank)
  }

  /// Every Black table is the White table of the same kind read from the
  /// other end of the board, so a Black piece earns on a square exactly what
  /// a White piece of its kind earns on the mirrored square.
  lemma {:induction false} BlackTablesMirrorWhite(k: PieceKind)
    ensures forall r | 0 <= r < 8 ::
      SquareValues(Piece(Black, k))[7 - r] == SquareValues(Piece(White, k))[r]
  {
    var b := SquareValues(Piece(Black, k));
    var w := SquareValues(Piece(White, k));
    assert b[7] == w[0];
    assert b[6] == w[1];
    assert b[5] == w[2];
    assert b[4] == w[3];
    assert b[3] == w[4];
    assert b[2] == w[5];
    assert b[1] == w[6];
    assert b[0] == w[7];
  }

  lemma SquareValueMirror(p: Piece, l: Location)
    ensures SquareValue(Piece(Opponent(p.player), p.kind), Mirror(l)) == SquareValue(p, l)
  {
    BlackTablesMirrorWhite(p.kind);
    assert SquareValues(Piece(Black, p.kind))[7 - l.rank] == SquareValues(Piece(White, p.kind))[l.rank];
  }

  /// `pieceSquareValue(squareIndex:)`: nothing for an empty square,
  /// otherwise material plus square bonus, negated for Black.
  function SquareScore(b: Squares, l: Location): int
  {
    match At(b, l)
    case None => 0
    case Some(p) =>
      var value := MaterialValue(p.kind) + SquareValue(p, l);
      if p.player == Black then -value else value
  }

  /// Every entry of a table lies within half a pawn either way.
  predicate WithinHalfPawn(t: seq<seq<int>>)
  {
    forall r, f | 0 <= r < |t| && 0 <= f < |t[r]| :: -50 <= t[r][f] <= 50
  }

  lemma WhiteTablesWithinHalfPawn(k: PieceKind)
    ensures WithinHalfPawn(SquareValues(Piece(White, k)))
  {
    if k == Pawn || k == Knight || k == Bishop {
      MinorTablesWithinHalfPawn(k);
    } else {
      MajorTablesWithinHalfPawn(k);
    }
  }

  lemma MinorTablesWithinHalfPawn(k: PieceKind)
    requires k == Pawn || k == Knight || k == Bishop
    ensures WithinHalfPawn(SquareValues(Piece(White, k)))
  {
    match k
    case Pawn => assert WithinHalfPawn(WhitePawnTable);
    case Knight => assert WithinHalfPawn(WhiteKnightTable);
    case Bishop => assert WithinHalfPawn(WhiteBishopTable);
  }

  lemma MajorTablesWithinHalfPawn(k: PieceKind)
    requires k == Rook || k == Queen || k == King
    ensures WithinHalfPawn(SquareValues(Piece(White, k)))
  {
    match k
    case Rook => assert WithinHalfPawn(WhiteRookTable);
    case Queen => assert WithinHalfPawn(WhiteQueenTable);
    case King => assert WithinHalfPawn(WhiteKingTable);
  }

  /// No square moves a piece's worth by more than half a pawn; the Black
  /// tables inherit the bound from the White ones through the mirror.
  lemma TableBounds(p: Piece, l: Location)
    ensures -50 <= SquareValue(p, l) <= 50
  {
    WhiteTablesWithinHalfPawn(p.kind);
    if p.player == Black {
      SquareValueMirror(p, l);
      assert SquareValue(p, l) == SquareValue(Piece(White, p.kind), Mirror(l));
    }
  }

  /// The sign of a square's score says whose piece stands there: a piece
  /// never loses more than half a pawn to its square, and no piece is worth
  /// less than a pawn.
  lemma SquareScoreSign(b: Squares, l: Location)
    ensures At(b, l).None? <==> SquareScore(b, l) == 0
    ensures At(b, l).Some? && At(b, l).value.player == White <==> SquareScore(b, l) > 0
    ensures At(b, l).Some? && At(b, l).value.player == Black <==> SquareScore(b, l) < 0
  {
    if At(b, l).Some? {
      TableBounds(At(b, l).value, l);
    }
  }

  /// The running sum `reduce` builds over the squares `0..<n`, in index
  /// order.
  function ScoreUpTo(b: Squares, n: int): int
    requires 0 <= n <= 64
  {
    if n == 0 then 0 else ScoreUpTo(b, n - 1) + SquareScore(b, LocationOfIndex(n - 1))
  }

  /// `Board.pieceSquareValue()`: the sum over all 64 squares.
  function PieceSquareValue(b: Squares): int
  {
    ScoreUpTo(b, |b|)
  }

  /// `evaluate(position:)`: the board's score; positive when White is
  /// ahead.
  function Evaluate(pos: Positions.Position): int
  {
    PieceSquareValue(pos.board)
  }

  /// No square is worth more than a king on its best square, either way.
  lemma SquareScoreBounds(b: Squares, l: Location)
    ensures -20050 <= SquareScore(b, l) <= 20050
  {
    if At(b, l).Some? {
      TableBounds(At(b, l).value, l);
    }
  }

  lemma {:induction false} ScoreUpToBounds(b: Squares, n: int)
    requires 0 <= n <= 64
    ensures -20050 * n <= ScoreUpTo(b, n) <= 20050 * n
  {
    if n > 0 {
      ScoreUpToBounds(b, n - 1);
      SquareScoreBounds(b, LocationOfIndex(n - 1));
    }
  }

  /// The evaluation stays within 64 kings' worth on their best squares, so
  /// any larger number can stand for an infinite score.
  lemma EvaluateBounds(pos: Positions.Position)
    ensures -1_283_200 <= Evaluate(pos) <= 1_283_200
  {
    ScoreUpToBounds(pos.board, |pos.board|);
  }

  /// Changing one square changes the running sum by the change in that
  /// square's score and by nothing else.
  lemma {:induction false} ScoreUpToSet(b: Squares, l: Location, v: Option<Piece>, n: int)
    requires 0 <= n <= 64
    ensures ScoreUpTo(Set(b, l, v), n) - ScoreUpTo(b, n) ==
      if n <= SquareIndex(l) then 0 else SquareScore(Set(b, l, v), l) - SquareScore(b, l)
  {
    if n > 0 {
      ScoreUpToSet(b, l, v, n - 1);
      var k := LocationOfIndex(n - 1);
      if k != l {
        SquareIndexInjective(k, l);
        assert At(Set(b, l, v), k) == At(b, k);
      }
    }
  }

  /// The score is additive over squares: replacing what stands on one
  /// square moves the total by exactly the change of that square's score.
  lemma PieceSquareValueSet(b: Squares, l: Location, v: Option<Piece>)
    ensures PieceSquareValue(Set(b, l, v)) ==
      PieceSquareValue(b) - SquareScore(b, l) + SquareScore(Set(b, l, v), l)
  {
    ScoreUpToSet(b, l, v, |b|);
  }

  /// A board without Black pieces scores at least zero, one without White
  /// pieces at most zero.
  lemma {:induction false} ScoreUpToOneSided(b: Squares, n: int)
    requires 0 <= n <= 64
    ensures (forall l :: At(b, l).Some? ==> At(b, l).value.player == White) ==> ScoreUpTo(b, n) >= 0
    ensures (forall l :: At(b, l).Some? ==> At(b, l).value.player == Black) ==> ScoreUpTo(b, n) <= 0
  {
    if n > 0 {
      ScoreUpToOneSided(b, n - 1);
      SquareScoreSign(b, LocationOfIndex(n - 1));
    }
  }

  lemma OneSidedScore(b: Squares)
    ensures (forall l :: At(b, l).Some? ==> At(b, l).value.player == White) ==> PieceSquareValue(b) >= 0
    ensures (forall l :: At(b, l).Some? ==> At(b, l).value.player == Black) ==> PieceSquareValue(b) <= 0
  {
    ScoreUpToOneSided(b, |b|);
  }

  /// A piece of the other colour.
  function SwappedPiece(s: Option<Piece>): (r: Option<Piece>)
    ensures r.Some? <==> s.Some?
    ensures s.Some? ==> r.value.kind == s.value.kind && r.value.player == Opponent(s.value.player)
  {
    match s
    case None => None
    case Some(p) => Some(Piece(Opponent(p.player), p.kind))
  }

  /// `s` is `b` seen from the other side: every piece has changed colour
  /// and stands on the mirrored square.
  ghost predicate IsSwapOf(s: Squares, b: Squares)
  {
    forall l :: At(s, l) == SwappedPiece(At(b, Mirror(l)))
  }

  /// The board seen from the other side.
  function SwapSides(b: Squares): (s: Squares)
    ensures IsSwapOf(s, b)
  {
    var s: Squares := seq(64, i requires 0 <= i < 64 => SwappedPiece(At(b, Mirror(LocationOfIndex(i)))));
    assert forall l :: At(s, l) == SwappedPiece(At(b, Mirror(l))) by {
      forall l ensures At(s, l) == SwappedPiece(At(b, Mirror(l))) {
        assert LocationOfIndex(SquareIndex(l)) == l;
      }
    }
    s
  }

  /// Swapping sides negates the score of the mirrored square.
  lemma SquareScoreSwapped(s: Squares, b: Squares, l: Location)
    requires IsSwapOf(s, b)
    ensures SquareScore(s, l) == -SquareScore(b, Mirror(l))
  {
    assert At(s, l) == SwappedPiece(At(b, Mirror(l)));
    match At(b, Mirror(l))
    case None =>
    case Some(p) =>
      SquareValueMirror(Piece(Opponent(p.player), p.kind), l);
      OpponentInvolution(p.player);
  }

  /// The sum of the first `n` squares of rank `r`.
  function RankScoreUpTo(b: Squares, r: Coord, n: int): int
    requires 0 <= n <= 8
  {
    if n == 0 then 0 else RankScoreUpTo(b, r, n - 1) + SquareScore(b, Location(n - 1, r))
  }

  lemma {:induction false} RankScoreSwapped(s: Squares, b: Squares, r: Coord, n: int)
    requires IsSwapOf(s, b) && 0 <= n <= 8
    ensures RankScoreUpTo(s, r, n) == -RankScoreUpTo(b, 7 - r, n)
  {
    if n > 0 {
      RankScoreSwapped(s, b, r, n - 1);
      SquareScoreSwapped(s, b, Location(n - 1, r));
    }
  }

  lemma {:induction false} ScoreUpToRanks(b: Squares, r: Coord, n: int)
    requires 0 <= n <= 8
    ensures ScoreUpTo(b, 8 * r + n) == ScoreUpTo(b, 8 * r) + RankScoreUpTo(b, r, n)
  {
    if n > 0 {
      ScoreUpToRanks(b, r, n - 1);
      ScoreUpToRankStep(b, r, n);
    }
  }

  /// The square counted last in the first `8 * r + n` is the `n`th of rank `r`.
  lemma ScoreUpToRankStep(b: Squares, r: Coord, n: int)
    requires 0 < n <= 8
    ensures ScoreUpTo(b, 8 * r + n) == ScoreUpTo(b, 8 * r + n - 1) + SquareScore(b, Location(n - 1, r))
  {
    var l := Location(n - 1, r);
    assert SquareIndex(l) == 8 * r + n - 1;
    ScoreUpToStep(b, l);
  }

  /// Summing up to a square's index and then that square.
  lemma ScoreUpToStep(b: Squares, l: Location)
    ensures ScoreUpTo(b, SquareIndex(l) + 1) == ScoreUpTo(b, SquareIndex(l)) + SquareScore(b, l)
  {
    SquareIndexInjective(LocationOfIndex(SquareIndex(l)), l);
  }

  /// The sum of the first `n` ranks.
  function RanksUpTo(b: Squares, n: int): int
    requires 0 <= n <= 8
  {
    if n == 0 then 0 else RanksUpTo(b, n - 1) + RankScoreUpTo(b, n - 1, 8)
  }

  lemma {:induction false} ScoreUpToByRanks(b: Squares, n: int)
    requires 0 <= n <= 8
    ensures ScoreUpTo(b, 8 * n) == RanksUpTo(b, n)
  {
    if n > 0 {
      ScoreUpToByRanks(b, n - 1);
      ScoreUpToRanks(b, n - 1, 8);
    }
  }

  /// The first `n` ranks of the swapped board score the opposite of the
  /// last `n` ranks of the original, which follow its first `m` ranks.
  lemma {:induction false} RanksUpToSwapped(s: Squares, b: Squares, n: int, m: int)
    requires IsSwapOf(s, b) && 0 <= n && 0 <= m && n + m == 8
    ensures RanksUpTo(s, n) == RanksUpTo(b, m) - RanksUpTo(b, n + m)
  {
    if n > 0 {
      RanksUpToSwapped(s, b, n - 1, m + 1);
      RankScoreSwapped(s, b, n - 1, 8);
    }
  }

  /// The evaluation is colour-blind: the same position with the colours
  /// swapped and the board turned round gets the opposite score.
  lemma PieceSquareValueSwapped(s: Squares, b: Squares)
    requires IsSwapOf(s, b)
    ensures PieceSquareValue(s) == -PieceSquareValue(b)
  {
    ScoreUpToByRanks(b, 8);
    ScoreUpToByRanks(s, 8);
    RanksUpToSwapped(s, b, 8, 0);
  }

  lemma PieceSquareValueSwapSides(b: Squares)
    ensures PieceSquareValue(SwapSides(b)) == -PieceSquareValue(b)
  {
    PieceSquareValueSwapped(SwapSides(b), b);
  }

  /// The starting layout is its own colour swap.
  lemma NewGameIsOwnSwap()
    ensures IsSwapOf(NewGame, NewGame)
  {
    forall l
      ensures At(NewGame, l) == SwappedPiece(At(NewGame, Mirror(l)))
    {
      NewGameLayout(l);
      NewGameLayout(Mirror(l));
    }
  }

  /// Neither side is ahead in the starting position.
  lemma NewGameIsLevel()
    ensures Evaluate(Positions.NewGame()) == 0
  {
    NewGameIsOwnSwap();
    PieceSquareValueSwapped(NewGame, NewGame);
  }
}
