/// The legal moves of the starting position: the twenty opening moves of
/// kjchessTests/Position_legalMovesTests.swift, each pawn one or two
/// squares ahead and each knight onto its two free squares.
///
/// The proof runs the generator piece by piece over the starting layout and
/// then shows that no move leaves the white king on e1 attacked: every
/// black piece stands on rank 7 or 8, and every line from e1 is closed by a
/// white piece or leaves the board before it gets there.
module OpeningMoves {
  import opened Wrappers
  import opened Players
  import opened Pieces
  import opened Locations
  import opened Moves
  import opened Boards
  import opened Positions
  import opened MoveGeneration
  import opened Attacks
  import opened Legality

  /// White to move on the starting layout, with no en-passant target.
  ghost predicate Opening(pos: Position)
  {
    pos.toMove == White && pos.enPassant == None && forall l :: At(pos.board, l) == InitialPiece(l)
  }

  /// The new game is an opening position.
  lemma NewGameIsOpening()
    ensures Opening(Positions.NewGame())
  {
  }

  // The moves of each white piece.

  /// A pawn on its start square can go one or two squares ahead and has
  /// nothing to capture.
  lemma PawnOpening(pos: Position, f: Coord)
    requires Opening(pos)
    ensures PieceMoves(pos, Piece(White, Pawn), Location(f, 1))
      == [Move(Piece(White, Pawn), Location(f, 1), Location(f, 2)), Move(Piece(White, Pawn), Location(f, 1), Location(f, 3))]
  {
    var piece, from := Piece(White, Pawn), Location(f, 1);
    assert At(pos.board, Location(f, 2)) == None && At(pos.board, Location(f, 3)) == None;
    assert PawnCapture(pos, piece, from, (-1, 1)) == [] by {
      if f > 0 { assert At(pos.board, Location(f - 1, 2)) == None; }
    }
    assert PawnCapture(pos, piece, from, (1, 1)) == [] by {
      if f < 7 { assert At(pos.board, Location(f + 1, 2)) == None; }
    }
    assert PawnCaptures(pos, piece, from, PawnCaptureVectors(White), 0) == [];
  }

  /// A knight on b1 or g1 can jump onto the two squares of the third rank
  /// next to its file, the one towards the h-file first.
  lemma KnightOpening(pos: Position, f: Coord)
    requires Opening(pos) && (f == 1 || f == 6)
    ensures PieceMoves(pos, Piece(White, Knight), Location(f, 0))
      == [Move(Piece(White, Knight), Location(f, 0), Location(f + 1, 2)), Move(Piece(White, Knight), Location(f, 0), Location(f - 1, 2))]
  {
    var b, knight, from := pos.board, Piece(White, Knight), Location(f, 0);
    var ks := KnightJumps;
    assert StepMoves(b, knight, from, ks[3..]) == [] by {
      assert forall i :: 0 <= i < |ks[3..]| ==> Blocked(b, knight, from.file + ks[3..][i].0, from.rank + ks[3..][i].1);
      StepMovesBlocked(b, knight, from, ks[3..]);
    }
    assert StepMoves(b, knight, from, ks[2..]) == [Move(knight, from, Location(f - 1, 2))] by {
      assert ks[2..][1..] == ks[3..];
      assert At(b, Location(f - 1, 2)) == None;
    }
    assert StepMoves(b, knight, from, ks[1..]) == [Move(knight, from, Location(f - 1, 2))] by {
      assert ks[1..][1..] == ks[2..];
    }
    assert At(b, Location(f + 1, 2)) == None;
  }

  /// Square (file, rank) is off the board or holds a piece of `piece`'s side.
  predicate Blocked(b: Squares, piece: Piece, file: int, rank: int)
  {
    IfValid(file, rank).None?
    || (At(b, IfValid(file, rank).value).Some? && At(b, IfValid(file, rank).value).value.player == piece.player)
  }

  /// A step that ends off the board or on an own piece produces no move.
  lemma StepTargetBlocked(b: Squares, piece: Piece, from: Location, d: Vector)
    requires Blocked(b, piece, from.file + d.0, from.rank + d.1)
    ensures StepTarget(b, piece, from, d) == []
  {
  }

  /// Steps that all end off the board or on own pieces produce no move.
  lemma {:induction false} StepMovesBlocked(b: Squares, piece: Piece, from: Location, ds: seq<Vector>)
    requires forall i :: 0 <= i < |ds| ==> Blocked(b, piece, from.file + ds[i].0, from.rank + ds[i].1)
    ensures StepMoves(b, piece, from, ds) == []
  {
    if |ds| > 0 {
      var rest := ds[1..];
      StepTargetBlocked(b, piece, from, ds[0]);
      forall i | 0 <= i < |rest|
        ensures Blocked(b, piece, from.file + rest[i].0, from.rank + rest[i].1)
      {
        assert rest[i] == ds[i + 1];
      }
      StepMovesBlocked(b, piece, from, rest);
    }
  }

  /// A ray whose first square is off the board or holds an own piece
  /// produces no move.
  lemma SlideRayBlocked(b: Squares, piece: Piece, from: Location, d: Vector)
    requires UnitVector(d) && Blocked(b, piece, from.file + d.0, from.rank + d.1)
    ensures SlideRay(b, piece, from, d, from.file + d.0, from.rank + d.1) == []
  {
    var file, rank := from.file + d.0, from.rank + d.1;
    if IfValid(file, rank).Some? {
      SlideRayOccupied(b, piece, from, d, file, rank);
    }
  }

  /// Rays whose first squares are all off the board or own pieces produce
  /// no move.
  lemma {:induction false} SlideRaysBlocked(b: Squares, piece: Piece, from: Location, ds: seq<Vector>, i: int)
    requires UnitVectors(ds) && 0 <= i <= |ds|
    requires forall j :: 0 <= j < |ds| ==> Blocked(b, piece, from.file + ds[j].0, from.rank + ds[j].1)
    ensures SlideRays(b, piece, from, ds, i) == []
    decreases |ds| - i
  {
    if i < |ds| {
      SlideRayBlocked(b, piece, from, ds[i]);
      SlideRaysBlocked(b, piece, from, ds, i + 1);
    }
  }

  /// The directions of rooks, bishops and queens are unit vectors.
  lemma SliderDirectionsUnit()
    ensures UnitVectors(RookVectors) && UnitVectors(BishopVectors) && UnitVectors(EightDirections)
  {
  }

  /// A rook, bishop or queen whose first square in every one of its
  /// directions is off the board or holds a piece of its own side has no
  /// move.
  lemma SliderBlocked(pos: Position, piece: Piece, from: Location, ds: seq<Vector>)
    requires (piece.kind == Rook && ds == RookVectors) || (piece.kind == Bishop && ds == BishopVectors)
      || (piece.kind == Queen && ds == EightDirections)
    requires forall i :: 0 <= i < |ds| ==> Blocked(pos.board, piece, from.file + ds[i].0, from.rank + ds[i].1)
    ensures PieceMoves(pos, piece, from) == []
  {
    SliderDirectionsUnit();
    SlidesBlocked(pos.board, piece, from, ds);
  }

  /// A slider whose first square in every direction is off the board or
  /// holds a piece of its own side has no move.
  lemma SlidesBlocked(b: Squares, piece: Piece, from: Location, ds: seq<Vector>)
    requires UnitVectors(ds)
    requires forall i :: 0 <= i < |ds| ==> Blocked(b, piece, from.file + ds[i].0, from.rank + ds[i].1)
    ensures SlideMoves(b, piece, from, ds) == []
  {
    SlideRaysBlocked(b, piece, from, ds, 0);
  }

  /// From the first rank of the starting layout, every step of at most one
  /// rank ends off the board or on a white piece.
  lemma FirstRankBlocked(pos: Position, piece: Piece, from: Location, ds: seq<Vector>)
    requires Opening(pos) && from.rank == 0 && piece.player == White && UnitVectors(ds)
    ensures forall i :: 0 <= i < |ds| ==> Blocked(pos.board, piece, from.file + ds[i].0, from.rank + ds[i].1)
  {
  }

  /// The king has no move in the starting position: every step meets a
  /// white piece or the edge, and the squares between king and rooks are
  /// occupied.
  lemma KingOpening(pos: Position)
    requires Opening(pos)
    ensures PieceMoves(pos, Piece(White, King), Location(4, 0)) == []
  {
    var king := Piece(White, King);
    FirstRankBlocked(pos, king, Location(4, 0), EightDirections);
    StepMovesBlocked(pos.board, king, Location(4, 0), EightDirections);
    assert At(pos.board, Location(5, 0)).Some? && At(pos.board, Location(3, 0)).Some?;
  }

  /// The rooks have no move in the starting position.
  lemma RookOpening(pos: Position, f: Coord)
    requires Opening(pos) && (f == 0 || f == 7)
    ensures PieceMoves(pos, Piece(White, Rook), Location(f, 0)) == []
  {
    var piece, from := Piece(White, Rook), Location(f, 0);
    FirstRankBlocked(pos, piece, from, RookVectors);
    SliderBlocked(pos, piece, from, RookVectors);
  }

  /// The bishops have no move in the starting position.
  lemma BishopOpening(pos: Position, f: Coord)
    requires Opening(pos) && (f == 2 || f == 5)
    ensures PieceMoves(pos, Piece(White, Bishop), Location(f, 0)) == []
  {
    var piece, from := Piece(White, Bishop), Location(f, 0);
    FirstRankBlocked(pos, piece, from, BishopVectors);
    SliderBlocked(pos, piece, from, BishopVectors);
  }

  /// The queen has no move in the starting position.
  lemma QueenOpening(pos: Position)
    requires Opening(pos)
    ensures PieceMoves(pos, Piece(White, Queen), Location(3, 0)) == []
  {
    var piece, from := Piece(White, Queen), Location(3, 0);
    FirstRankBlocked(pos, piece, from, EightDirections);
    SliderBlocked(pos, piece, from, EightDirections);
  }

  /// Rooks, bishops, the queen and the king have no move in the starting
  /// position.
  lemma BackRankOpening(pos: Position, f: Coord)
    requires Opening(pos) && f != 1 && f != 6
    ensures PieceMoves(pos, Piece(White, BackRank[f]), Location(f, 0)) == []
  {
    if f == 4 {
      assert BackRank[f] == King;
      KingOpening(pos);
    } else if f == 0 || f == 7 {
      assert BackRank[f] == Rook;
      RookOpening(pos, f);
    } else if f == 2 || f == 5 {
      assert BackRank[f] == Bishop;
      BishopOpening(pos, f);
    } else {
      assert f == 3 && BackRank[f] == Queen;
      QueenOpening(pos);
    }
  }

  // The pieces in square order and their moves.

  /// The white piece on square index `j` of the starting layout, with its
  /// square.
  function ArmyEntry(j: int): (Piece, Location)
    requires 0 <= j < 16
  {
    if j < 8 then (Piece(White, BackRank[j]), Location(j, 0)) else (Piece(White, Pawn), Location(j - 8, 1))
  }

  /// The first `n` white pieces of the starting layout in square order.
  function Army(n: int): (army: seq<(Piece, Location)>)
    requires 0 <= n <= 16
    ensures |army| == n && forall j :: 0 <= j < n ==> army[j] == ArmyEntry(j)
  {
    seq(n, j requires 0 <= j < n => ArmyEntry(j))
  }

  /// Square index `i` of the starting layout holds a white piece exactly
  /// when `i` is below 16, and then the piece and square of `ArmyEntry(i)`.
  lemma WhiteSquare(pos: Position, i: int)
    requires Opening(pos) && 0 <= i < 64
    ensures (pos.board[i].Some? && pos.board[i].value.player == White) <==> i < 16
    ensures i < 16 ==> (pos.board[i].value, LocationOfIndex(i)) == ArmyEntry(i)
  {
    var l := LocationOfIndex(i);
    assert pos.board[i] == At(pos.board, l) == InitialPiece(l);
    if i < 16 {
      SquareIndexInjective(l, ArmyEntry(i).1);
    }
  }

  /// `pieces(player:)` lists the white pieces of the starting layout from
  /// square index `i` on.
  lemma {:induction false} ArmyFrom(pos: Position, i: int, n: int)
    requires Opening(pos) && 0 <= i <= 64 && n == 16
    ensures PiecesFrom(pos.board, White, i) == if i < n then Army(n)[i..] else []
    decreases 64 - i
  {
    if i < 64 {
      ArmyFrom(pos, i + 1, n);
      WhiteSquare(pos, i);
      if i < n {
        assert Army(n)[i..] == [Army(n)[i]] + Army(n)[i + 1..];
      }
    }
  }

  /// The moves of the white piece on square index `j` at the start: two
  /// for each pawn and knight, none for the others.
  function MovesOfEntry(j: int): (r: seq<Move>)
    requires 0 <= j < 16
    ensures |r| == if j >= 8 || j == 1 || j == 6 then 2 else 0
  {
    if j >= 8 then
      [Move(Piece(White, Pawn), Location(j - 8, 1), Location(j - 8, 2)),
       Move(Piece(White, Pawn), Location(j - 8, 1), Location(j - 8, 3))]
    else if j == 1 || j == 6 then
      [Move(Piece(White, Knight), Location(j, 0), Location(j + 1, 2)),
       Move(Piece(White, Knight), Location(j, 0), Location(j - 1, 2))]
    else []
  }

  /// The generator's moves for one white piece of the starting layout.
  lemma EntryMoves(pos: Position, j: int)
    requires Opening(pos) && 0 <= j < 16
    ensures PieceMoves(pos, ArmyEntry(j).0, ArmyEntry(j).1) == MovesOfEntry(j)
  {
    if j >= 8 {
      PawnOpening(pos, j - 8);
    } else if j == 1 || j == 6 {
      assert BackRank[j] == Knight;
      KnightOpening(pos, j);
    } else {
      BackRankOpening(pos, j);
    }
  }

  /// The moves of the first `n` white pieces, one piece after the other.
  function MovesOfEntries(n: int): seq<Move>
    requires 0 <= n <= 16
  {
    if n == 0 then [] else MovesOfEntries(n - 1) + MovesOfEntry(n - 1)
  }

  /// `possibleMoves` at the start lists each piece's moves in square order.
  lemma {:induction false} ArmyMoves(pos: Position, n: int)
    requires Opening(pos) && 0 <= n <= 16
    ensures MovesOfPieces(pos, Army(n)) == MovesOfEntries(n)
  {
    if n > 0 {
      assert Army(n)[..n - 1] == Army(n - 1);
      ArmyMoves(pos, n - 1);
      EntryMoves(pos, n - 1);
    }
  }

  /// Twenty moves: two for each of the eight pawns and two knights.
  lemma {:induction false} MovesOfEntriesCount(n: int)
    requires 0 <= n <= 16
    ensures |MovesOfEntries(n)| == if n <= 8 then (if n >= 7 then 4 else if n >= 2 then 2 else 0) else 4 + 2 * (n - 8)
  {
    if n > 0 {
      MovesOfEntriesCount(n - 1);
    }
  }

  /// `pieces(player:)` at the start lists the sixteen white pieces in square
  /// order.
  lemma OpeningPieces(pos: Position, n: int)
    requires Opening(pos) && n == 16
    ensures PiecesOf(pos.board, White) == Army(n)
  {
    ArmyFrom(pos, 0, n);
    assert Army(n)[0..] == Army(n);
  }

  /// `possibleMoves` in the starting position: the moves of the pieces in
  /// square order, twenty of them.
  lemma OpeningPossibleMoves(pos: Position, n: int)
    requires Opening(pos) && n == 16
    ensures PossibleMoves(pos) == MovesOfEntries(n)
    ensures |PossibleMoves(pos)| == 20
  {
    OpeningPieces(pos, n);
    ArmyMoves(pos, n);
    MovesOfEntriesCount(n);
  }

  // No opening move leaves the king on e1 attacked.

  /// Every black piece on `b` stands on rank 7 or 8.
  ghost predicate BlackOnTop(b: Squares)
  {
    forall l :: At(b, l).Some? && At(b, l).value.player == Black ==> l.rank >= 6
  }

  /// While Black's pieces are all on the top two ranks, a black slider
  /// attacks up a rising line only across empty squares: every square of
  /// the line below rank 7 is on the board and empty.
  lemma {:induction false} RisingAttackCrossesEmpty(b: Squares, d: Vector, file: int, rank: int, kinds: seq<PieceKind>, j: nat)
    requires BlackOnTop(b) && UnitVector(d) && d.1 == 1 && rank + j <= 5
    ensures SlideAttacker(b, Black, d, file, rank, kinds) ==> EmptySquare(b, Along(file, rank, d, j))
    decreases j
  {
    if SlideAttacker(b, Black, d, file, rank, kinds) {
      assert IfValid(file, rank).Some?;
      assert At(b, IfValid(file, rank).value).None?;
      if j > 0 {
        RisingAttackCrossesEmpty(b, d, file + d.0, rank + d.1, kinds, j - 1);
        AlongStep(file, rank, d, j);
      }
    }
  }

  /// A knight, king or pawn attacking e1 would stand on one of the first
  /// three ranks, where Black has nothing.
  lemma E1NoStepAttack(b: Squares)
    requires BlackOnTop(b)
    ensures forall i :: 0 <= i < |KnightJumps| ==> !StepAttacker(b, Location(4, 0), Black, Knight, KnightJumps[i])
    ensures forall i :: 0 <= i < |EightDirections| ==> !StepAttacker(b, Location(4, 0), Black, King, EightDirections[i])
    ensures forall i :: 0 <= i < |PawnCaptureVectors(Black)| ==> !PawnAttacker(b, Location(4, 0), Black, PawnCaptureVectors(Black)[i])
  {
    forall i | 0 <= i < |KnightJumps|
      ensures !StepAttacker(b, Location(4, 0), Black, Knight, KnightJumps[i])
    {
      assert KnightJumps[i].1 <= 2;
    }
    forall i | 0 <= i < |EightDirections|
      ensures !StepAttacker(b, Location(4, 0), Black, King, EightDirections[i])
    {
      assert EightDirections[i].1 <= 1;
    }
  }

  /// No rook or queen attacks e1 along the first rank or up the e-file
  /// while d1 and f1 hold white pieces and the e-file is closed below rank 7.
  lemma E1NoRookAttack(b: Squares, r: int)
    requires BlackOnTop(b) && 1 <= r <= 5 && At(b, Location(4, r)).Some?
    requires At(b, Location(3, 0)).Some? && At(b, Location(3, 0)).value.player == White
    requires At(b, Location(5, 0)).Some? && At(b, Location(5, 0)).value.player == White
    ensures forall i :: 0 <= i < |RookVectors| ==> !SlideAttacked(b, Location(4, 0), Black, RookVectors[i], RookLikeKinds)
  {
    E1FileClosed(b, r);
    forall i | 0 <= i < |RookVectors|
      ensures !SlideAttacked(b, Location(4, 0), Black, RookVectors[i], RookLikeKinds)
    {
      if i == 0 {
        WhiteStopsAttack(b, (1, 0), Location(5, 0), RookLikeKinds);
      } else if i == 1 {
        WhiteStopsAttack(b, (-1, 0), Location(3, 0), RookLikeKinds);
      } else if i == 3 {
        assert IfValid(4, -1).None?;
      }
    }
  }

  /// A black slider's line stops at the first white piece.
  lemma WhiteStopsAttack(b: Squares, d: Vector, l: Location, kinds: seq<PieceKind>)
    requires UnitVector(d) && At(b, l).Some? && At(b, l).value.player == White
    ensures !SlideAttacker(b, Black, d, l.file, l.rank, kinds)
  {
    assert IfValid(l.file, l.rank) == Some(l);
  }

  /// No rook or queen attacks e1 up the e-file while a square from e2 to e6
  /// is occupied.
  lemma E1FileClosed(b: Squares, r: int)
    requires BlackOnTop(b) && 1 <= r <= 5 && At(b, Location(4, r)).Some?
    ensures !SlideAttacker(b, Black, (0, 1), 4, 1, RookLikeKinds)
  {
    RisingAttackCrossesEmpty(b, (0, 1), 4, 1, RookLikeKinds, r - 1);
    AlongClosedForm(4, 1, (0, 1), r - 1);
    assert IfValid(4, r) == Some(Location(4, r));
  }

  /// No bishop or queen attacks e1 along a diagonal: the rising ones leave
  /// the board before rank 7, the falling ones at once.
  lemma E1NoBishopAttack(b: Squares)
    requires BlackOnTop(b)
    ensures forall i :: 0 <= i < |BishopVectors| ==> !SlideAttacked(b, Location(4, 0), Black, BishopVectors[i], BishopLikeKinds)
  {
    RisingAttackCrossesEmpty(b, (1, 1), 5, 1, BishopLikeKinds, 3);
    AlongClosedForm(5, 1, (1, 1), 3);
    RisingAttackCrossesEmpty(b, (-1, 1), 3, 1, BishopLikeKinds, 4);
    AlongClosedForm(3, 1, (-1, 1), 4);
  }

  /// The king on e1 is not attacked when Black's pieces are all on the top
  /// two ranks, d1 and f1 hold white pieces and some square from e2 to e6
  /// is occupied.
  lemma E1Safe(b: Squares, r: int)
    requires BlackOnTop(b) && 1 <= r <= 5 && At(b, Location(4, r)).Some?
    requires At(b, Location(3, 0)).Some? && At(b, Location(3, 0)).value.player == White
    requires At(b, Location(5, 0)).Some? && At(b, Location(5, 0)).value.player == White
    ensures !Attacked(b, Location(4, 0), Black)
  {
    E1NoStepAttack(b);
    E1NoRookAttack(b, r);
    E1NoBishopAttack(b);
  }

  /// The king of the starting layout stands on e1, the fifth square.
  lemma BackRankKing(f: Coord)
    ensures BackRank[f] == King <==> f == 4
  {
    if f == 0 {} else if f == 1 {} else if f == 2 {} else if f == 3 {}
    else if f == 4 {} else if f == 5 {} else if f == 6 {} else {}
  }

  /// `kingLocation` finds the white king on e1.
  lemma OpeningKing(pos: Position)
    requires Opening(pos)
    ensures KingLocationOf(pos.board, White) == Some(Location(4, 0))
  {
    KingFromFirst(pos.board, White, 0);
    assert pos.board[4] == At(pos.board, Location(4, 0)) == Some(Piece(White, King));
    var l := KingLocationOf(pos.board, White).value;
    assert InitialPiece(l) == Some(Piece(White, King));
    BackRankKing(l.file);
  }

  /// A white piece of the first two ranks other than the queen, the king
  /// and the f1 bishop moves onto the third or fourth rank; the e-pawn stays
  /// on the e-file.
  predicate OpeningShape(m: Move)
  {
    m.Move? && m.piece.player == White && m.from.rank <= 1 && 2 <= m.to.rank <= 3
    && m.from != Location(3, 0) && m.from != Location(4, 0) && m.from != Location(5, 0)
    && (m.from == Location(4, 1) ==> m.to.file == 4)
  }

  /// Every move of an opening piece has that shape.
  lemma EntryShape(j: int, m: Move)
    requires 0 <= j < 16 && m in MovesOfEntry(j)
    ensures OpeningShape(m)
  {
  }

  /// A move of that shape leaves the king on e1 safe: Black still has only
  /// the top two ranks, d1 and f1 keep their pieces, and the e-file stays
  /// closed by the e-pawn wherever it goes.
  lemma ShapeSafe(pos: Position, m: Move)
    requires Opening(pos) && OpeningShape(m)
    ensures Placed(pos, m) && From(m) != Location(4, 0)
    ensures !Attacked(Boards.After(pos.board, m), Location(4, 0), Black)
  {
    var b := Boards.After(pos.board, m);
    AtSetAll();
    assert forall l :: At(b, l) == if l == m.to then Some(m.piece) else if l == m.from then None else InitialPiece(l);
    assert BlackOnTop(b);
    E1Safe(b, if m.from == Location(4, 1) then m.to.rank else 1);
  }

  /// Each move of the first `n` pieces belongs to one of them.
  lemma {:induction false} EntryOfMove(n: int, m: Move) returns (j: int)
    requires 0 <= n <= 16 && m in MovesOfEntries(n)
    ensures 0 <= j < n && m in MovesOfEntry(j)
  {
    if m in MovesOfEntry(n - 1) {
      j := n - 1;
    } else {
      j := EntryOfMove(n - 1, m);
    }
  }

  /// Swift's `filter` returns the whole list when every element passes.
  lemma {:induction false} FilterKeepsAll<T>(s: seq<T>, f: T --> bool)
    requires forall x :: x in s ==> f.requires(x) && f(x)
    ensures Filter(s, f) == s
  {
    if |s| > 0 {
      assert s[0] in s;
      FilterKeepsAll(s[1..], f);
    }
  }

  /// `legalMoves` in an opening position filters with the test for the
  /// king on e1.
  lemma OpeningFilter(pos: Position)
    requires Opening(pos)
    ensures forall m :: m in PossibleMoves(pos) ==> LegalityTest(pos, Location(4, 0)).requires(m)
    ensures LegalMoves(pos) == Filter(PossibleMoves(pos), LegalityTest(pos, Location(4, 0)))
  {
    OpeningKing(pos);
    LegalMovesCases(pos);
  }

  /// The king on e1 is not in check at the start.
  lemma OpeningNotInCheck(pos: Position)
    requires Opening(pos)
    ensures !InCheck(pos, Location(4, 0))
  {
    assert At(pos.board, Location(4, 1)).Some?;
    E1Safe(pos.board, 1);
  }

  /// Every possible move at the start has the opening shape.
  lemma PossibleMoveShape(pos: Position, m: Move)
    requires Opening(pos) && m in PossibleMoves(pos)
    ensures OpeningShape(m)
  {
    var n := 16;
    OpeningPossibleMoves(pos, n);
    var j := EntryOfMove(n, m);
    EntryShape(j, m);
  }

  /// A move of the opening shape passes `isLegal` with the king on e1 out
  /// of check.
  lemma ShapeLegal(pos: Position, m: Move)
    requires Opening(pos) && OpeningShape(m)
    ensures Placed(pos, m) && IsLegal(pos, m, Location(4, 0), false)
  {
    ShapeSafe(pos, m);
  }

  /// In an opening position every possible move passes the legality test.
  lemma OpeningMovesPass(pos: Position)
    requires Opening(pos)
    ensures forall m :: m in PossibleMoves(pos) ==>
      LegalityTest(pos, Location(4, 0)).requires(m) && LegalityTest(pos, Location(4, 0))(m)
  {
    OpeningNotInCheck(pos);
    forall m | m in PossibleMoves(pos)
      ensures LegalityTest(pos, Location(4, 0)).requires(m) && LegalityTest(pos, Location(4, 0))(m)
    {
      PossibleMoveShape(pos, m);
      ShapeLegal(pos, m);
    }
  }

  /// In an opening position every possible move is legal, so `legalMoves`
  /// keeps all twenty.
  lemma OpeningLegalMoves(pos: Position)
    requires Opening(pos)
    ensures LegalMoves(pos) == PossibleMoves(pos)
    ensures |LegalMoves(pos)| == 20
  {
    OpeningPossibleMoves(pos, 16);
    OpeningFilter(pos);
    OpeningMovesPass(pos);
    FilterKeepsAll(PossibleMoves(pos), LegalityTest(pos, Location(4, 0)));
  }

  /// The new game has twenty legal moves.
  lemma NewGameLegalMoveCount()
    ensures |LegalMoves(Positions.NewGame())| == 20
  {
    NewGameIsOpening();
    OpeningLegalMoves(Positions.NewGame());
  }
}
