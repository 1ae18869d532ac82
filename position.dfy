/// A chess position: the board, the side to move and the move history
/// (kjchess/Position.swift), together with the castling rights and the
/// en-passant target that the move generator reads.
module Positions {
  import opened Wrappers
  import opened Players
  import opened Pieces
  import opened Locations
  import opened Moves
  import opened Castling
  import Boards

  datatype Position = Position(
    board: Boards.Squares,
    toMove: Player,
    moves: seq<Move>,
    castling: CastlingOptions,
    enPassant: Option<Location>)

  /// `Position(board:toMove:moves:)` with the default options: every
  /// castling right and no en-passant target.
  function MakePosition(board: Boards.Squares, toMove: Player, moves: seq<Move>): (p: Position)
    ensures p.board == board && p.toMove == toMove && p.moves == moves && p.enPassant == None
    ensures forall f :: f in Flags ==> Contains(p.castling, f)
  {
    AllAndNone();
    Position(board, toMove, moves, All, None)
  }

  /// `Position.newGame()`.
  function NewGame(): (p: Position)
    ensures p.toMove == White && p.moves == [] && p.board == Boards.NewGame
    ensures forall l :: Boards.At(p.board, l) == Boards.InitialPiece(l)
  {
    forall l ensures Boards.At(Boards.NewGame, l) == Boards.InitialPiece(l) {
      Boards.NewGameLayout(l);
    }
    MakePosition(Boards.NewGame, White, [])
  }

  /// The square a player's rook starts on, for one castling flag.
  function RookHome(f: CastlingOptions): Option<Location>
  {
    if f == WhiteCanCastleKingside then Some(Location(7, 0))
    else if f == WhiteCanCastleQueenside then Some(Location(0, 0))
    else if f == BlackCanCastleKingside then Some(Location(7, 7))
    else if f == BlackCanCastleQueenside then Some(Location(0, 7))
    else None
  }

  /// The four rook home squares: h1, a1, h8, a8.
  lemma RookHomeValues()
    ensures RookHome(WhiteCanCastleKingside) == Some(Location(7, 0))
    ensures RookHome(WhiteCanCastleQueenside) == Some(Location(0, 0))
    ensures RookHome(BlackCanCastleKingside) == Some(Location(7, 7))
    ensures RookHome(BlackCanCastleQueenside) == Some(Location(0, 7))
  {
    FlagValues();
  }

  /// Removes one flag when the move starts or ends on that flag's rook
  /// square.
  function ClearIfRookSquare(c: CastlingOptions, f: CastlingOptions, m: Move): CastlingOptions
  {
    if !m.Resign? && RookHome(f).Some? && (From(m) == RookHome(f).value || To(m) == RookHome(f).value)
    then Remove(c, f) else c
  }

  /// The castling rights after a move: any king move (castling included)
  /// gives up both of the mover's rights, and a move from or onto a rook's
  /// home square gives up that rook's right.
  function CastlingAfter(c: CastlingOptions, m: Move): CastlingOptions
  {
    var p := Mover(m);
    var c1 := if MovingPiece(m).kind == King && !m.Resign? then Remove(Remove(c, KingsideFlag(p)), QueensideFlag(p)) else c;
    RookSquaresCleared(c1, m)
  }

  /// The four rook-square checks, in the order of the flags.
  function RookSquaresCleared(c: CastlingOptions, m: Move): CastlingOptions
  {
    var c1 := ClearIfRookSquare(c, WhiteCanCastleKingside, m);
    var c2 := ClearIfRookSquare(c1, WhiteCanCastleQueenside, m);
    var c3 := ClearIfRookSquare(c2, BlackCanCastleKingside, m);
    ClearIfRookSquare(c3, BlackCanCastleQueenside, m)
  }

  /// The direction a player's pawns advance in.
  function PawnDirection(p: Player): int
  {
    if p == White then 1 else -1
  }

  /// The en-passant target after a move: the skipped square after a pawn
  /// advances two squares, otherwise none.
  function EnPassantAfter(m: Move): (t: Option<Location>)
    ensures t.Some? ==>
      (m.Move? && m.piece.kind == Pawn && t.value.file == m.from.file
       && t.value.rank == m.from.rank + PawnDirection(m.piece.player)
       && m.to.rank == t.value.rank + PawnDirection(m.piece.player))
  {
    match m
    case Move(Piece(p, Pawn), from, to) =>
      if from.file == to.file && to.rank == from.rank + 2 * PawnDirection(p)
      then Some(Location(from.file, from.rank + PawnDirection(p)))
      else None
    case _ => None
  }

  /// `after(_:)`: the Swift code asserts that the move is the side to
  /// move's; `Board.apply` needs the en-passant victim on the board.
  function After(p: Position, m: Move): (r: Position)
    requires Mover(m) == p.toMove && Boards.Applicable(m)
    ensures r.board == Boards.After(p.board, m)
    ensures r.toMove == Opponent(p.toMove)
    ensures |r.moves| == |p.moves| + 1 && r.moves[..|p.moves|] == p.moves && r.moves[|p.moves|] == m
  {
    Position(Boards.After(p.board, m), Opponent(p.toMove), p.moves + [m],
             CastlingAfter(p.castling, m), EnPassantAfter(m))
  }

  /// After any king move, including castling, the mover has no castling
  /// right left.
  lemma KingMoveClearsCastling(p: Position, m: Move)
    requires Mover(m) == p.toMove && Boards.Applicable(m)
    requires MovingPiece(m).kind == King && !m.Resign?
    ensures !Contains(After(p, m).castling, KingsideFlag(p.toMove))
    ensures !Contains(After(p, m).castling, QueensideFlag(p.toMove))
  {
    var kingside := KingsideFlag(p.toMove);
    var queenside := QueensideFlag(p.toMove);
    FlagValues();
    var c1 := Remove(Remove(p.castling, kingside), queenside);
    RemoveShrinks(Remove(p.castling, kingside), queenside, kingside);
    assert After(p, m).castling == RookSquaresCleared(c1, m);
    RookSquaresClearedShrinks(c1, m, kingside);
    RookSquaresClearedShrinks(c1, m, queenside);
  }

  /// Castling rights are never regained.
  lemma CastlingRightsOnlyShrink(p: Position, m: Move, f: CastlingOptions)
    requires Mover(m) == p.toMove && Boards.Applicable(m) && f in Flags
    ensures Contains(After(p, m).castling, f) ==> Contains(p.castling, f)
  {
    CastlingAfterShrinks(p.castling, m, f);
  }

  /// `CastlingAfter` only ever removes flags.
  lemma CastlingAfterShrinks(c: CastlingOptions, m: Move, f: CastlingOptions)
    ensures Contains(CastlingAfter(c, m), f) ==> Contains(c, f)
  {
    var pl := Mover(m);
    var c1 := if MovingPiece(m).kind == King && !m.Resign? then Remove(Remove(c, KingsideFlag(pl)), QueensideFlag(pl)) else c;
    RemoveShrinks(c, KingsideFlag(pl), f);
    RemoveShrinks(Remove(c, KingsideFlag(pl)), QueensideFlag(pl), f);
    RookSquaresClearedShrinks(c1, m, f);
  }

  /// The rook-square checks only ever remove flags.
  lemma RookSquaresClearedShrinks(c: CastlingOptions, m: Move, f: CastlingOptions)
    ensures Contains(RookSquaresCleared(c, m), f) ==> Contains(c, f)
  {
    var c1 := ClearIfRookSquare(c, WhiteCanCastleKingside, m);
    ClearIfRookSquareShrinks(c, WhiteCanCastleKingside, m, f);
    var c2 := ClearIfRookSquare(c1, WhiteCanCastleQueenside, m);
    ClearIfRookSquareShrinks(c1, WhiteCanCastleQueenside, m, f);
    var c3 := ClearIfRookSquare(c2, BlackCanCastleKingside, m);
    ClearIfRookSquareShrinks(c2, BlackCanCastleKingside, m, f);
    ClearIfRookSquareShrinks(c3, BlackCanCastleQueenside, m, f);
  }

  lemma ClearIfRookSquareShrinks(c: CastlingOptions, g: CastlingOptions, m: Move, f: CastlingOptions)
    ensures Contains(ClearIfRookSquare(c, g, m), f) ==> Contains(c, f)
  {
    RemoveShrinks(c, g, f);
  }

  /// A move that neither involves a king nor touches a rook's home square
  /// keeps every castling right.
  lemma QuietMoveKeepsCastling(p: Position, m: Move)
    requires Mover(m) == p.toMove && Boards.Applicable(m)
    requires MovingPiece(m).kind != King
    requires forall f :: f in Flags && RookHome(f).Some? ==> From(m) != RookHome(f).value && To(m) != RookHome(f).value
    ensures After(p, m).castling == p.castling
  {
  }

  /// The tests: castling in either direction, for either side, from the
  /// default options, leaves the mover without castling rights; the other
  /// side keeps both of its rights.
  lemma CastlingExample(b: Boards.Squares, pl: Player, m: Move)
    requires m == CastleKingside(pl) || m == CastleQueenside(pl)
    ensures var p := After(MakePosition(b, pl, []), m);
      !Contains(p.castling, KingsideFlag(pl)) && !Contains(p.castling, QueensideFlag(pl))
      && Contains(p.castling, KingsideFlag(Opponent(pl))) && Contains(p.castling, QueensideFlag(Opponent(pl)))
  {
    assert After(MakePosition(b, pl, []), m).castling == CastlingAfter(All, m);
    CastleClearsMoverRights(All, m);
    if pl == White {
      assert Remove(Remove(All, WhiteCanCastleKingside), WhiteCanCastleQueenside).rawValue == 12;
    } else {
      assert Remove(Remove(All, BlackCanCastleKingside), BlackCanCastleQueenside).rawValue == 3;
    }
  }

  /// Castling gives up exactly the mover's two rights: the king and rook
  /// squares it involves are never another rook's home square.
  lemma CastleClearsMoverRights(c: CastlingOptions, m: Move)
    requires m.CastleKingside? || m.CastleQueenside?
    ensures CastlingAfter(c, m) == Remove(Remove(c, KingsideFlag(Mover(m))), QueensideFlag(Mover(m)))
  {
    RookHomeValues();
  }

  /// The tests: after d7-d5 the target is d6, after e2-e4 it is e3.
  lemma EnPassantExamples(b: Boards.Squares)
    ensures After(MakePosition(b, Black, []), Move(Piece(Black, Pawn), Location(3, 6), Location(3, 4))).enPassant
      == Some(Location(3, 5))
    ensures After(MakePosition(b, White, []), Move(Piece(White, Pawn), Location(4, 1), Location(4, 3))).enPassant
      == Some(Location(4, 2))
  {
  }

  /// The en-passant target, when there is one, lies in front of an
  /// opposing pawn that can be captured: the square `apply` clears for an
  /// en-passant capture by the side to move holds the opponent's pawn.
  predicate EnPassantSound(p: Position)
  {
    p.enPassant.Some? ==>
      var victim := Boards.EnPassantVictim(p.toMove, p.enPassant.value);
      victim.Some? && Boards.At(p.board, victim.value) == Some(Piece(Opponent(p.toMove), Pawn))
  }

  /// Every move keeps the en-passant target sound.
  lemma AfterKeepsEnPassantSound(p: Position, m: Move)
    requires Mover(m) == p.toMove && Boards.Applicable(m)
    ensures EnPassantSound(After(p, m))
  {
    var r := After(p, m);
    if r.enPassant.Some? {
      Boards.ApplyEffect(p.board, m);
    }
  }

  lemma NewGameEnPassantSound()
    ensures EnPassantSound(NewGame())
  {
  }
}
