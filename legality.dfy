/// `legalMoves` and `isLegal` of kjchess/Position_legalMoves.swift: the
/// possible moves filtered by a test for leaving the own king attacked.
///
/// The test is stated exactly as the Swift code computes it. A king move is
/// judged on the board before the move, so a king stepping back along the
/// line of a checking rook, bishop or queen is kept (the king itself blocks
/// that square's attack until it leaves). An en-passant capture that opens
/// a line to the king is simulated only when the capturing pawn shares a
/// line with the king. `KingRetreatOnCheckingLine` below shows the first
/// of these on a concrete board.
module Legality {
  import opened Wrappers
  import opened Players
  import opened Pieces
  import opened Locations
  import opened Moves
  import opened Boards
  import opened Positions
  import opened MoveGeneration
  import opened Castling
  import opened Attacks

  /// The square next to the king that castling crosses: f1 or d1 for
  /// White, f8 or d8 for Black.
  function CastlingTransit(m: Move): (l: Location)
    requires IsCastle(m)
    ensures l.rank == HomeRank(Mover(m)) && l.file == (if m.CastleKingside? then 5 else 3)
  {
    Location(if m.CastleKingside? then 5 else 3, HomeRank(Mover(m)))
  }

  /// Two squares on a common rank, file or diagonal.
  predicate SharesLine(a: Location, b: Location)
  {
    IsSameDiagonal(a, b) || IsSameRank(a, b) || IsSameFile(a, b)
  }

  /// `isLegal(move:kingLocation:isInCheck:)`. A move of the king (other
  /// than resigning) is rejected when its destination is attacked now,
  /// and a castle also when the king is in check or the transit square is
  /// attacked. Any other move is simulated only when the king is in check
  /// or the moving piece starts on one of the king's lines, and is then
  /// rejected when the king's square is attacked afterwards.
  predicate IsLegal(pos: Position, m: Move, king: Location, inCheck: bool)
    requires Placed(pos, m)
  {
    var opponent := Opponent(Mover(m));
    if From(m) == king && !m.Resign? then
      !Attacked(pos.board, To(m), opponent)
      && (IsCastle(m) ==> !inCheck && !Attacked(pos.board, CastlingTransit(m), opponent))
    else if inCheck || SharesLine(From(m), king) then
      !Attacked(Boards.After(pos.board, m), king, opponent)
    else
      true
  }

  /// Swift's `filter`: the elements of `s` that pass `f`, in order.
  function Filter<T>(s: seq<T>, f: T --> bool): seq<T>
    requires forall x :: x in s ==> f.requires(x)
  {
    if |s| == 0 then
      []
    else
      var kept := if f(s[0]) then [s[0]] else [];
      kept + Filter(s[1..], f)
  }

  /// An element survives the filter exactly when it is in the list and
  /// passes.
  lemma {:induction false} FilterMembership<T>(s: seq<T>, f: T --> bool, x: T)
    requires forall y :: y in s ==> f.requires(y)
    ensures x in Filter(s, f) <==> x in s && f(x)
  {
    if |s| > 0 {
      FilterMembership(s[1..], f, x);
      assert s == [s[0]] + s[1..];
    }
  }

  /// `a` is the sub-list of `b` at the strictly increasing positions `idx`.
  ghost predicate SubsequenceAt<T>(a: seq<T>, b: seq<T>, idx: seq<int>)
  {
    |idx| == |a|
    && (forall k :: 0 <= k < |idx| ==> 0 <= idx[k] < |b| && a[k] == b[idx[k]])
    && (forall j, k :: 0 <= j < k < |idx| ==> idx[j] < idx[k])
  }

  /// The filter keeps its input's order: the kept elements sit at strictly
  /// increasing positions of the input.
  lemma {:induction false} FilterSubsequence<T>(s: seq<T>, f: T --> bool) returns (idx: seq<int>)
    requires forall y :: y in s ==> f.requires(y)
    ensures SubsequenceAt(Filter(s, f), s, idx)
  {
    if |s| == 0 {
      idx := [];
    } else {
      var rest := FilterSubsequence(s[1..], f);
      var shifted := SubsequenceOfTail(Filter(s[1..], f), s, rest);
      if f(s[0]) {
        assert Filter(s, f) == [s[0]] + Filter(s[1..], f);
        idx := SubsequenceCons(Filter(s[1..], f), s, shifted);
      } else {
        assert Filter(s, f) == Filter(s[1..], f);
        idx := shifted;
      }
    }
  }

  /// Whether the side to move's king, at `king`, is attacked.
  predicate InCheck(pos: Position, king: Location)
  {
    Attacked(pos.board, king, Opponent(pos.toMove))
  }

  /// The test `legalMoves` filters with, for the king found at `king`.
  function LegalityTest(pos: Position, king: Location): Move --> bool
  {
    var inCheck := InCheck(pos, king);
    m requires Placed(pos, m) => IsLegal(pos, m, king, inCheck)
  }

  /// `legalMoves`: all possible moves when the side to move has no king,
  /// otherwise those that pass `isLegal` with the first king found.
  function LegalMoves(pos: Position): seq<Move>
  {
    PossibleMovesPlaced(pos);
    match KingLocationOf(pos.board, pos.toMove)
    case None => PossibleMoves(pos)
    case Some(king) => Filter(PossibleMoves(pos), LegalityTest(pos, king))
  }

  // What the filter keeps.

  /// `legalMoves` is `possibleMoves` itself when the side to move has no
  /// king, and otherwise `possibleMoves` filtered by the legality test.
  lemma LegalMovesCases(pos: Position)
    ensures (forall m :: m in PossibleMoves(pos) ==> Placed(pos, m))
    ensures KingLocationOf(pos.board, pos.toMove).None? ==> LegalMoves(pos) == PossibleMoves(pos)
    ensures KingLocationOf(pos.board, pos.toMove).Some? ==>
      LegalMoves(pos) == Filter(PossibleMoves(pos), LegalityTest(pos, KingLocationOf(pos.board, pos.toMove).value))
  {
    PossibleMovesPlaced(pos);
  }

  /// `legalMoves` is an order-preserving sub-list of `possibleMoves`.
  lemma LegalMovesSubsequence(pos: Position) returns (idx: seq<int>)
    ensures SubsequenceAt(LegalMoves(pos), PossibleMoves(pos), idx)
  {
    LegalMovesCases(pos);
    var ms := PossibleMoves(pos);
    match KingLocationOf(pos.board, pos.toMove)
    case None =>
      idx := SubsequenceOfItself(ms);
    case Some(king) =>
      idx := FilterSubsequence(ms, LegalityTest(pos, king));
  }

  /// A sub-list of `b[1..]` is one of `b`, each position shifted by one.
  lemma SubsequenceOfTail<T>(a: seq<T>, b: seq<T>, idx: seq<int>) returns (shifted: seq<int>)
    requires |b| > 0 && SubsequenceAt(a, b[1..], idx)
    ensures SubsequenceAt(a, b, shifted)
    ensures forall k :: 0 <= k < |shifted| ==> shifted[k] > 0
  {
    shifted := seq(|idx|, k requires 0 <= k < |idx| => idx[k] + 1);
  }

  /// Putting `b`'s first element in front of a sub-list of its tail.
  lemma SubsequenceCons<T>(a: seq<T>, b: seq<T>, idx: seq<int>) returns (idx': seq<int>)
    requires |b| > 0 && SubsequenceAt(a, b, idx) && forall k :: 0 <= k < |idx| ==> idx[k] > 0
    ensures SubsequenceAt([b[0]] + a, b, idx')
  {
    idx' := [0] + idx;
  }

  /// A list is the sub-list of itself at positions 0, 1, ..., |s| - 1.
  lemma SubsequenceOfItself<T>(s: seq<T>) returns (idx: seq<int>)
    ensures SubsequenceAt(s, s, idx)
  {
    idx := seq(|s|, k => k);
  }

  /// With a king on the board, a move is legal exactly when it is possible
  /// and passes `isLegal` with that king and the current check status.
  lemma LegalMovesMembership(pos: Position, m: Move)
    requires KingLocationOf(pos.board, pos.toMove).Some?
    ensures var king := KingLocationOf(pos.board, pos.toMove).value;
      m in LegalMoves(pos) <==> m in PossibleMoves(pos) && Placed(pos, m) && IsLegal(pos, m, king, InCheck(pos, king))
  {
    LegalMovesCases(pos);
    var king := KingLocationOf(pos.board, pos.toMove).value;
    FilterMembership(PossibleMoves(pos), LegalityTest(pos, king), m);
  }

  /// Every legal move is one the side to move can play on the board.
  lemma LegalMovesPlaced(pos: Position, m: Move)
    requires m in LegalMoves(pos)
    ensures Placed(pos, m)
  {
    LegalMovesCases(pos);
    if KingLocationOf(pos.board, pos.toMove).Some? {
      LegalMovesMembership(pos, m);
    }
  }

  // `isLegal` case by case, as the Swift code decides.

  /// A move of a piece other than the king, from a square on none of the
  /// king's lines, is kept without simulation when the king is not in
  /// check; otherwise it is kept exactly when the king's square is not
  /// attacked after the move.
  lemma NonKingMoveLegality(pos: Position, m: Move)
    requires KingLocationOf(pos.board, pos.toMove).Some? && m in PossibleMoves(pos)
    requires From(m) != KingLocationOf(pos.board, pos.toMove).value
    ensures Applicable(m)
    ensures var king := KingLocationOf(pos.board, pos.toMove).value;
      (!InCheck(pos, king) && !SharesLine(From(m), king)) ==> m in LegalMoves(pos)
    ensures var king := KingLocationOf(pos.board, pos.toMove).value;
      (InCheck(pos, king) || SharesLine(From(m), king)) ==>
        (m in LegalMoves(pos) <==> !Attacked(Boards.After(pos.board, m), king, Opponent(pos.toMove)))
  {
    PossibleMovesPlaced(pos);
    LegalMovesMembership(pos, m);
  }

  /// A king move that is not a castle is kept exactly when its destination
  /// is not attacked on the board as it stands before the move.
  lemma KingMoveLegality(pos: Position, m: Move)
    requires KingLocationOf(pos.board, pos.toMove).Some? && m in PossibleMoves(pos)
    requires From(m) == KingLocationOf(pos.board, pos.toMove).value && !IsCastle(m) && !m.Resign?
    ensures m in LegalMoves(pos) <==> !Attacked(pos.board, To(m), Opponent(pos.toMove))
  {
    PossibleMovesPlaced(pos);
    LegalMovesMembership(pos, m);
  }

  /// A castle offered with the king found on its home square is kept
  /// exactly when the king is not in check and neither the destination
  /// nor the transit square is attacked.
  lemma CastlingLegality(pos: Position, m: Move)
    requires IsCastle(m) && m in PossibleMoves(pos)
    requires KingLocationOf(pos.board, pos.toMove) == Some(KingHome(pos.toMove))
    ensures m in LegalMoves(pos) <==>
      !InCheck(pos, KingHome(pos.toMove))
      && !Attacked(pos.board, To(m), Opponent(pos.toMove))
      && !Attacked(pos.board, CastlingTransit(m), Opponent(pos.toMove))
  {
    PossibleMovesPlaced(pos);
    LegalMovesMembership(pos, m);
  }

  // The king-retreat gap on a concrete board: White's king on e2 is in
  // check from a black rook on e8 and steps back to e1.

  /// A board with only a white king on e2 and a black rook on e8.
  function RetreatBoard(): Squares
  {
    seq(64, i => if i == 12 then WK else if i == 60 then BR else None)
  }

  function RetreatMove(): Move
  {
    Move(Piece(White, King), Location(4, 1), Location(4, 0))
  }

  /// The example's squares with the king on e2 (`before`) or on e1.
  function RetreatSquare(before: bool, l: Location): Option<Piece>
  {
    if l == Location(4, 7) then BR else if l == Location(4, if before then 1 else 0) then WK else None
  }

  lemma RetreatBoardAt(l: Location)
    ensures At(RetreatBoard(), l) == RetreatSquare(true, l)
    ensures At(Boards.After(RetreatBoard(), RetreatMove()), l) == RetreatSquare(false, l)
  {
    AtSet(RetreatBoard(), Location(4, 1), None, l);
    AtSet(Set(RetreatBoard(), Location(4, 1), None), Location(4, 0), WK, l);
  }

  /// Only a rook can attack on this board, and only along the e-file.
  lemma RetreatAttacks(before: bool, b: Squares, sq: Location)
    requires forall l :: At(b, l) == RetreatSquare(before, l)
    requires sq.file == 4
    ensures Attacked(b, sq, Black) ==> SlideAttacked(b, sq, Black, (0, 1), RookLikeKinds)
  {
    forall i | 0 <= i < |RookVectors|
      ensures RookVectors[i] != (0, 1) ==> !SlideAttacked(b, sq, Black, RookVectors[i], RookLikeKinds)
    {
      SlideAttackedExact(b, sq, Black, RookVectors[i], RookLikeKinds);
    }
    forall i | 0 <= i < |BishopVectors|
      ensures !SlideAttacked(b, sq, Black, BishopVectors[i], BishopLikeKinds)
    {
      SlideAttackedExact(b, sq, Black, BishopVectors[i], BishopLikeKinds);
    }
  }

  /// Before the move the king on e2 shields e1 from the rook.
  lemma RetreatShielded(b: Squares)
    requires forall l :: At(b, l) == RetreatSquare(true, l)
    ensures !Attacked(b, Location(4, 0), Black)
  {
    RetreatAttacks(true, b, Location(4, 0));
    SlideAttackedExact(b, Location(4, 0), Black, (0, 1), RookLikeKinds);
    assert !RaySquareEmpty(b, Location(4, 0), (0, 1), 1);
  }

  /// The rook gives check on e2.
  lemma RetreatCheck(b: Squares)
    requires forall l :: At(b, l) == RetreatSquare(true, l)
    ensures Attacked(b, Location(4, 1), Black)
  {
    SlideAttackedExact(b, Location(4, 1), Black, (0, 1), RookLikeKinds);
    assert RaySquareAttacker(b, Location(4, 1), (0, 1), 6, Black, RookLikeKinds);
    assert SlideAttacked(b, Location(4, 1), Black, RookVectors[2], RookLikeKinds);
  }

  /// Once the king stands on e1 the rook attacks it.
  lemma RetreatExposed(b: Squares)
    requires forall l :: At(b, l) == RetreatSquare(false, l)
    ensures Attacked(b, Location(4, 0), Black)
  {
    SlideAttackedExact(b, Location(4, 0), Black, (0, 1), RookLikeKinds);
    assert RaySquareAttacker(b, Location(4, 0), (0, 1), 7, Black, RookLikeKinds);
    assert SlideAttacked(b, Location(4, 0), Black, RookVectors[2], RookLikeKinds);
  }

  /// The retreat e2-e1 passes `isLegal` (e1 is not attacked while the king
  /// still stands on e2), although after it the rook attacks e1.
  lemma KingRetreatOnCheckingLine()
    ensures var pos := Position(RetreatBoard(), White, [], All, None);
      Placed(pos, RetreatMove()) && InCheck(pos, Location(4, 1))
      && IsLegal(pos, RetreatMove(), Location(4, 1), true)
      && Attacked(Boards.After(pos.board, RetreatMove()), Location(4, 0), Black)
  {
    var b := RetreatBoard();
    var after := Boards.After(b, RetreatMove());
    forall l ensures At(b, l) == RetreatSquare(true, l) && At(after, l) == RetreatSquare(false, l) {
      RetreatBoardAt(l);
    }
    RetreatShielded(b);
    RetreatCheck(b);
    RetreatExposed(after);
  }
}
